# fromstr-via-tryfrom, modelled in Dafny

`tryfrom_via_fromstr` is a Rust attribute macro. Put on `impl FromStr for X`,
it emits that impl unchanged, followed by
`impl<'tryfrom_str_lifetime, ...> ::std::convert::TryFrom<&'tryfrom_str_lifetime str> for X`
whose `try_from` calls `Self::from_str(s)`.

This project models the macro's own decision procedure over syntax shapes:

- `Diagnostics` (diagnostics.dfy): spans, the `(span, message)` diagnostic and `syn::Result`.
- `Syntax` (syntax.dfy): the part of the syn tree the macro reads or builds.
  It covers paths, path and other types, `Box`, generic parameters,
  `Punctuated` lists and their `push_value`/`push_punct`, generics, where-clauses and `ItemImpl`.
  The parser's outcome (`Parsed` or `ParseFailed`) is an input.
- `Rendering` (rendering.dfy): a path's token text, as `to_token_stream().to_string()` prints it, with a space between neighbouring tokens
  (`:: std :: str :: FromStr`), and Rust's `{:?}` quoting of strings.
  Lemmas prove the textual comparison is structural (`RenderPathInjective`)
  and that quoting can be read back (`DebugStrRoundTrip`, `DebugStrListRoundTrip`).
- `GetPath` (getpath.dfy): the four `GetPath` implementations.
- `TryFromViaFromStr` (transform.dfy): `parse_args`, `require_impl_for_fromstr`,
  `prefix_impl_lifetime` (a method whose loop grows the punctuated list) and `transform`.
  `Transform` is a method because it calls `PrefixImplLifetime`.
  Its contract fixes the order of the checks, which error wins, and the shape of the expansion.
- `Examples` (examples.dfy): worked expansions proved from `Transform`'s contract alone.
  They cover a plain impl, a generic impl with a where-clause, an inherent impl,
  another trait on a reference type, and non-empty arguments.

Spans are opaque values (`CallSite` or `Site(n)`) that are only copied.
When the macro asks a node for its `.span()`, the model returns the span of the node's first token.
That is what a stable compiler gives, because it cannot join spans.

The messages and names are the code's own:

- The messages are `"! unsupported"`, `"non-trait impl unsupported"` and `"expecting impl for one of ..."`.
- The qualified-self message is the literal text `expected simple path, found {self:?}`, with nothing substituted.
- The added lifetime is `'tryfrom_str_lifetime`, not `'a` as the doc comments show.

## Model

| member | source | states |
|---|---|---|
| `GetPath.ItemImplGetPath` | src/getpath.rs:11-22 | Succeeds iff the impl has a trait that is not negated, and then returns exactly the stored trait path. An inherent impl gives "non-trait impl unsupported" and a negative impl gives "! unsupported", both at the impl's span. |
| `GetPath.BoxedTypeGetPath` | src/getpath.rs:25-34 | A boxed value gives the same result as the value it wraps. It succeeds iff the wrapped type is a path type without qualified self. |
| `GetPath.TypeGetPath` | src/getpath.rs:36-50 | Succeeds iff the type is a path type without qualified self, returning its stored path. A path type delegates to the `TypePath` result. Any other type fails at its span with "expected path, found " followed by its `{:?}`-quoted rendering. |
| `GetPath.TypePathGetPath` | src/getpath.rs:52-60 | Succeeds iff there is no qualified self, returning the stored path. Otherwise it fails at the node's span with the uninterpolated literal message. |
| `GetPath.NotAPathMessageNamesType` | src/getpath.rs:41-47 | The not-a-path message gives the offending type's rendering back unchanged after its fixed prefix. |
| `TryFromViaFromStr.ParseArgs` | src/lib.rs:156-162 | Succeeds iff the argument stream is empty. Otherwise it fails with "no arguments supported" at the first argument token's span. |
| `TryFromViaFromStr.RequireImplForFromStr` | src/lib.rs:164-184 | Succeeds iff the impl has a non-negated trait whose rendered path is one of the three accepted spellings. Inherent and negative impls give the path-extraction errors. Any other trait fails at the trait path's span with the message listing the spellings and the found path. |
| `TryFromViaFromStr.ExpectedRenderings` | src/lib.rs:167-171 | The three accepted strings are the renderings of the paths `FromStr`, `std::str::FromStr` and `::std::str::FromStr`. |
| `TryFromViaFromStr.ExpectedNamesFromStr` | src/lib.rs:167-176 | A well-formed path whose rendering is accepted names `FromStr` in one of the three spellings, without generic arguments. |
| `TryFromViaFromStr.NamesFromStrIsExpected` | src/lib.rs:167-176 | Every path naming `FromStr` in one of the three spellings renders as an accepted string. |
| `TryFromViaFromStr.SpellingIsStructural` | src/lib.rs:167-176 | For well-formed paths, the textual check accepts exactly the three spellings of `FromStr`, in both directions. A rooted `::FromStr` and any alias are refused. |
| `TryFromViaFromStr.RequireImplForFromStrAccepts` | src/lib.rs:164-184 | For well-formed trait paths, the trait check passes iff the impl is a positive impl of `FromStr` in an accepted spelling. |
| `TryFromViaFromStr.MismatchMessageNamesPath` | src/lib.rs:179-182 | The trait-mismatch message gives the found rendering back unchanged after its fixed prefix. |
| `TryFromViaFromStr.PrefixImplLifetime` | src/lib.rs:186-215 | The new parameter list is `'tryfrom_str_lifetime` (no attributes, colon or bounds, at the generics' span) followed by the original parameters, unmodified and in order. So it has length n+1. It has exactly n commas, all default ones, and no trailing comma. `<` and `>` are copied and there is no where-clause. |
| `TryFromViaFromStr.Transform` | src/lib.rs:128-154 | Errors come in a fixed order: arguments first (whatever the item), then the parse error, then trait errors, then self-type errors. It succeeds iff all checks pass. The expansion is then the original impl verbatim, followed by a `TryFrom` impl whose generics are `'tryfrom_str_lifetime` then the original parameters in order, joined by default commas with none trailing, with `<`/`>` copied, then the extracted self path and exactly the original where-clause. The lifetime in `&'lt str` is the one declared first in its generics. |
| `Rendering.RenderPath` | src/lib.rs:175 | The space-separated token rendering of a path. For a well-formed path it is non-empty and starts with a colon exactly when the path has a leading `::`. |
| `Rendering.DebugStr` | src/getpath.rs:44 | `{:?}` of a string: at least two characters longer than the string, opening and closing with a double quote, and every quote between them written right after a backslash. |
| `Rendering.DebugStrList` | src/lib.rs:181 | `{:?}` of a slice of strings: opens with `[` and closes with `]`, and is exactly `[]` iff the slice is empty. |
| `Syntax.TokenStream.Span` | src/lib.rs:160 | `.span()` of the arguments on a stable compiler: the first token's span, or the call site for an empty stream. |
| `Syntax.TypePath.Span` | src/getpath.rs:57 | `.span()` of a path type: the `<` of its qualified self when there is one, otherwise the path's first-token span. |
| `Syntax.Generics.Span` | src/lib.rs:196 | `.span()` of the generics: the call site or the `<` token's span. With parameters it is the `<` span, when there is a `<`. With none it is the call site. |
| `Syntax.Punctuated.PushValue` | src/lib.rs:191 | `push_value` on a list that is empty or ends in a comma: the value is appended and becomes the trailing value. Existing pairs are unchanged. |
| `Syntax.Punctuated.PushPunct` | src/lib.rs:205 | `push_punct` after a trailing value: the value and the comma become a new pair, the values are unchanged and no value is trailing. |
| `Rendering.DebugStrListRoundTrip` | src/lib.rs:181 | `{:?}` of a list of strings, followed by any text, reads back as the same list in order, with the following text left over. |
| `TryFromViaFromStr.MismatchMessageListsExpected` | src/lib.rs:179-182 | After its lead-in, the trait-mismatch message lists exactly the three accepted spellings in order, then `, found ` and the quoted found path. |
| `Rendering.RenderPathInjective` | src/lib.rs:175-176 | Two well-formed paths render the same, one of them without generic arguments, only if they have the same leading `::` and the same segments. |
| `Rendering.DebugStrRoundTrip` | src/lib.rs:181 | `{:?}` quoting of a string reads back as the original string. |

## Left out

- The `#[proc_macro_attribute]` entry point (src/lib.rs:120-126). It only turns an `Err` into `compile_error!` tokens.
- Parsing with `syn::parse2`. Its outcome is an input of `Transform`: a parsed `ItemImpl`, or a parse diagnostic that is passed through unchanged.
- Token printing with `quote!`. The expansion is a value holding the original impl and the varying parts of the derived impl (generics, the `&str` lifetime, target path, where-clause). The derived impl's fixed text (trait path, `type Error`, the `try_from` body) is not represented.
- `split_for_impl` printing. It emits lifetimes before other parameters and drops parameter defaults when the generics are printed. The model keeps the `Generics` value it prints, not the printed order.
- Path rendering: a segment's generic arguments are kept as their token text. The well-formedness premise (identifiers have no space, `:`, `<` or `(`; arguments contain `<` or `(`) stands in for the lexer's rules.
- Rendering.RenderPath: writes a space between an identifier and parenthesised `Fn`-style arguments (`Fn (u8)`), as proc_macro2's fallback printer does. Inside the compiler, `to_string()` prints `Fn(u8)`. Only the found text in the trait-mismatch message differs, because no accepted spelling has a parenthesis. The model keeps one uniform spacing rule so that `RenderPathInjective` can split the text at spaces.
- `{:?}` escaping: quotes, backslashes, `\n`, `\r`, `\t` and `\0` are modelled. The `\u{...}` escapes for other non-printable characters are not.
- `Box<T>::get_path` is generic over every `T: GetPath` in the source. It is modelled for `Box<Type>`, the only instance the macro uses (`self_ty`), because the model has no trait dispatch.
- src/error.rs is not part of this model. Its helpers are the `Diagnostic` constructor and `Err`.
- The generated `try_from`'s run-time behaviour (delegating to `from_str`) is not modelled. The macro never runs it.
- src/tests.rs and the doc-comment examples are not used as a reference. They disagree with the code (`s.parse()` versus `Self::from_str(s)`, target `Wrapper<T>` for input `MyWrapper<T>`, lifetime `'a`).
