/** The part of the Rust syntax tree the macro looks at. Nodes the macro
    only copies (attributes, bounds, impl items, where-predicates) are kept
    as their token text. */
module Syntax {
  import opened Diagnostics

  /** One token of an unparsed token stream. */
  datatype Token = Token(text: string, span: Span)

  /** An unparsed token stream, such as the attribute's arguments. */
  datatype TokenStream = TokenStream(tokens: seq<Token>) {
    predicate IsEmpty() {
      |tokens| == 0
    }

    /** What `.span()` gives on a stable compiler, where spans cannot be
        joined: the first token's span, or the call site when empty. */
    function Span(): (s: Span)
      ensures |tokens| > 0 ==> s == tokens[0].span
      ensures |tokens| == 0 ==> s == CallSite
    {
      if IsEmpty() then CallSite else tokens[0].span
    }
  }

  /** One segment of a path: an identifier and the token text of its
      generic arguments (`"< T >"`, `":: < T >"`, `"(A) -> B"`), empty when
      there are none. */
  datatype PathSegment = PathSegment(ident: string, arguments: string)

  /** `a::b::C`, or `::a::b::C` when `leadingColon` is set. `span` is the
      span of its first token. */
  datatype Path = Path(leadingColon: bool, segments: seq<PathSegment>, span: Span)

  /** The `<T as Trait>` prefix of a qualified path. */
  datatype QSelf = QSelf(ltToken: Span, ty: string)

  /** A path type, possibly with a qualified-self prefix. */
  datatype TypePath = TypePath(qself: Option<QSelf>, path: Path) {
    /** The span of its first token. */
    function Span(): (s: Span)
      ensures qself.None? ==> s == path.span
      ensures qself.Some? ==> s == qself.value.ltToken
    {
      if qself.Some? then qself.value.ltToken else path.span
    }
  }

  datatype Option<+T> = None | Some(value: T)

  /** A type. Every shape other than a path type (references, tuples,
      slices, parenthesised types, ...) is kept as its rendered tokens. */
  datatype Type =
    | PathType(typePath: TypePath)
    | OtherType(rendering: string, span: Span)

  /** `Box<T>`: an owning pointer, transparent for the macro. */
  datatype Box<+T> = Box(inner: T)

  datatype Lifetime = Lifetime(name: string, span: Span)

  /** A generic parameter of an impl. */
  datatype GenericParam =
    | LifetimeParam(attrs: seq<string>, lifetime: Lifetime, colonToken: Option<Span>, bounds: seq<Lifetime>)
    | TypeParam(attrs: seq<string>, ident: string, typeBounds: seq<string>, default: Option<string>)
    | ConstParam(attrs: seq<string>, ident: string, ty: string, default: Option<string>)

  /** The `,` token. The macro's own commas carry the call-site span. */
  datatype Comma = Comma(span: Span)

  /** `syn::punctuated::Punctuated<T, Comma>`: value-comma pairs followed
      by an optional last value without a comma. A list whose `last` is
      present has exactly one comma between neighbouring values and none
      at the end; one whose `last` is absent and `inner` is not empty ends
      in a trailing comma. */
  datatype Punctuated<T> = Punctuated(inner: seq<(T, Comma)>, last: Option<T>) {

    /** The values in order, as iterating over the list yields them. */
    function Values(): (vs: seq<T>)
      ensures |vs| == |inner| + (if last.Some? then 1 else 0)
      ensures forall i :: 0 <= i < |inner| ==> vs[i] == inner[i].0
    {
      seq(|inner|, i requires 0 <= i < |inner| => inner[i].0)
        + (if last.Some? then [last.value] else [])
    }

    /** Appends a value. Like syn's `push_value`, it needs the list to be
        empty or to end with a comma. */
    function PushValue(v: T): (p: Punctuated<T>)
      requires last.None?
      ensures p.Values() == Values() + [v]
      ensures p.inner == inner && p.last == Some(v)
    {
      Punctuated(inner, Some(v))
    }

    /** Appends a comma after the last value, which must be present. */
    function PushPunct(c: Comma): (p: Punctuated<T>)
      requires last.Some?
      ensures p.Values() == Values()
      ensures p.inner == inner + [(last.value, c)] && p.last.None?
    {
      Punctuated(inner + [(last.value, c)], None)
    }
  }

  datatype WhereClause = WhereClause(whereToken: Span, predicates: seq<string>)

  /** The generics of an item: `<` params `>` and the where-clause. */
  datatype Generics = Generics(
    ltToken: Option<Span>,
    params: Punctuated<GenericParam>,
    gtToken: Option<Span>,
    whereClause: Option<WhereClause>)
  {
    /** What `.span()` gives on a stable compiler: the span of the first
        printed token. Generics print nothing when they have no parameter,
        and a missing `<` prints as one with the call-site span. */
    function Span(): (s: Span)
      ensures s == CallSite || (ltToken.Some? && s == ltToken.value)
      ensures |params.inner| > 0 || params.last.Some? ==> s == if ltToken.Some? then ltToken.value else CallSite
      ensures |params.inner| == 0 && params.last.None? ==> s == CallSite
    {
      if |params.Values()| == 0 then CallSite
      else if ltToken.Some? then ltToken.value
      else CallSite
    }
  }

  /** The `Trait for` part of `impl !Trait for X`; `bang` is the `!`. */
  datatype TraitRef = TraitRef(bang: Option<Span>, path: Path, forToken: Span)

  /** `impl<generics> Trait for SelfTy where ... { items }`. `span` is the
      span of its first token. */
  datatype ItemImpl = ItemImpl(
    attrs: seq<string>,
    span: Span,
    generics: Generics,
    trait_: Option<TraitRef>,
    selfTy: Box<Type>,
    items: seq<string>)

  /** What parsing the annotated item as an impl yields. The parser is not
      part of this model: its outcome is an input. */
  datatype ParseOutcome = Parsed(item: ItemImpl) | ParseFailed(error: Diagnostic) {
    function ToResult(): Result<ItemImpl> {
      match this
      case Parsed(item) => Ok(item)
      case ParseFailed(e) => Err(e)
    }
  }
}
