/** Path extraction: the four `GetPath` implementations. Each returns the
    path stored in its node, or a diagnostic anchored at the node saying
    why the node is not a simple path. */
module GetPath {
  import opened Diagnostics
  import opened Syntax
  import opened Rendering

  /** The trait path of `impl Trait for X`. An inherent impl and a negative
      impl `impl !Trait for X` are refused, at the impl's span. */
  function ItemImplGetPath(item: ItemImpl): (r: Result<Path>)
    ensures r.Ok? <==> item.trait_.Some? && item.trait_.value.bang.None?
    ensures r.Ok? ==> r.value == item.trait_.value.path
    ensures item.trait_.None? ==> r == Err(Diagnostic(item.span, "non-trait impl unsupported"))
    ensures item.trait_.Some? && item.trait_.value.bang.Some? ==> r == Err(Diagnostic(item.span, "! unsupported"))
  {
    match item.trait_
    case Some(TraitRef(bang, path, _)) =>
      if bang.Some? then Err(Diagnostic(item.span, "! unsupported")) else Ok(path)
    case None =>
      Err(Diagnostic(item.span, "non-trait impl unsupported"))
  }

  /** The path of a path type, refused when it has a qualified-self prefix
      (`<T as Trait>::Assoc`). The message is the literal text of the
      source: nothing is substituted for `{self:?}`. */
  function TypePathGetPath(tp: TypePath): (r: Result<Path>)
    ensures r.Ok? <==> tp.qself.None?
    ensures r.Ok? ==> r.value == tp.path
    ensures r.Err? ==> r.error == Diagnostic(tp.Span(), "expected simple path, found {self:?}")
  {
    if tp.qself.None? then Ok(tp.path)
    else Err(Diagnostic(tp.Span(), "expected simple path, found {self:?}"))
  }

  /** The diagnostic for a type that is not a path type: it quotes the
      type's rendering with `{:?}`. */
  function NotAPathMessage(rendering: string): string {
    "expected path, found " + DebugStr(rendering)
  }

  /** The path of a type: only a path type has one; every other type is
      refused at its span with its rendering in the message. */
  function TypeGetPath(ty: Type): (r: Result<Path>)
    ensures r.Ok? <==> ty.PathType? && ty.typePath.qself.None?
    ensures r.Ok? ==> r.value == ty.typePath.path
    ensures ty.PathType? ==> r == TypePathGetPath(ty.typePath)
    ensures ty.OtherType? ==> r == Err(Diagnostic(ty.span, NotAPathMessage(ty.rendering)))
  {
    match ty
    case PathType(tp) => TypePathGetPath(tp)
    case OtherType(rendering, span) => Err(Diagnostic(span, NotAPathMessage(rendering)))
  }

  /** `Box<T>` is transparent: the result is that of the boxed value. The
      source's blanket impl is used only for the boxed self type of an
      impl, so it is given here for `Box<Type>`. */
  function BoxedTypeGetPath(b: Box<Type>): (r: Result<Path>)
    ensures r == TypeGetPath(b.inner)
    ensures r.Ok? <==> b.inner.PathType? && b.inner.typePath.qself.None?
  {
    TypeGetPath(b.inner)
  }

  /** The message of a type that is not a path gives the type's rendering
      back unchanged after its fixed prefix. */
  lemma NotAPathMessageNamesType(rendering: string)
    ensures var m := NotAPathMessage(rendering);
      |m| >= |"expected path, found "| && Unquote(m[|"expected path, found "|..]) == Some(rendering)
  {
    var m := NotAPathMessage(rendering);
    assert m[|"expected path, found "|..] == DebugStr(rendering);
    DebugStrRoundTrip(rendering);
  }
}
