/** The macro's transformation: from the attribute's arguments and the
    annotated `impl FromStr for X`, the original impl followed by a derived
    `impl TryFrom<&str> for X` that delegates to `from_str`. */
module TryFromViaFromStr {
  import opened Diagnostics
  import opened Syntax
  import opened Rendering
  import opened GetPath

  const NoArgumentsMessage := "no arguments supported"

  const StdSpelling := "std :: str :: FromStr"

  /** The accepted renderings of the implemented trait's path:
      `FromStr`, `std :: str :: FromStr` and `:: std :: str :: FromStr`. */
  const Expected: seq<string> := ["FromStr", StdSpelling, ":: " + StdSpelling]

  /** The name of the lifetime the derived impl adds. */
  const TryFromLifetimeName := "'tryfrom_str_lifetime"

  /** The attribute takes no arguments: any token is refused, at the span
      of the first one. */
  function ParseArgs(args: TokenStream): (r: Result<()>)
    ensures r.Ok? <==> |args.tokens| == 0
    ensures r.Err? ==> r.error == Diagnostic(args.tokens[0].span, NoArgumentsMessage)
  {
    if args.IsEmpty() then Ok(()) else Err(Diagnostic(args.Span(), NoArgumentsMessage))
  }

  const MismatchLead := "expecting impl for one of "

  const MismatchPrefix := MismatchLead + DebugStrList(Expected) + ", found "

  /** The diagnostic for an impl of some other trait: the accepted
      spellings and the found one, each written with `{:?}`. */
  function MismatchMessage(found: string): string {
    MismatchPrefix + DebugStr(found)
  }

  /** The item must implement `FromStr` under one of the accepted
      spellings. Inherent and negative impls fail with the path extraction's
      diagnostic; any other trait fails at its path's span. */
  function RequireImplForFromStr(item: ItemImpl): (r: Result<()>)
    ensures r.Ok? <==> item.trait_.Some? && item.trait_.value.bang.None?
                       && RenderPath(item.trait_.value.path) in Expected
    ensures item.trait_.None? ==> r == Err(Diagnostic(item.span, "non-trait impl unsupported"))
    ensures item.trait_.Some? && item.trait_.value.bang.Some? ==> r == Err(Diagnostic(item.span, "! unsupported"))
    ensures item.trait_.Some? && item.trait_.value.bang.None? && r.Err? ==>
              var path := item.trait_.value.path;
              r == Err(Diagnostic(path.span, MismatchMessage(RenderPath(path))))
  {
    var fromStrPath :- ItemImplGetPath(item);
    var span := fromStrPath.span;
    var path := RenderPath(fromStrPath);
    if path in Expected then Ok(())
    else Err(Diagnostic(span, MismatchMessage(path)))
  }

  /** The segments of `FromStr`. */
  function SingleSegment(): seq<PathSegment> {
    [PathSegment("FromStr", "")]
  }

  /** The segments of `std::str::FromStr`. */
  function FullSegments(): seq<PathSegment> {
    [PathSegment("std", ""), PathSegment("str", ""), PathSegment("FromStr", "")]
  }

  /** The paths that name `FromStr` in one of the accepted spellings:
      `FromStr`, `std::str::FromStr` and `::std::str::FromStr`, without
      generic arguments. A rooted `::FromStr` is not one of them. */
  predicate NamesFromStr(p: Path) {
    || (!p.leadingColon && p.segments == SingleSegment())
    || p.segments == FullSegments()
  }

  lemma RenderFullSegments()
    ensures RenderSegments(FullSegments()) == StdSpelling
  {
    var one := [PathSegment("FromStr", "")];
    var two := [PathSegment("str", "")] + one;
    var three := [PathSegment("std", "")] + two;
    RenderOnePlainSegment(one);
    assert two[1..] == one;
    RenderPlainFirstSegment(two);
    assert three[1..] == two;
    RenderPlainFirstSegment(three);
    assert three == FullSegments();
    assert RenderSegments(three) == "std" + " :: " + ("str" + " :: " + "FromStr");
    assert "std" + " :: " + ("str" + " :: " + "FromStr") == StdSpelling by {
      assert "str" + " :: " + "FromStr" == "str :: FromStr";
      assert "std" + " :: " + "str :: FromStr" == "std :: str :: FromStr";
    }
  }

  /** The accepted strings are the renderings of the three spellings. */
  lemma ExpectedRenderings(span: Span)
    ensures RenderPath(Path(false, SingleSegment(), span)) == Expected[0]
    ensures RenderPath(Path(false, FullSegments(), span)) == Expected[1]
    ensures RenderPath(Path(true, FullSegments(), span)) == Expected[2]
  {
    RenderOnePlainSegment(SingleSegment());
    assert RenderPath(Path(false, SingleSegment(), span)) == "" + "FromStr";
    RenderFullSegments();
    assert RenderPath(Path(false, FullSegments(), span)) == "" + StdSpelling;
  }

  /** The three spellings are well-formed paths without arguments. */
  lemma CanonicalPathsWellFormed(span: Span)
    ensures WfPath(Path(false, SingleSegment(), span)) && IsPlain(SingleSegment())
    ensures WfPath(Path(false, FullSegments(), span)) && WfPath(Path(true, FullSegments(), span))
    ensures IsPlain(FullSegments())
  {
  }

  /** Each accepted spelling names `FromStr`. */
  lemma {:induction false} ExpectedNamesFromStr(p: Path)
    requires WfPath(p) && RenderPath(p) in Expected
    ensures NamesFromStr(p)
  {
    ExpectedRenderings(p.span);
    CanonicalPathsWellFormed(p.span);
    if RenderPath(p) == Expected[0] {
      RenderPathInjective(p, Path(false, SingleSegment(), p.span));
    } else if RenderPath(p) == Expected[1] {
      RenderPathInjective(p, Path(false, FullSegments(), p.span));
    } else {
      RenderPathInjective(p, Path(true, FullSegments(), p.span));
    }
  }

  /** Each path naming `FromStr` renders as an accepted spelling. */
  lemma NamesFromStrIsExpected(p: Path)
    requires NamesFromStr(p)
    ensures RenderPath(p) in Expected
  {
    ExpectedRenderings(p.span);
    if p.segments == SingleSegment() {
      assert p == Path(false, SingleSegment(), p.span);
    } else if p.leadingColon {
      assert p == Path(true, FullSegments(), p.span);
    } else {
      assert p == Path(false, FullSegments(), p.span);
    }
  }

  /** The textual check is a structural one: a well-formed trait path is
      accepted exactly when it names `FromStr` in an accepted spelling. */
  lemma SpellingIsStructural(p: Path)
    requires WfPath(p)
    ensures RenderPath(p) in Expected <==> NamesFromStr(p)
  {
    if RenderPath(p) in Expected {
      ExpectedNamesFromStr(p);
    }
    if NamesFromStr(p) {
      NamesFromStrIsExpected(p);
    }
  }

  /** Which impls pass the trait check, stated on the syntax: a positive
      impl of `FromStr` in one of the accepted spellings. */
  lemma RequireImplForFromStrAccepts(item: ItemImpl)
    requires item.trait_.Some? ==> WfPath(item.trait_.value.path)
    ensures RequireImplForFromStr(item).Ok? <==>
              item.trait_.Some? && item.trait_.value.bang.None? && NamesFromStr(item.trait_.value.path)
  {
    if item.trait_.Some? {
      SpellingIsStructural(item.trait_.value.path);
    }
  }

  /** The diagnostic for another trait gives the found rendering back
      unchanged after its fixed prefix. */
  lemma MismatchMessageNamesPath(found: string)
    ensures var m := MismatchMessage(found);
      |m| >= |MismatchPrefix| && Unquote(m[|MismatchPrefix|..]) == Some(found)
  {
    var m := MismatchMessage(found);
    assert m[|MismatchPrefix|..] == DebugStr(found);
    DebugStrRoundTrip(found);
  }

  lemma AfterLead(lead: string, list: string, tail: string)
    ensures (lead + list + tail)[|lead|..] == list + tail
  {
  }

  /** The diagnostic for another trait lists the accepted spellings, in
      order, right after its lead-in, then names the found one. */
  lemma MismatchMessageListsExpected(found: string)
    ensures var m := MismatchMessage(found);
      |m| >= |MismatchLead|
      && ReadDebugStrList(m[|MismatchLead|..]) == Some((Expected, ", found " + DebugStr(found)))
  {
    var tail := ", found " + DebugStr(found);
    assert MismatchMessage(found) == MismatchLead + DebugStrList(Expected) + tail;
    AfterLead(MismatchLead, DebugStrList(Expected), tail);
    DebugStrListRoundTrip(Expected, tail);
  }

  /** The added parameter `'tryfrom_str_lifetime`: no attributes, no colon,
      no bounds. */
  function TryFromLifetimeParam(span: Span): GenericParam {
    LifetimeParam([], Lifetime(TryFromLifetimeName, span), None, [])
  }

  /** The generics of the derived impl: the added lifetime first, then a
      copy of every original parameter in order, one default comma between
      neighbours and none at the end; `<` and `>` copied; no where-clause. */
  method PrefixImplLifetime(def: Generics) returns (g: Generics)
    ensures g.params.Values() == [TryFromLifetimeParam(def.Span())] + def.params.Values()
    ensures g.params.last.Some?
    ensures |g.params.inner| == |def.params.Values()|
    ensures forall i :: 0 <= i < |g.params.inner| ==> g.params.inner[i].1 == Comma(CallSite)
    ensures g.ltToken == def.ltToken && g.gtToken == def.gtToken
    ensures g.whereClause.None?
  {
    var lifetime := TryFromLifetimeParam(def.Span());
    var implParams: Punctuated<GenericParam> := Punctuated([], None);
    implParams := implParams.PushValue(lifetime);
    var defParams := def.params.Values();
    for i := 0 to |defParams|
      invariant implParams.last.Some?
      invariant implParams.Values() == [lifetime] + defParams[..i]
      invariant forall k :: 0 <= k < |implParams.inner| ==> implParams.inner[k].1 == Comma(CallSite)
    {
      implParams := implParams.PushPunct(Comma(CallSite));
      implParams := implParams.PushValue(defParams[i]);
      assert defParams[..i + 1] == defParams[..i] + [defParams[i]];
    }
    assert defParams[..|defParams|] == defParams;
    g := Generics(def.ltToken, implParams, def.gtToken, None);
  }

  /** The derived `impl<generics> ::std::convert::TryFrom<&'lt str> for
      target where ...`. Its associated type (`<Self as FromStr>::Err`) and
      its `try_from` body (`Self::from_str(s)`) are fixed text. */
  datatype TryFromImpl = TryFromImpl(
    generics: Generics,
    strLifetime: string,
    target: Path,
    whereClause: Option<WhereClause>)

  /** The macro's output: the annotated impl, then the derived one. */
  datatype Expansion = Expansion(original: ItemImpl, derived: TryFromImpl)

  /** What a successful expansion of `item` is. */
  predicate IsExpansionOf(item: ItemImpl, e: Expansion) {
    var d := e.derived;
    && e.original == item
    && BoxedTypeGetPath(item.selfTy) == Ok(d.target)
    && d.generics.params.Values() == [TryFromLifetimeParam(item.generics.Span())] + item.generics.params.Values()
    && d.generics.params.last.Some?
    && (forall i :: 0 <= i < |d.generics.params.inner| ==> d.generics.params.inner[i].1 == Comma(CallSite))
    && d.generics.ltToken == item.generics.ltToken && d.generics.gtToken == item.generics.gtToken
    && d.generics.whereClause.None?
    && d.whereClause == item.generics.whereClause
    && d.strLifetime == d.generics.params.Values()[0].lifetime.name
  }

  /** The whole transformation. Checks run in a fixed order and the first
      failure is the result: arguments, then parsing, then the trait, then
      the self type. */
  method Transform(args: TokenStream, input: ParseOutcome) returns (r: Result<Expansion>)
    ensures !args.IsEmpty() ==> r == Err(Diagnostic(args.Span(), NoArgumentsMessage))
    ensures args.IsEmpty() && input.ParseFailed? ==> r == Err(input.error)
    ensures args.IsEmpty() && input.Parsed? && RequireImplForFromStr(input.item).Err? ==>
              r == Err(RequireImplForFromStr(input.item).error)
    ensures args.IsEmpty() && input.Parsed? && RequireImplForFromStr(input.item).Ok?
              && BoxedTypeGetPath(input.item.selfTy).Err? ==>
              r == Err(BoxedTypeGetPath(input.item.selfTy).error)
    ensures r.Ok? <==> args.IsEmpty() && input.Parsed? && RequireImplForFromStr(input.item).Ok?
                       && BoxedTypeGetPath(input.item.selfTy).Ok?
    ensures r.Ok? ==> IsExpansionOf(input.item, r.value)
  {
    var _ :- ParseArgs(args);
    var item :- input.ToResult();
    var _ :- RequireImplForFromStr(item);
    var appPath :- BoxedTypeGetPath(item.selfTy);
    var tryFromGenerics := PrefixImplLifetime(item.generics);
    r := Ok(Expansion(item, TryFromImpl(tryFromGenerics, TryFromLifetimeName, appPath, item.generics.whereClause)));
  }
}
