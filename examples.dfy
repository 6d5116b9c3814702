/** Worked expansions, checked against the contract of `Transform` alone. */
module Examples {
  import opened Diagnostics
  import opened Syntax
  import opened Rendering
  import opened GetPath
  import opened TryFromViaFromStr

  const NoArgs := TokenStream([])

  function SimplePath(name: string, span: Span): Path {
    Path(false, [PathSegment(name, "")], span)
  }

  function NoGenerics(): Generics {
    Generics(None, Punctuated([], None), None, None)
  }

  /** `impl <trait> for <selfTy> {}` with the given generics. */
  function Impl(generics: Generics, trait_: Option<TraitRef>, selfTy: Type): ItemImpl {
    ItemImpl([], Site(0), generics, trait_, Box(selfTy), [])
  }

  /** `impl std::str::FromStr for MyType {}` expands to the impl and
      `impl<'tryfrom_str_lifetime> TryFrom<&'tryfrom_str_lifetime str> for MyType`. */
  method BasicExpansion() {
    var fromStr := Path(false, FullSegments(), Site(1));
    var myType := SimplePath("MyType", Site(3));
    var item := Impl(NoGenerics(), Some(TraitRef(None, fromStr, Site(2))), PathType(TypePath(None, myType)));
    ExpectedRenderings(Site(1));
    var r := Transform(NoArgs, Parsed(item));
    assert r.Ok?;
    assert r.value.original == item;
    assert r.value.derived.target == myType;
    assert r.value.derived.generics.params.Values() == [TryFromLifetimeParam(CallSite)];
    assert r.value.derived.whereClause.None?;
  }

  /** `impl<T> FromStr for Wrapper<T> where T: FromStr {}`: the derived
      generics are `<'tryfrom_str_lifetime, T>` and the where-clause is
      carried over. */
  method GenericExpansion() {
    var t := TypeParam([], "T", [], None);
    var whereT := WhereClause(Site(5), ["T : FromStr"]);
    var generics := Generics(Some(Site(1)), Punctuated([], Some(t)), Some(Site(2)), Some(whereT));
    var wrapper := Path(false, [PathSegment("Wrapper", "< T >")], Site(4));
    var item := Impl(generics, Some(TraitRef(None, SimplePath("FromStr", Site(3)), Site(6))),
                     PathType(TypePath(None, wrapper)));
    ExpectedRenderings(Site(3));
    var r := Transform(NoArgs, Parsed(item));
    assert r.Ok?;
    assert r.value.derived.generics.params.Values() == [TryFromLifetimeParam(Site(1)), t];
    assert r.value.derived.whereClause == Some(whereT);
    assert r.value.derived.generics.whereClause.None?;
    assert r.value.derived.target == wrapper;
  }

  /** An inherent impl is refused at the impl's span. */
  method InherentImpl() {
    var item := Impl(NoGenerics(), None, PathType(TypePath(None, SimplePath("MyType", Site(3)))));
    var r := Transform(NoArgs, Parsed(item));
    assert r == Err(Diagnostic(Site(0), "non-trait impl unsupported"));
  }

  /** `impl Display for &'a str {}`: the trait is checked before the self
      type, so the trait mismatch is reported, at the trait path. */
  method OtherTraitAndReferenceType() {
    var display := SimplePath("Display", Site(7));
    var item := Impl(NoGenerics(), Some(TraitRef(None, display, Site(2))), OtherType("& 'a str", Site(8)));
    assert RenderPath(display) == "Display" by {
      RenderOnePlainSegment(display.segments);
    }
    assert RequireImplForFromStr(item) == Err(Diagnostic(Site(7), MismatchMessage("Display"))) by {
      SpellingIsStructural(display);
    }
    var r := Transform(NoArgs, Parsed(item));
    assert r == Err(Diagnostic(Site(7), MismatchMessage("Display")));
  }

  /** Any argument is refused, whatever the item is. */
  method ArgumentsRefused(input: ParseOutcome) {
    var r := Transform(TokenStream([Token("foo", Site(9))]), input);
    assert r == Err(Diagnostic(Site(9), NoArgumentsMessage));
  }
}
