/** The shapes of the two catalogue queries: the family list (loadable
    families plus five system families, sorted by family name) and the
    parameter list (type parameters sorted by name, then instance parameters
    sorted by name). */
module Queries {
  import opened Common
  import opened LyrebirdTypes
  import opened RevitDocument
  import opened Ordering

  /** The system families the query appends to the loadable ones. */
  function SystemFamilies(): seq<RevitObject>
  {
    [FamilyRef("Walls", "Basic Wall"), FamilyRef("Walls", "Curtain Wall"), FamilyRef("Walls", "Stacked Wall"),
     FamilyRef("Floors", "Floor"), FamilyRef("Roofs", "Roof")]
  }

  function FamilyNameOf(o: RevitObject): string
  {
    o.familyName
  }

  predicate AllCategorised(fs: seq<Family>)
  {
    forall i :: 0 <= i < |fs| ==> fs[i].category.Some?
  }

  /** One (category, family name) entry per loadable family, in collector order. */
  function FamilyRefs(fs: seq<Family>): (r: seq<RevitObject>)
    requires AllCategorised(fs)
    ensures |r| == |fs|
    ensures forall i :: 0 <= i < |fs| ==> r[i] == FamilyRef(fs[i].category.value, fs[i].name)
  {
    seq(|fs|, i requires 0 <= i < |fs| => FamilyRef(fs[i].category.value, fs[i].name))
  }

  /** The list the family query leaves in its cache. `None` stands for a
      document that cannot be read; a family without a category throws in
      the loop. Either failure leaves the freshly emptied list. */
  function FamilyList(families: Option<seq<Family>>): seq<RevitObject>
  {
    match families
    case None => []
    case Some(fs) =>
      if AllCategorised(fs) then SortBy(FamilyRefs(fs) + SystemFamilies(), FamilyNameOf) else []
  }

  /** A successful family query lists every loadable family and the five
      system families, each once, sorted by family name; a failed one is
      empty. */
  lemma FamilyListShape(families: Option<seq<Family>>)
    ensures families.Some? && AllCategorised(families.value) ==>
      var r := FamilyList(families);
      && |r| == |families.value| + 5
      && SortedBy(r, FamilyNameOf)
      && multiset(r) == multiset(FamilyRefs(families.value) + SystemFamilies())
      && (forall s :: s in SystemFamilies() ==> s in r)
    ensures !(families.Some? && AllCategorised(families.value)) ==> FamilyList(families) == []
  {
    if families.Some? && AllCategorised(families.value) {
      var all := FamilyRefs(families.value) + SystemFamilies();
      var r := FamilyList(families);
      forall s | s in SystemFamilies() ensures s in r {
        assert s in all;
        assert s in multiset(all);
        assert s in multiset(r);
      }
    }
  }

  /** A host parameter as the query reads it: definition name and storage kind. */
  datatype ParameterInfo = ParameterInfo(name: string, storageType: string)

  function InfoName(p: ParameterInfo): string
  {
    p.name
  }

  /** One parameter description per host parameter, with the given `IsType`
      flag (the description's value is left empty). */
  function Describe(ps: seq<ParameterInfo>, isType: bool): (r: seq<RevitParameter>)
    ensures |r| == |ps|
    ensures forall i :: 0 <= i < |ps| ==> r[i] == RevitParameter(ps[i].name, ps[i].storageType, "", isType)
  {
    seq(|ps|, i requires 0 <= i < |ps| => RevitParameter(ps[i].name, ps[i].storageType, "", isType))
  }

  function DescribedName(p: RevitParameter): string
  {
    p.parameterName
  }

  /** The parameter query's result for one family type (describing before
      sorting gives the same list, since a description keeps the name). */
  function ParameterList(typeParams: seq<ParameterInfo>, instanceParams: seq<ParameterInfo>): seq<RevitParameter>
  {
    SortBy(Describe(typeParams, true), DescribedName) + SortBy(Describe(instanceParams, false), DescribedName)
  }

  /** Type parameters come first, flagged `IsType`, sorted by name; then the
      instance parameters, not flagged, sorted by name; each half holds
      exactly the parameters it was built from. */
  lemma ParameterListShape(typeParams: seq<ParameterInfo>, instanceParams: seq<ParameterInfo>)
    ensures var r := ParameterList(typeParams, instanceParams);
      && |r| == |typeParams| + |instanceParams|
      && (forall i :: 0 <= i < |typeParams| ==> r[i].isType)
      && (forall i :: |typeParams| <= i < |r| ==> !r[i].isType)
      && SortedBy(r[..|typeParams|], DescribedName)
      && SortedBy(r[|typeParams|..], DescribedName)
      && multiset(r[..|typeParams|]) == multiset(Describe(typeParams, true))
      && multiset(r[|typeParams|..]) == multiset(Describe(instanceParams, false))
  {
    var st := SortBy(Describe(typeParams, true), DescribedName);
    var si := SortBy(Describe(instanceParams, false), DescribedName);
    var r := ParameterList(typeParams, instanceParams);
    assert r[..|typeParams|] == st;
    assert r[|typeParams|..] == si;
    forall i | 0 <= i < |typeParams| ensures r[i].isType {
      assert st[i] in multiset(Describe(typeParams, true));
    }
    forall i | |typeParams| <= i < |r| ensures !r[i].isType {
      assert si[i - |typeParams|] in multiset(Describe(instanceParams, false));
    }
  }
}
