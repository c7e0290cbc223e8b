/** The placement decisions of element creation: which creation path a batch
    takes, the level chosen for a set of points, the family type looked up by
    name, the host found by the probe, and where adaptive points end up. */
module Placement {
  import opened Common
  import opened LyrebirdTypes
  import opened RevitDocument

  /** The creation path, decided by the first object of a batch alone. */
  datatype CreationPath = PointBased | Adaptive | CurveBased | NoCreation

  function PathOf(ro: RevitObject): (path: CreationPath)
    ensures path == PointBased <==> ro.origin.Some?
    ensures path == Adaptive <==> ro.origin.None? && ro.adaptivePoints.Some? && |ro.adaptivePoints.value| > 0
    ensures path == CurveBased <==>
      && ro.origin.None? && !(ro.adaptivePoints.Some? && |ro.adaptivePoints.value| > 0)
      && ro.curves.Some? && |ro.curves.value| > 0
  {
    if ro.origin.Some? then PointBased
    else if ro.adaptivePoints.Some? && |ro.adaptivePoints.value| > 0 then Adaptive
    else if ro.curves.Some? && |ro.curves.value| > 0 then CurveBased
    else NoCreation
  }

  /** On the curve path each object is a single segment when it has exactly
      one curve and a closed profile otherwise (an empty list included). */
  datatype CurveShape = SingleSegment | Profile

  function ShapeOf(curves: seq<LyrebirdCurve>): (shape: CurveShape)
    ensures shape == SingleSegment <==> |curves| == 1
  {
    if |curves| == 1 then SingleSegment else Profile
  }

  // ---------------------------------------------------------------------
  // Level search

  function Distance(l: Level, z: real): real
  {
    Abs(l.elevation - z)
  }

  /** The level search over `levels[..n]`: the first level, replaced only
      by a strictly closer one. */
  function FirstNearest(levels: seq<Level>, n: nat, z: real): (k: nat)
    requires 0 < n <= |levels|
    ensures k < n
  {
    if n == 1 then 0
    else
      var best := FirstNearest(levels, n - 1, z);
      if Distance(levels[n - 1], z) < Distance(levels[best], z) then n - 1 else best
  }

  /** The search finds the first of the levels closest to `z`: none is
      closer, and every earlier one is strictly farther. */
  lemma {:induction false} FirstNearestIsFirstMin(levels: seq<Level>, n: nat, z: real)
    requires 0 < n <= |levels|
    ensures forall j :: 0 <= j < n ==> Distance(levels[FirstNearest(levels, n, z)], z) <= Distance(levels[j], z)
    ensures forall j :: 0 <= j < FirstNearest(levels, n, z) ==>
              Distance(levels[j], z) > Distance(levels[FirstNearest(levels, n, z)], z)
  {
    if n > 1 {
      FirstNearestIsFirstMin(levels, n - 1, z);
    }
  }

  /** The outcome of the level search: no level at all, the index of the
      chosen level, or an exception (the first point is read only once a
      second level has to be compared). */
  datatype LevelChoice = NoLevel | LevelAt(index: nat) | LevelThrows

  function NearestLevel(levels: seq<Level>, points: seq<Point>): (r: LevelChoice)
    ensures r == NoLevel <==> levels == []
    ensures r == LevelThrows <==> |levels| >= 2 && points == []
    ensures r.LevelAt? ==> r.index < |levels|
  {
    if levels == [] then NoLevel
    else if |levels| == 1 then LevelAt(0)
    else if points == [] then LevelThrows
    else LevelAt(FirstNearest(levels, |levels|, points[0].z))
  }

  /** A chosen level is, for a set of points, the first level closest to the
      first point's elevation. */
  lemma NearestLevelIsFirstMin(levels: seq<Level>, points: seq<Point>)
    ensures var r := NearestLevel(levels, points);
      r.LevelAt? && points != [] ==>
        && (forall j :: 0 <= j < |levels| ==> Distance(levels[r.index], points[0].z) <= Distance(levels[j], points[0].z))
        && (forall j :: 0 <= j < r.index ==> Distance(levels[j], points[0].z) > Distance(levels[r.index], points[0].z))
  {
    if |levels| >= 1 && points != [] {
      FirstNearestIsFirstMin(levels, |levels|, points[0].z);
    }
  }

  /** `GetLevel`: keeps the first level, replaces it only by a strictly
      closer one. */
  method GetLevel(levels: seq<Level>, points: seq<Point>) returns (r: LevelChoice)
    ensures r == NearestLevel(levels, points)
  {
    var lvl: Option<nat> := None;
    var i := 0;
    while i < |levels|
      invariant 0 <= i <= |levels|
      invariant i == 0 <==> lvl.None?
      invariant i >= 1 ==> lvl.Some? && lvl.value < i
      invariant i == 1 ==> lvl == Some(0)
      invariant i >= 2 ==> points != [] && lvl == Some(FirstNearest(levels, i, points[0].z))
    {
      if lvl.None? {
        lvl := Some(i);
      } else {
        if points == [] {
          return LevelThrows;
        }
        var z := points[0].z;
        if Distance(levels[i], z) < Distance(levels[lvl.value], z) {
          lvl := Some(i);
        }
      }
      i := i + 1;
    }
    r := if lvl.None? then NoLevel else LevelAt(lvl.value);
  }

  // ---------------------------------------------------------------------
  // Family type search

  predicate SymbolAt(families: seq<Family>, familyName: string, typeName: string, i: nat, j: nat)
  {
    i < |families| && j < |families[i].symbols| &&
    families[i].name == familyName && families[i].symbols[j] == typeName
  }

  /** `FindFamilySymbol`: the first type named `typeName` in the first family
      named `familyName` that has one (a same-named family without it is
      passed over), as (family index, type index). */
  method FindFamilySymbol(families: seq<Family>, familyName: string, typeName: string) returns (r: Option<(nat, nat)>)
    ensures r.Some? ==> SymbolAt(families, familyName, typeName, r.value.0, r.value.1)
    ensures r.Some? ==> forall i, j :: 0 <= i < r.value.0 && 0 <= j < |families[i].symbols| ==>
                          !SymbolAt(families, familyName, typeName, i, j)
    ensures r.Some? ==> forall j :: 0 <= j < r.value.1 ==> !SymbolAt(families, familyName, typeName, r.value.0, j)
    ensures r.None? <==> forall i, j :: 0 <= i < |families| && 0 <= j < |families[i].symbols| ==>
                           !SymbolAt(families, familyName, typeName, i, j)
    ensures r.Some? <==> SymbolFamily(families, |families|, familyName, typeName).Some?
    ensures r.Some? ==> r.value.0 == SymbolFamily(families, |families|, familyName, typeName).value
  {
    var i := 0;
    while i < |families|
      invariant 0 <= i <= |families|
      invariant forall i', j :: 0 <= i' < i && 0 <= j < |families[i'].symbols| ==>
                  !SymbolAt(families, familyName, typeName, i', j)
    {
      if families[i].name == familyName {
        var j := 0;
        while j < |families[i].symbols|
          invariant 0 <= j <= |families[i].symbols|
          invariant forall j' :: 0 <= j' < j ==> !SymbolAt(families, familyName, typeName, i, j')
        {
          if families[i].symbols[j] == typeName {
            assert SymbolAt(families, familyName, typeName, i, j);
            HasTypeAt(families, familyName, typeName, i);
            return Some((i, j));
          }
          j := j + 1;
        }
      }
      i := i + 1;
    }
    HasTypeAt(families, familyName, typeName, |families|);
    return None;
  }

  /** The family named `familyName` has a type named `typeName`. */
  predicate HasType(f: Family, familyName: string, typeName: string)
  {
    f.name == familyName && typeName in f.symbols
  }

  /** The index of the first of `families[..n]` that is named `familyName`
      and has a type named `typeName`: the family `FindFamilySymbol` finds
      the type in. */
  function SymbolFamily(families: seq<Family>, n: nat, familyName: string, typeName: string): (r: Option<nat>)
    requires n <= |families|
    ensures r.Some? ==> r.value < n && HasType(families[r.value], familyName, typeName)
    ensures r.Some? ==> forall i :: 0 <= i < r.value ==> !HasType(families[i], familyName, typeName)
    ensures r.None? ==> forall i :: 0 <= i < n ==> !HasType(families[i], familyName, typeName)
  {
    if n == 0 then None
    else
      var r := SymbolFamily(families, n - 1, familyName, typeName);
      if r.Some? then r
      else if HasType(families[n - 1], familyName, typeName) then Some(n - 1)
      else None
  }

  /** The nested search's facts about the families before `i` (and, for
      `i < |families|`, a type of family `i`) are `SymbolFamily`'s. */
  lemma HasTypeAt(families: seq<Family>, familyName: string, typeName: string, i: nat)
    requires i <= |families|
    requires forall i', j :: 0 <= i' < i && 0 <= j < |families[i'].symbols| ==>
               !SymbolAt(families, familyName, typeName, i', j)
    ensures forall i' :: 0 <= i' < i ==> !HasType(families[i'], familyName, typeName)
  {
    forall i' | 0 <= i' < i ensures !HasType(families[i'], familyName, typeName) {
      if HasType(families[i'], familyName, typeName) {
        var j :| 0 <= j < |families[i'].symbols| && families[i'].symbols[j] == typeName;
        assert SymbolAt(families, familyName, typeName, i', j);
      }
    }
  }

  // ---------------------------------------------------------------------
  // Host search

  /** The element classes searched for each FAMILY_HOSTING_BEHAVIOR value:
      1 walls, 2 floors, 3 ceilings, 4 every roof (`RoofBase`), otherwise
      none. */
  function HostKinds(hostType: int): (kinds: set<ElementKind>)
    ensures FamilyInstance !in kinds
    ensures kinds == {} <==> hostType < 1 || hostType > 4
  {
    if hostType == 1 then {Wall}
    else if hostType == 2 then {Floor}
    else if hostType == 3 then {Ceiling}
    else if hostType == 4 then {FootPrintRoof, ExtrusionRoof}
    else {}
  }

  /** Where the probe is moved: 0.1 above the point for wall and ceiling
      hosts (1 and 3), 0.1 below it otherwise. */
  function ProbePoint(location: Point, hostType: int): (p: Point)
    ensures p.x == location.x && p.y == location.y
    ensures hostType == 1 || hostType == 3 ==> p.z == location.z + 0.1
    ensures hostType != 1 && hostType != 3 ==> p.z == location.z - 0.1
  {
    if hostType == 1 || hostType == 3 then Point(location.x, location.y, location.z + 0.1)
    else Point(location.x, location.y, location.z - 0.1)
  }

  /** The geometric intersection test between the probe (at its placement
      points) and an element; the host's native geometry is given. */
  type Touches = (seq<Point>, Element) -> bool

  predicate IsHost(e: Element, kinds: set<ElementKind>, probe: seq<Point>, touches: Touches)
  {
    e.kind in kinds && touches(probe, e)
  }

  /** The position of the last intersecting element of the searched
      classes, if any. */
  function LastHostAt(es: seq<Element>, kinds: set<ElementKind>, probe: seq<Point>, touches: Touches): (r: Option<nat>)
    ensures r.None? <==> forall k :: 0 <= k < |es| ==> !IsHost(es[k], kinds, probe, touches)
    ensures r.Some? ==> r.value < |es| && IsHost(es[r.value], kinds, probe, touches)
    ensures r.Some? ==> forall j :: r.value < j < |es| ==> !IsHost(es[j], kinds, probe, touches)
  {
    if es == [] then None
    else if IsHost(es[|es| - 1], kinds, probe, touches) then Some(|es| - 1)
    else
      var r := LastHostAt(es[..|es| - 1], kinds, probe, touches);
      assert forall k :: 0 <= k < |es| - 1 ==> es[..|es| - 1][k] == es[k];
      r
  }

  /** The host the collector loop ends with: the id of the last
      intersecting element of the searched classes. */
  function LastHost(es: seq<Element>, kinds: set<ElementKind>, probe: seq<Point>, touches: Touches): Option<ElementId>
  {
    match LastHostAt(es, kinds, probe, touches)
    case None => None
    case Some(k) => Some(es[k].id)
  }

  /** The host search proper: every element is visited and the last match
      is kept. */
  method SearchHost(es: seq<Element>, kinds: set<ElementKind>, probe: seq<Point>, touches: Touches) returns (host: Option<ElementId>)
    ensures host == LastHost(es, kinds, probe, touches)
  {
    host := None;
    var i := 0;
    while i < |es|
      invariant 0 <= i <= |es|
      invariant host == LastHost(es[..i], kinds, probe, touches)
    {
      assert es[..i + 1][..i] == es[..i];
      assert forall k :: 0 <= k < i ==> es[..i + 1][k] == es[..i][k];
      if es[i].kind in kinds && touches(probe, es[i]) {
        host := Some(es[i].id);
      }
      i := i + 1;
    }
    assert es[..i] == es;
  }

  // ---------------------------------------------------------------------
  // Adaptive points

  /** The points `current` with point `k` replaced by `targets[k]` wherever
      both exist. */
  function Moved(current: seq<Point>, targets: seq<Point>): seq<Point>
  {
    seq(|current|, k requires 0 <= k < |current| => if k < |targets| then targets[k] else current[k])
  }

  /** The placement points after moving point `k` to `targets[k]` for every
      `k` the instance has; targets beyond its points are skipped. */
  method PlaceAdaptivePoints(current: seq<Point>, targets: seq<Point>) returns (placed: seq<Point>)
    ensures |placed| == |current|
    ensures forall k :: 0 <= k < |current| ==> placed[k] == if k < |targets| then targets[k] else current[k]
    ensures placed == Moved(current, targets)
  {
    placed := current;
    var ptNum := 0;
    while ptNum < |targets|
      invariant 0 <= ptNum <= |targets|
      invariant |placed| == |current|
      invariant forall k :: 0 <= k < |current| ==> placed[k] == if k < ptNum then targets[k] else current[k]
    {
      if ptNum < |placed| {
        placed := placed[ptNum := targets[ptNum]];
      }
      ptNum := ptNum + 1;
    }
  }
}
