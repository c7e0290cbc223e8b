/** What happens to each object of a creation batch. The geometry calls of
    the host are an oracle (`Native`); everything the core decides itself --
    which path, which branch, which exceptions are caught and which end the
    loop, which instance receives the parameters and the tag -- is here. */
module Creation {
  import opened Common
  import opened LyrebirdTypes
  import opened RevitDocument
  import opened Tagging
  import opened Parameters
  import opened Placement

  /** The host's native behaviour, given rather than defined: whether the
      native creation call for an object succeeds, the parameters a new
      element is born with, the placement points of a new adaptive instance
      and of the probe, the intersection test, whether a face is found for a
      face-based object, and the text conversions. */
  datatype Native = Native(
    creates: RevitObject -> bool,
    initialParams: RevitObject -> map<string, ParamValue>,
    placementPoints: RevitObject -> seq<Point>,
    probePoints: seq<Point>,
    touches: Touches,
    faceFound: RevitObject -> bool,
    parsers: Parsers)

  /** One object's outcome: a new element of a class (which then receives
      the object's parameters and tag), nothing new but the parameters and
      tag go to the instance carried over from an earlier object, nothing at
      all, or an uncaught exception that ends the loop. */
  datatype Attempt = Make(kind: ElementKind) | Keep | Skip | Stop

  /** Unhosted point-based families (FAMILY_HOSTING_BEHAVIOR 0): a failed or
      origin-less creation is caught and the previous instance is kept; the
      rotation requested by the FIRST object then fails on a missing
      instance, uncaught. */
  function UnhostedAttempt(obj: RevitObject, ro: RevitObject, native: Native, hasInstance: bool): (a: Attempt)
    ensures a.Make? <==> obj.origin.Some? && native.creates(obj)
    ensures a.Make? ==> a.kind == FamilyInstance
    ensures a == Stop <==> !(obj.origin.Some? && native.creates(obj)) && Rotates(ro) && !hasInstance
    ensures a != Skip
  {
    if obj.origin.Some? && native.creates(obj) then Make(FamilyInstance)
    else if Rotates(ro) && !hasInstance then Stop
    else Keep
  }

  /** The first object asks for a rotation: an orientation with Z = 0. */
  predicate Rotates(ro: RevitObject)
  {
    ro.orientation.Some? && ro.orientation.value.z == 0.0
  }

  /** Face-based families (FAMILY_HOSTING_BEHAVIOR 5): the origin and the
      orientation are read unguarded; without a face nothing is created and
      the previous instance is kept. */
  function FaceAttempt(obj: RevitObject, native: Native): (a: Attempt)
    ensures a.Make? <==> obj.origin.Some? && obj.orientation.Some? && native.faceFound(obj) && native.creates(obj)
    ensures a == Keep <==> obj.origin.Some? && obj.orientation.Some? && !native.faceFound(obj)
    ensures a != Skip && (a.Make? ==> a.kind == FamilyInstance)
  {
    if obj.origin.None? || obj.orientation.None? then Stop
    else if !native.faceFound(obj) then Keep
    else if native.creates(obj) then Make(FamilyInstance)
    else Stop
  }

  /** Hosted families with a host search: no host keeps the previous
      instance; a found host whose creation fails ends the loop. */
  function HostedAttempt(obj: RevitObject, host: Option<ElementId>, native: Native): (a: Attempt)
    ensures a.Make? <==> host.Some? && native.creates(obj)
    ensures a == Keep <==> host.None?
    ensures a != Skip && (a.Make? ==> a.kind == FamilyInstance)
  {
    if host.None? then Keep
    else if native.creates(obj) then Make(FamilyInstance)
    else Stop
  }

  /** The family batch of the curve path: which type was looked up for the
      first object (a wall, floor or roof type, or a family type). */
  datatype CurveBatch = WallBatch | FloorBatch | RoofBatch | FamilyBatch

  /** A curve segment as built from its control points: a curve, no curve
      (an unsupported type), or an index exception (too few points). */
  function SegmentCurve(c: LyrebirdCurve): (r: Option<bool>)
    ensures r.None? <==> (c.curveType == "Line" && |c.controlPoints| < 2) || (c.curveType == "Arc" && |c.controlPoints| < 3)
    ensures r == Some(false) <==> c.curveType != "Line" && c.curveType != "Arc"
  {
    if c.curveType == "Line" then (if |c.controlPoints| >= 2 then Some(true) else None)
    else if c.curveType == "Arc" then (if |c.controlPoints| >= 3 then Some(true) else None)
    else Some(false)
  }

  /** Every segment of a profile can be built without an index exception. */
  predicate ProfileBuildable(curves: seq<LyrebirdCurve>)
  {
    forall i :: 0 <= i < |curves| ==> SegmentCurve(curves[i]).Some?
  }

  /** The control points of all the curves, in order. */
  function AllPoints(curves: seq<LyrebirdCurve>): (r: seq<Point>)
    ensures r == [] <==> forall i :: 0 <= i < |curves| ==> curves[i].controlPoints == []
  {
    if curves == [] then []
    else
      var rest := AllPoints(curves[1..]);
      assert forall i :: 1 <= i < |curves| ==> curves[1..][i - 1] == curves[i];
      curves[0].controlPoints + rest
  }

  /** Whether the line-based family branch hands the creation call a usable
      curve: an unsupported curve type builds none, and a "Detail Items"
      type takes the curve as a line, so an arc becomes null there. Without
      one the call throws and the empty `catch` swallows it. */
  predicate LineFamilyCreates(lbc: LyrebirdCurve, typeCategory: string)
  {
    SegmentCurve(lbc) == Some(true) && !(typeCategory == "Detail Items" && lbc.curveType == "Arc")
  }

  /** One object of the curve path. Walls, floors and roofs are created
      through local variables (a failure assigns nothing); line-based
      families share the carried instance. `typeCategory` is the category
      of the family type found for the batch (`None` for a type without
      one); only the family batch reads it. */
  function CurveAttempt(obj: RevitObject, batch: CurveBatch, levels: seq<Level>, typeCategory: Option<string>,
                        native: Native): Attempt
  {
    if obj.curves.None? then Stop
    else
      var curves := obj.curves.value;
      if ShapeOf(curves) == SingleSegment then
        var lbc := curves[0];
        var cp := lbc.controlPoints;
        if obj.category == "Walls" then
          match SegmentCurve(lbc)
          case None => Stop
          case Some(built) =>
            if !built then Skip
            else if NearestLevel(levels, cp) == NoLevel then Stop
            else if batch == WallBatch && native.creates(obj) then Make(Wall)
            else Skip
        else if obj.category == "Structural Columns" then
          if batch == FamilyBatch && lbc.curveType == "Line" then
            if |cp| < 2 then Stop
            else if native.creates(obj) then Make(FamilyInstance)
            else Stop
          else Skip
        else if batch == FamilyBatch then
          match SegmentCurve(lbc)
          case None => Stop
          case Some(built) =>
            if NearestLevel(levels, cp) == LevelThrows || typeCategory.None? then Stop
            else if LineFamilyCreates(lbc, typeCategory.value) && native.creates(obj) then Make(FamilyInstance)
            else Keep
        else Skip
      else if obj.category == "Walls" then
        if AllPoints(curves) == [] || levels == [] then Stop
        else if batch == WallBatch && native.creates(obj) then Make(Wall)
        else Stop
      else if obj.category == "Floors" || obj.category == "Roofs" then
        if curves == [] then Stop
        else
          var cp := curves[0].controlPoints;
          var level := NearestLevel(levels, cp);
          if !level.LevelAt? || cp == [] || !ProfileBuildable(curves) then Stop
          else if obj.category == "Floors" then
            if batch == FloorBatch && native.creates(obj) then Make(Floor) else Stop
          else if batch == RoofBatch && native.creates(obj) then Make(FootPrintRoof)
          else if cp[0].z != levels[level.index].elevation then Stop
          else Skip
      else Skip
  }

  /** The classes the curve path can create, and from which batch. */
  lemma CurveAttemptKinds(obj: RevitObject, batch: CurveBatch, levels: seq<Level>, typeCategory: Option<string>, native: Native)
    ensures var a := CurveAttempt(obj, batch, levels, typeCategory, native);
      && (a.Make? ==> native.creates(obj) && obj.curves.Some?)
      && (a == Make(Wall) ==> batch == WallBatch && obj.category == "Walls")
      && (a == Make(Floor) ==> batch == FloorBatch && obj.category == "Floors" && |obj.curves.value| != 1)
      && (a == Make(FootPrintRoof) ==> batch == RoofBatch && obj.category == "Roofs" && |obj.curves.value| != 1)
      && (a == Make(FamilyInstance) ==> batch == FamilyBatch && |obj.curves.value| == 1)
      && (a.Make? ==> a.kind in {Wall, Floor, FootPrintRoof, FamilyInstance})
      && (a == Keep ==> batch == FamilyBatch && |obj.curves.value| == 1 && obj.category != "Walls" &&
                        obj.category != "Structural Columns")
  {
  }

  /** A single-segment family object of the family batch: its instance is
      created exactly when the segment builds a curve the call can take and
      the native call succeeds; a segment with too few points, a level
      search that throws or a type without a category ends the loop; any
      other failure leaves the carried instance to be finished again. */
  lemma LineFamilyAttempt(obj: RevitObject, levels: seq<Level>, typeCategory: Option<string>, native: Native)
    requires obj.curves.Some? && |obj.curves.value| == 1
    requires obj.category != "Walls" && obj.category != "Structural Columns"
    ensures var a := CurveAttempt(obj, FamilyBatch, levels, typeCategory, native);
      var lbc := obj.curves.value[0];
      && (a == Stop <==> SegmentCurve(lbc).None? || NearestLevel(levels, lbc.controlPoints) == LevelThrows || typeCategory.None?)
      && (a.Make? <==> a != Stop && typeCategory.Some? && LineFamilyCreates(lbc, typeCategory.value) && native.creates(obj))
      && (a.Make? ==> a.kind == FamilyInstance)
      && (a == Keep <==> a != Stop && typeCategory.Some? && !(LineFamilyCreates(lbc, typeCategory.value) && native.creates(obj)))
  {
  }

  /** A roof profile whose creation fails is skipped only when its first
      point lies on the chosen level; otherwise the offset is written to the
      missing roof and the loop ends. */
  lemma FailedRoofStops(obj: RevitObject, levels: seq<Level>, typeCategory: Option<string>, native: Native)
    requires obj.category == "Roofs" && obj.curves.Some? && |obj.curves.value| >= 2
    requires !native.creates(obj)
    ensures var a := CurveAttempt(obj, RoofBatch, levels, typeCategory, native);
      var cp := obj.curves.value[0].controlPoints;
      a != Skip ==> a == Stop
    ensures var a := CurveAttempt(obj, RoofBatch, levels, typeCategory, native);
      var cp := obj.curves.value[0].controlPoints;
      a == Skip <==>
        && cp != [] && ProfileBuildable(obj.curves.value)
        && NearestLevel(levels, cp).LevelAt?
        && cp[0].z == levels[NearestLevel(levels, cp).index].elevation
  {
  }

  // ---------------------------------------------------------------------
  // Finishing an object: parameters, then the tag

  /** The elements after `SetParameters` on the target (a missing target
      makes every assignment throw, each caught). */
  function WithParams(es: seq<Element>, target: Option<ElementId>, rps: seq<RevitParameter>, p: Parsers): seq<Element>
  {
    match target
    case None => es
    case Some(id) =>
      match Find(es, id)
      case None => es
      case Some(e) => ReplaceById(es, e.(params := ApplyAll(e.params, rps, p)))
  }

  /** The elements after `SetParameters` and then `AssignGuid` on the target. */
  function Finished(es: seq<Element>, target: Option<ElementId>, rps: seq<RevitParameter>, p: Parsers, g: Guid): seq<Element>
  {
    Tagged(WithParams(es, target, rps, p), target, g)
  }

  /** Finishing changes only the target: it keeps every id and class, gives
      the target the converted parameters and the tag, and leaves every
      other element as it was. */
  lemma FinishedShape(es: seq<Element>, target: Option<ElementId>, rps: seq<RevitParameter>, p: Parsers, g: Guid)
    requires UniqueIds(es)
    ensures var r := Finished(es, target, rps, p, g);
      && |r| == |es|
      && (forall k :: 0 <= k < |es| ==> r[k].id == es[k].id && r[k].kind == es[k].kind && r[k].points == es[k].points)
      && (forall k :: 0 <= k < |es| && Some(es[k].id) != target ==> r[k] == es[k])
      && (forall k :: 0 <= k < |es| && Some(es[k].id) == target ==>
            r[k].entity == InstanceId(g.text) && r[k].params == ApplyAll(es[k].params, rps, p))
  {
    if target.Some? && Find(es, target.value).Some? {
      var t := target.value;
      var e := Find(es, t).value;
      FindAtTarget(es, t);
      var e1 := e.(params := ApplyAll(e.params, rps, p));
      var w := ReplaceById(es, e1);
      assert WithParams(es, target, rps, p) == w;
      ReplaceKeepsUnique(es, e1);
      var i :| 0 <= i < |es| && es[i] == e;
      assert w[i] in w;
      FindAtTarget(w, t);
      assert Find(w, t) == Some(e1);
      var e2 := e1.(entity := InstanceId(g.text));
      assert Finished(es, target, rps, p, g) == ReplaceById(w, e2);
    } else if target.Some? {
      forall k | 0 <= k < |es| ensures Some(es[k].id) != target {
        assert es[k] in es;
      }
    }
  }

  /** With unique ids, every element carrying the id is the one a lookup of
      that id finds. */
  lemma FindAtTarget(es: seq<Element>, id: ElementId)
    requires UniqueIds(es) && Find(es, id).Some?
    ensures forall k :: 0 <= k < |es| && es[k].id == id ==> es[k] == Find(es, id).value
  {
    forall k | 0 <= k < |es| && es[k].id == id ensures es[k] == Find(es, id).value {
      UniqueFind(es, k);
    }
  }

  /** Writing back an element keeps the ids, so they stay unique. */
  lemma ReplaceKeepsUnique(es: seq<Element>, e: Element)
    requires UniqueIds(es)
    ensures UniqueIds(ReplaceById(es, e))
  {
    var w := ReplaceById(es, e);
    forall a, b | 0 <= a < b < |w| ensures w[a].id != w[b].id {
      assert w[a].id == es[a].id && w[b].id == es[b].id;
    }
  }

  /** An element appended with a fresh id is what a lookup of that id finds. */
  lemma {:induction false} FindFresh(es: seq<Element>, e: Element)
    requires forall k :: 0 <= k < |es| ==> es[k].id != e.id
    ensures Find(es + [e], e.id) == Some(e)
  {
    if es == [] {
      assert es + [e] == [e];
    } else {
      assert (es + [e])[1..] == es[1..] + [e];
      FindFresh(es[1..], e);
    }
  }

  /** Finishing the element just appended (with a fresh id) changes only that
      last element: it gets the converted parameters and the tag. */
  lemma FinishedFresh(es: seq<Element>, e: Element, rps: seq<RevitParameter>, p: Parsers, g: Guid)
    requires forall k :: 0 <= k < |es| ==> es[k].id != e.id
    ensures Finished(es + [e], Some(e.id), rps, p, g) ==
            es + [e.(params := ApplyAll(e.params, rps, p), entity := InstanceId(g.text))]
  {
    var e1 := e.(params := ApplyAll(e.params, rps, p));
    var e2 := e1.(entity := InstanceId(g.text));
    FindFresh(es, e);
    ReplaceLast(es, e, e1);
    FindFresh(es, e1);
    ReplaceLast(es, e1, e2);
  }

  /** Writing back the last element, when no other element shares its id,
      replaces just that element. */
  lemma ReplaceLast(es: seq<Element>, x: Element, y: Element)
    requires forall k :: 0 <= k < |es| ==> es[k].id != x.id
    requires y.id == x.id
    ensures ReplaceById(es + [x], y) == es + [y]
  {
    var w := ReplaceById(es + [x], y);
    forall k | 0 <= k < |w| ensures w[k] == (es + [y])[k] {
      if k < |es| {
        assert (es + [x])[k] == es[k];
      }
    }
  }
}
