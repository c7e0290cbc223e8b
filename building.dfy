/** The creation loops of `CreateObjects` that work on the document alone:
    finishing an object (parameters, then tag), one step of a loop, and the
    unhosted, adaptive and curve-based paths. The hosted path also moves the
    service's probe and lives with the service. */
module Building {
  import opened Common
  import opened LyrebirdTypes
  import opened RevitDocument
  import opened Tagging
  import opened Parameters
  import opened Placement
  import opened Creation

  /** The element a finished object becomes: its initial parameters with the
      object's assignments applied, tagged with the batch GUID. */
  function Expected(id: ElementId, kind: ElementKind, obj: RevitObject, pts: seq<Point>, g: Guid, native: Native): Element
  {
    Element(id, kind, InstanceId(g.text), ApplyAll(native.initialParams(obj), obj.parameters, native.parsers), pts)
  }

  /** An element created during the batch: a fresh id, one of the classes the
      path creates, and the batch tag -- unless it is the probe or (`bare`)
      an adaptive instance the loop ended on before tagging it. */
  predicate Fresh(e: Element, n0: nat, g: Guid, probe: Option<ElementId>, bare: bool, kinds: set<ElementKind>)
  {
    && e.id >= n0
    && e.kind in kinds
    && (e.entity == InstanceId(g.text) || Some(e.id) == probe || (bare && e.entity == NoEntity))
  }

  /** The loop invariant of every creation path, over the elements `es`
      grown from `e0`: old elements keep their places and, except the probe,
      their contents; every later element is fresh, and only the last one
      can be bare. */
  ghost predicate Grown(es: seq<Element>, e0: seq<Element>, n0: nat, g: Guid, probe: Option<ElementId>,
                        bareLast: bool, kinds: set<ElementKind>)
  {
    && |e0| <= |es|
    && (forall k :: 0 <= k < |e0| ==> es[k].id == e0[k].id && (es[k] == e0[k] || Some(e0[k].id) == probe))
    && (forall k :: |e0| <= k < |es| ==> Fresh(es[k], n0, g, probe, bareLast && k == |es| - 1, kinds))
  }

  /** What a creation call leaves, stated on membership: every old element
      except the old probe is still there unchanged, and every other element
      is the old probe or fresh. */
  ghost predicate Outcome(es: seq<Element>, e0: seq<Element>, n0: nat, g: Guid,
                          probe0: Option<ElementId>, probe: Option<ElementId>, bare: bool, kinds: set<ElementKind>)
  {
    && (forall e :: e in e0 && Some(e.id) != probe0 ==> e in es)
    && (forall e :: e in es ==> e in e0 || Some(e.id) == probe0 || Fresh(e, n0, g, probe, bare, kinds))
  }

  /** Finishing an object on a fresh instance that is not the probe keeps
      the invariant. */
  lemma GrownFinish(es: seq<Element>, e0: seq<Element>, n0: nat, g: Guid, probe: Option<ElementId>, kinds: set<ElementKind>,
                    target: Option<ElementId>, rps: seq<RevitParameter>, p: Parsers)
    requires Grown(es, e0, n0, g, probe, false, kinds) && UniqueIds(es)
    requires forall k :: 0 <= k < |e0| ==> e0[k].id < n0
    requires target.Some? ==> target.value >= n0 && Some(target.value) != probe
    ensures Grown(Finished(es, target, rps, p, g), e0, n0, g, probe, false, kinds)
  {
    FinishedShape(es, target, rps, p, g);
  }

  lemma GrownAppend(es: seq<Element>, e0: seq<Element>, n0: nat, g: Guid, probe: Option<ElementId>, kinds: set<ElementKind>,
                    e: Element, bare: bool)
    requires Grown(es, e0, n0, g, probe, false, kinds)
    requires Fresh(e, n0, g, probe, bare, kinds)
    ensures Grown(es + [e], e0, n0, g, probe, bare, kinds)
  {
  }

  /** The invariant, restated on membership once the loop is over. */
  lemma GrownOutcome(es: seq<Element>, e0: seq<Element>, n0: nat, g: Guid, probe: Option<ElementId>, bare: bool,
                     kinds: set<ElementKind>, probe0: Option<ElementId>)
    requires Grown(es, e0, n0, g, probe, bare, kinds)
    requires probe0.Some? ==> probe == probe0
    requires probe0.None? && probe.Some? ==> probe.value >= n0
    requires forall k :: 0 <= k < |e0| ==> e0[k].id < n0
    ensures Outcome(es, e0, n0, g, probe0, probe, bare, kinds)
  {
    forall e | e in e0 && Some(e.id) != probe0 ensures e in es {
      var k :| 0 <= k < |e0| && e0[k] == e;
      assert e0[k].id < n0;
      assert es[k] == e;
    }
    forall e | e in es ensures e in e0 || Some(e.id) == probe0 || Fresh(e, n0, g, probe, bare, kinds) {
      var k :| 0 <= k < |es| && es[k] == e;
      if k < |e0| {
        assert es[k] == e0[k] || Some(e0[k].id) == probe;
      } else {
        assert Fresh(es[k], n0, g, probe, bare && k == |es| - 1, kinds);
      }
    }
  }

  /** Every id of `es` is below `n`. */
  ghost predicate IdsBelow(es: seq<Element>, n: nat)
  {
    forall k :: 0 <= k < |es| ==> es[k].id < n
  }

  lemma IdsBelowNext(doc: Document)
    requires doc.Valid()
    ensures IdsBelow(doc.elements, doc.nextId)
  {
    forall k | 0 <= k < |doc.elements| ensures doc.elements[k].id < doc.nextId {
      assert doc.elements[k] in doc.elements;
    }
  }

  /** SetParameters then AssignGuid on the target instance, if any. */
  method Finish(doc: Document, target: Option<ElementId>, obj: RevitObject, g: Guid, p: Parsers)
    requires doc.Valid()
    modifies doc`elements
    ensures doc.Valid()
    ensures doc.elements == Finished(old(doc.elements), target, obj.parameters, p, g)
  {
    if target.Some? {
      var found := Find(doc.elements, target.value);
      if found.Some? {
        var params := SetParameters(found.value.params, obj.parameters, p);
        doc.Replace(found.value.(params := params));
      }
    }
    AssignGuid(doc, target, g);
  }

  /** A successful native creation followed by the object's parameters and
      tag: the new instance is the last element. */
  method Place(doc: Document, kind: ElementKind, obj: RevitObject, pts: seq<Point>, g: Guid, native: Native)
    returns (id: ElementId)
    requires doc.Valid()
    modifies doc`elements, doc`nextId
    ensures doc.Valid()
    ensures id == old(doc.nextId) && doc.nextId == id + 1
    ensures doc.elements == old(doc.elements) + [Expected(id, kind, obj, pts, g, native)]
  {
    IdsBelowNext(doc);
    ghost var es := doc.elements;
    id := doc.NewElement(kind, native.initialParams(obj), pts);
    Finish(doc, Some(id), obj, g, native.parsers);
    FinishedFresh(es, Element(id, kind, NoEntity, native.initialParams(obj), pts), obj.parameters, native.parsers, g);
  }

  /** One object of a creation loop whose attempt did not end the loop: a
      new finished element, the carried instance finished again, or nothing.
      `e0`, `n0`, `probe` and `kinds` are the loop's invariant. */
  method Apply(doc: Document, attempt: Attempt, obj: RevitObject, fi: Option<ElementId>, g: Guid, native: Native,
               ghost e0: seq<Element>, ghost n0: nat, ghost probe: Option<ElementId>, ghost kinds: set<ElementKind>)
    returns (made: Option<ElementId>)
    requires attempt != Stop
    requires doc.Valid() && doc.nextId >= n0 && (forall k :: 0 <= k < |e0| ==> e0[k].id < n0)
    requires Grown(doc.elements, e0, n0, g, probe, false, kinds)
    requires fi.Some? ==> fi.value >= n0 && fi != probe
    requires probe.Some? ==> probe.value < doc.nextId
    requires attempt.Make? ==> attempt.kind in kinds
    modifies doc`elements, doc`nextId
    ensures doc.Valid() && Grown(doc.elements, e0, n0, g, probe, false, kinds)
    ensures made.Some? <==> attempt.Make?
    ensures attempt.Make? ==>
              && made == Some(old(doc.nextId)) && doc.nextId == old(doc.nextId) + 1
              && doc.elements == old(doc.elements) + [Expected(old(doc.nextId), attempt.kind, obj, [], g, native)]
    ensures !attempt.Make? ==> doc.nextId == old(doc.nextId)
    ensures attempt == Keep ==> doc.elements == Finished(old(doc.elements), fi, obj.parameters, native.parsers, g)
    ensures attempt == Skip ==> doc.elements == old(doc.elements)
  {
    if attempt.Make? {
      ghost var es := doc.elements;
      var id := Place(doc, attempt.kind, obj, [], g, native);
      GrownAppend(es, e0, n0, g, probe, kinds, Expected(id, attempt.kind, obj, [], g, native), false);
      made := Some(id);
    } else if attempt == Keep {
      ghost var es := doc.elements;
      Finish(doc, fi, obj, g, native.parsers);
      GrownFinish(es, e0, n0, g, probe, kinds, fi, obj.parameters, native.parsers);
      made := None;
    } else {
      made := None;
    }
  }

  // ---------------------------------------------------------------------
  // Unhosted point-based families

  /** Every object has an origin and its creation succeeds. */
  predicate AllCreate(objs: seq<RevitObject>, native: Native)
  {
    forall k :: 0 <= k < |objs| ==> objs[k].origin.Some? && native.creates(objs[k])
  }

  /** The instances a batch adds when each object becomes one new finished
      family instance (no placement points), in order, with consecutive ids
      from `n0`. */
  function InstancesPlaced(n0: nat, objs: seq<RevitObject>, g: Guid, native: Native): (r: seq<Element>)
    ensures |r| == |objs|
    decreases |objs|
  {
    if objs == [] then []
    else InstancesPlaced(n0, objs[..|objs| - 1], g, native) +
         [Expected(n0 + |objs| - 1, FamilyInstance, objs[|objs| - 1], [], g, native)]
  }

  /** The `k`-th instance is the `k`-th object's, with id `n0 + k`. */
  lemma {:induction false} InstancesPlacedAt(n0: nat, objs: seq<RevitObject>, g: Guid, native: Native)
    ensures forall k :: 0 <= k < |objs| ==>
              InstancesPlaced(n0, objs, g, native)[k] == Expected(n0 + k, FamilyInstance, objs[k], [], g, native)
    decreases |objs|
  {
    if objs != [] {
      InstancesPlacedAt(n0, objs[..|objs| - 1], g, native);
    }
  }

  /** The instances of one more object: the next one in order. */
  lemma InstancesPlacedSnoc(n0: nat, objs: seq<RevitObject>, i: nat, g: Guid, native: Native)
    requires i < |objs|
    ensures InstancesPlaced(n0, objs[..i + 1], g, native) ==
            InstancesPlaced(n0, objs[..i], g, native) + [Expected(n0 + i, FamilyInstance, objs[i], [], g, native)]
  {
    assert objs[..i + 1][..i] == objs[..i];
  }

  /** The unhosted loop's invariant after the objects `done`: the creation
      invariant, and when every one of them was created, one finished
      instance per object in order. */
  ghost predicate UnhostedInv(es: seq<Element>, nextId: nat, e0: seq<Element>, n0: nat, g: Guid, fi: Option<ElementId>,
                              done: seq<RevitObject>, native: Native)
  {
    && nextId >= n0 && IdsBelow(e0, n0)
    && Grown(es, e0, n0, g, None, false, {FamilyInstance})
    && (fi.Some? ==> fi.value >= n0)
    && (AllCreate(done, native) ==> es == e0 + InstancesPlaced(n0, done, g, native) && nextId == n0 + |done|)
  }

  /** One object of the unhosted loop whose attempt did not end it. */
  method UnhostedStep(doc: Document, obj: RevitObject, attempt: Attempt, fi: Option<ElementId>, g: Guid, native: Native,
                      ghost e0: seq<Element>, ghost n0: nat, ghost done: seq<RevitObject>)
    returns (fi': Option<ElementId>)
    requires attempt != Stop && attempt != Skip && (attempt.Make? <==> obj.origin.Some? && native.creates(obj))
    requires attempt.Make? ==> attempt.kind == FamilyInstance
    requires doc.Valid() && UnhostedInv(doc.elements, doc.nextId, e0, n0, g, fi, done, native)
    modifies doc`elements, doc`nextId
    ensures doc.Valid() && UnhostedInv(doc.elements, doc.nextId, e0, n0, g, fi', done + [obj], native)
    ensures fi'.Some? || fi' == fi
  {
    ghost var es := doc.elements;
    var made := Apply(doc, attempt, obj, fi, g, native, e0, n0, None, {FamilyInstance});
    fi' := fi;
    if made.Some? {
      fi' := made;
      if AllCreate(done + [obj], native) {
        assert AllCreate(done, native) by {
          forall k | 0 <= k < |done| ensures done[k].origin.Some? && native.creates(done[k]) {
            assert (done + [obj])[k] == done[k];
          }
        }
        assert (done + [obj])[..|done|] == done;
      }
    } else {
      assert !AllCreate(done + [obj], native) by {
        assert (done + [obj])[|done|] == obj;
      }
    }
  }

  /** FAMILY_HOSTING_BEHAVIOR 0. When every object has an origin and every
      creation succeeds, each object becomes one new tagged instance with
      its parameters, in order, and nothing else changes. */
  method CreateUnhosted(doc: Document, objs: seq<RevitObject>, ro: RevitObject, g: Guid, native: Native)
    requires doc.Valid()
    modifies doc`elements, doc`nextId
    ensures doc.Valid() && doc.nextId >= old(doc.nextId)
    ensures Grown(doc.elements, old(doc.elements), old(doc.nextId), g, None, false, {FamilyInstance})
    ensures AllCreate(objs, native) ==> doc.elements == old(doc.elements) + InstancesPlaced(old(doc.nextId), objs, g, native)
  {
    ghost var e0, n0 := doc.elements, doc.nextId;
    IdsBelowNext(doc);
    var fi: Option<ElementId> := None;
    var i := 0;
    assert objs[..0] == [];
    while i < |objs|
      invariant 0 <= i <= |objs|
      invariant doc.Valid() && UnhostedInv(doc.elements, doc.nextId, e0, n0, g, fi, objs[..i], native)
    {
      var obj := objs[i];
      var attempt := UnhostedAttempt(obj, ro, native, fi.Some?);
      if attempt == Stop {
        break;
      }
      fi := UnhostedStep(doc, obj, attempt, fi, g, native, e0, n0, objs[..i]);
      assert objs[..i + 1] == objs[..i] + [obj];
      i := i + 1;
    }
    if AllCreate(objs, native) {
      assert objs[..i] == objs;
    }
  }

  // ---------------------------------------------------------------------
  // Adaptive components

  /** A new adaptive instance whose placement points are moved to the
      object's points (those beyond the instance's points are skipped), then
      finished. */
  method PlaceAdaptive(doc: Document, obj: RevitObject, targets: seq<Point>, g: Guid, native: Native)
    returns (id: ElementId, placed: seq<Point>)
    requires doc.Valid()
    modifies doc`elements, doc`nextId
    ensures doc.Valid()
    ensures id == old(doc.nextId) && doc.nextId == id + 1
    ensures doc.elements == old(doc.elements) + [Expected(id, FamilyInstance, obj, placed, g, native)]
    ensures |placed| == |native.placementPoints(obj)|
    ensures forall k :: 0 <= k < |placed| ==>
              placed[k] == if k < |targets| then targets[k] else native.placementPoints(obj)[k]
  {
    placed := PlaceAdaptivePoints(native.placementPoints(obj), targets);
    id := Place(doc, FamilyInstance, obj, placed, g, native);
  }

  /** Every object's creation succeeds and it has adaptive points. */
  predicate AllAdapt(objs: seq<RevitObject>, native: Native)
  {
    forall k :: 0 <= k < |objs| ==> native.creates(objs[k]) && objs[k].adaptivePoints.Some?
  }

  /** The placement points of an object's new adaptive instance: moved to
      the object's points, or as created when it has none. */
  function AdaptivePlacement(obj: RevitObject, native: Native): seq<Point>
  {
    if obj.adaptivePoints.Some? then Moved(native.placementPoints(obj), obj.adaptivePoints.value)
    else native.placementPoints(obj)
  }

  /** The instances the adaptive path adds when every object succeeds: one
      finished instance per object, in order, with its placement points
      moved to the object's. */
  function AdaptivePlaced(n0: nat, objs: seq<RevitObject>, g: Guid, native: Native): (r: seq<Element>)
    ensures |r| == |objs|
    decreases |objs|
  {
    if objs == [] then []
    else AdaptivePlaced(n0, objs[..|objs| - 1], g, native) +
         [Expected(n0 + |objs| - 1, FamilyInstance, objs[|objs| - 1], AdaptivePlacement(objs[|objs| - 1], native), g, native)]
  }

  /** The `k`-th adaptive instance is the `k`-th object's, with id `n0 + k`
      and the object's placement points. */
  lemma {:induction false} AdaptivePlacedAt(n0: nat, objs: seq<RevitObject>, g: Guid, native: Native)
    ensures forall k :: 0 <= k < |objs| ==>
              AdaptivePlaced(n0, objs, g, native)[k] ==
              Expected(n0 + k, FamilyInstance, objs[k], AdaptivePlacement(objs[k], native), g, native)
    decreases |objs|
  {
    if objs != [] {
      AdaptivePlacedAt(n0, objs[..|objs| - 1], g, native);
    }
  }

  /** The adaptive path. A failed creation ends the loop; an object without
      adaptive points ends it too, after its instance was created and before
      it is tagged (the one bare element the path can leave). When every
      object succeeds, each becomes one new finished instance with its
      moved points, in order. */
  method CreateAdaptive(doc: Document, objs: seq<RevitObject>, g: Guid, native: Native) returns (ghost bare: bool)
    requires doc.Valid()
    modifies doc`elements, doc`nextId
    ensures doc.Valid() && doc.nextId >= old(doc.nextId)
    ensures Grown(doc.elements, old(doc.elements), old(doc.nextId), g, None, bare, {FamilyInstance})
    ensures AllAdapt(objs, native) ==>
              !bare && doc.elements == old(doc.elements) + AdaptivePlaced(old(doc.nextId), objs, g, native)
  {
    ghost var e0, n0 := doc.elements, doc.nextId;
    bare := false;
    var i := 0;
    assert objs[..0] == [];
    while i < |objs|
      invariant 0 <= i <= |objs|
      invariant doc.Valid() && doc.nextId >= n0 && (forall k :: 0 <= k < |e0| ==> e0[k].id < n0)
      invariant Grown(doc.elements, e0, n0, g, None, bare, {FamilyInstance})
      invariant !bare
      invariant AllAdapt(objs[..i], native) ==> doc.elements == e0 + AdaptivePlaced(n0, objs[..i], g, native) && doc.nextId == n0 + i
    {
      var obj := objs[i];
      if !native.creates(obj) {
        assert !AllAdapt(objs, native) by { assert objs[i] == obj; }
        break;
      }
      ghost var es := doc.elements;
      if obj.adaptivePoints.None? {
        var id := doc.NewElement(FamilyInstance, native.initialParams(obj), native.placementPoints(obj));
        GrownAppend(es, e0, n0, g, None, {FamilyInstance}, doc.elements[|es|], true);
        bare := true;
        assert !AllAdapt(objs, native) by { assert objs[i] == obj; }
        return;
      }
      AdaptiveStep(doc, objs, i, g, native, e0, n0);
      i := i + 1;
    }
    if AllAdapt(objs, native) {
      assert objs[..i] == objs;
    }
  }

  /** One successful object of the adaptive loop. */
  method AdaptiveStep(doc: Document, objs: seq<RevitObject>, i: nat, g: Guid, native: Native,
                      ghost e0: seq<Element>, ghost n0: nat)
    requires i < |objs| && native.creates(objs[i]) && objs[i].adaptivePoints.Some?
    requires doc.Valid() && doc.nextId >= n0 && (forall k :: 0 <= k < |e0| ==> e0[k].id < n0)
    requires Grown(doc.elements, e0, n0, g, None, false, {FamilyInstance})
    requires AllAdapt(objs[..i], native) ==> doc.elements == e0 + AdaptivePlaced(n0, objs[..i], g, native) && doc.nextId == n0 + i
    modifies doc`elements, doc`nextId
    ensures doc.Valid() && doc.nextId >= n0
    ensures Grown(doc.elements, e0, n0, g, None, false, {FamilyInstance})
    ensures AllAdapt(objs[..i + 1], native) ==>
              doc.elements == e0 + AdaptivePlaced(n0, objs[..i + 1], g, native) && doc.nextId == n0 + i + 1
  {
    var obj := objs[i];
    ghost var es := doc.elements;
    var id, placed := PlaceAdaptive(doc, obj, obj.adaptivePoints.value, g, native);
    assert placed == AdaptivePlacement(obj, native);
    GrownAppend(es, e0, n0, g, None, {FamilyInstance}, Expected(id, FamilyInstance, obj, placed, g, native), false);
    if AllAdapt(objs[..i + 1], native) {
      assert objs[..i + 1][..i] == objs[..i];
      assert AllAdapt(objs[..i], native) by {
        forall k | 0 <= k < i ensures native.creates(objs[..i][k]) && objs[..i][k].adaptivePoints.Some? {
          assert objs[..i][k] == objs[..i + 1][k];
        }
      }
    }
  }

  // ---------------------------------------------------------------------
  // Curve-based elements

  /** The one class a curve batch creates, decided by the type found for
      its first object. */
  function BatchKinds(batch: CurveBatch): set<ElementKind>
  {
    match batch
    case WallBatch => {Wall}
    case FloorBatch => {Floor}
    case RoofBatch => {FootPrintRoof}
    case FamilyBatch => {FamilyInstance}
  }

  /** Every object's curve attempt creates an element. */
  predicate AllMake(objs: seq<RevitObject>, batch: CurveBatch, levels: seq<Level>, typeCategory: Option<string>,
                    native: Native)
  {
    forall k :: 0 <= k < |objs| ==> CurveAttempt(objs[k], batch, levels, typeCategory, native).Make?
  }

  /** The elements the curve path adds when every attempt creates one: one
      finished element of the attempt's class per object, in order. */
  function CurvesPlaced(n0: nat, objs: seq<RevitObject>, batch: CurveBatch, levels: seq<Level>,
                        typeCategory: Option<string>, g: Guid, native: Native): (r: seq<Element>)
    requires AllMake(objs, batch, levels, typeCategory, native)
    ensures |r| == |objs|
    decreases |objs|
  {
    if objs == [] then []
    else
      var last := objs[|objs| - 1];
      assert forall k :: 0 <= k < |objs| - 1 ==> objs[..|objs| - 1][k] == objs[k];
      CurvesPlaced(n0, objs[..|objs| - 1], batch, levels, typeCategory, g, native) +
      [Expected(n0 + |objs| - 1, CurveAttempt(last, batch, levels, typeCategory, native).kind, last, [], g, native)]
  }

  /** The `k`-th curve element is the `k`-th object's, with id `n0 + k` and
      the class its attempt creates. */
  lemma {:induction false} CurvesPlacedAt(n0: nat, objs: seq<RevitObject>, batch: CurveBatch, levels: seq<Level>,
                                          typeCategory: Option<string>, g: Guid, native: Native)
    requires AllMake(objs, batch, levels, typeCategory, native)
    ensures forall k :: 0 <= k < |objs| ==>
              CurvesPlaced(n0, objs, batch, levels, typeCategory, g, native)[k] ==
              Expected(n0 + k, CurveAttempt(objs[k], batch, levels, typeCategory, native).kind, objs[k], [], g, native)
    decreases |objs|
  {
    if objs != [] {
      var init := objs[..|objs| - 1];
      assert forall k :: 0 <= k < |init| ==> init[k] == objs[k];
      CurvesPlacedAt(n0, init, batch, levels, typeCategory, g, native);
    }
  }

  /** The curve path. Walls, floors and roofs are created through local
      variables, so only a new family instance replaces the carried one.
      When every attempt creates, each object becomes one new finished
      element of its attempt's class, in order. */
  method CreateCurves(doc: Document, objs: seq<RevitObject>, batch: CurveBatch, typeCategory: Option<string>,
                      g: Guid, native: Native)
    requires doc.Valid()
    modifies doc`elements, doc`nextId
    ensures doc.Valid() && doc.nextId >= old(doc.nextId)
    ensures Grown(doc.elements, old(doc.elements), old(doc.nextId), g, None, false, BatchKinds(batch))
    ensures AllMake(objs, batch, doc.levels, typeCategory, native) ==>
              doc.elements == old(doc.elements) + CurvesPlaced(old(doc.nextId), objs, batch, doc.levels, typeCategory, g, native)
  {
    ghost var e0, n0 := doc.elements, doc.nextId;
    var fi: Option<ElementId> := None;
    var i := 0;
    assert objs[..0] == [];
    while i < |objs|
      invariant 0 <= i <= |objs|
      invariant doc.Valid() && doc.nextId >= n0 && (forall k :: 0 <= k < |e0| ==> e0[k].id < n0)
      invariant Grown(doc.elements, e0, n0, g, None, false, BatchKinds(batch))
      invariant fi.Some? ==> fi.value >= n0
      invariant AllMake(objs[..i], batch, doc.levels, typeCategory, native) ==>
                  doc.elements == e0 + CurvesPlaced(n0, objs[..i], batch, doc.levels, typeCategory, g, native) &&
                  doc.nextId == n0 + i
    {
      var obj := objs[i];
      var attempt := CurveAttempt(obj, batch, doc.levels, typeCategory, native);
      if attempt == Stop {
        assert !AllMake(objs, batch, doc.levels, typeCategory, native) by { assert objs[i] == obj; }
        break;
      }
      AttemptInBatch(obj, batch, doc.levels, typeCategory, native);
      ghost var es, next := doc.elements, doc.nextId;
      fi := CurveStep(doc, obj, attempt, batch, fi, g, native, e0, n0);
      CurvesPlacedStep(es, next, doc.elements, doc.nextId, e0, n0, objs, i, batch, doc.levels, typeCategory, g, native);
      i := i + 1;
    }
    if AllMake(objs, batch, doc.levels, typeCategory, native) {
      assert objs[..i] == objs;
    }
  }

  /** One object of the curve loop whose attempt did not end it. */
  method CurveStep(doc: Document, obj: RevitObject, attempt: Attempt, batch: CurveBatch, fi: Option<ElementId>,
                   g: Guid, native: Native, ghost e0: seq<Element>, ghost n0: nat)
    returns (fi': Option<ElementId>)
    requires attempt != Stop && (attempt.Make? ==> attempt.kind in BatchKinds(batch))
    requires doc.Valid() && doc.nextId >= n0 && (forall k :: 0 <= k < |e0| ==> e0[k].id < n0)
    requires Grown(doc.elements, e0, n0, g, None, false, BatchKinds(batch))
    requires fi.Some? ==> fi.value >= n0
    modifies doc`elements, doc`nextId
    ensures doc.Valid() && doc.nextId >= n0
    ensures Grown(doc.elements, e0, n0, g, None, false, BatchKinds(batch))
    ensures fi'.Some? ==> fi'.value >= n0
    ensures attempt.Make? ==>
              doc.nextId == old(doc.nextId) + 1 &&
              doc.elements == old(doc.elements) + [Expected(old(doc.nextId), attempt.kind, obj, [], g, native)]
  {
    var made := Apply(doc, attempt, obj, fi, g, native, e0, n0, None, BatchKinds(batch));
    fi' := fi;
    if made.Some? && attempt.kind == FamilyInstance {
      fi' := made;
    }
  }

  /** One more object of the curve loop keeps its placement: when every
      attempt so far created an element, the new one is the next object's. */
  lemma CurvesPlacedStep(es: seq<Element>, next: nat, es': seq<Element>, next': nat, e0: seq<Element>, n0: nat,
                         objs: seq<RevitObject>, i: nat, batch: CurveBatch, levels: seq<Level>,
                         typeCategory: Option<string>, g: Guid, native: Native)
    requires i < |objs|
    requires AllMake(objs[..i], batch, levels, typeCategory, native) ==>
               es == e0 + CurvesPlaced(n0, objs[..i], batch, levels, typeCategory, g, native) && next == n0 + i
    requires CurveAttempt(objs[i], batch, levels, typeCategory, native).Make? ==>
               es' == es + [Expected(next, CurveAttempt(objs[i], batch, levels, typeCategory, native).kind, objs[i], [], g, native)] &&
               next' == next + 1
    ensures AllMake(objs[..i + 1], batch, levels, typeCategory, native) ==>
              es' == e0 + CurvesPlaced(n0, objs[..i + 1], batch, levels, typeCategory, g, native) && next' == n0 + i + 1
  {
    if AllMake(objs[..i + 1], batch, levels, typeCategory, native) {
      CurvesPlacedPrefix(n0, objs, i, batch, levels, typeCategory, g, native);
      assert CurveAttempt(objs[..i + 1][i], batch, levels, typeCategory, native).Make?;
    }
  }

  /** A curve attempt creates only the class its batch creates. */
  lemma AttemptInBatch(obj: RevitObject, batch: CurveBatch, levels: seq<Level>, typeCategory: Option<string>,
                       native: Native)
    ensures CurveAttempt(obj, batch, levels, typeCategory, native).Make? ==>
              CurveAttempt(obj, batch, levels, typeCategory, native).kind in BatchKinds(batch)
  {
    CurveAttemptKinds(obj, batch, levels, typeCategory, native);
  }

  /** Extending the objects by the next one extends the curve elements by
      that object's element. */
  lemma CurvesPlacedPrefix(n0: nat, objs: seq<RevitObject>, i: nat, batch: CurveBatch, levels: seq<Level>,
                           typeCategory: Option<string>, g: Guid, native: Native)
    requires i < |objs| && AllMake(objs[..i + 1], batch, levels, typeCategory, native)
    ensures AllMake(objs[..i], batch, levels, typeCategory, native)
    ensures CurvesPlaced(n0, objs[..i + 1], batch, levels, typeCategory, g, native) ==
            CurvesPlaced(n0, objs[..i], batch, levels, typeCategory, g, native) +
            [Expected(n0 + i, CurveAttempt(objs[i], batch, levels, typeCategory, native).kind, objs[i], [], g, native)]
  {
    assert objs[..i + 1][..i] == objs[..i];
    assert objs[..i + 1][i] == objs[i];
    assert AllMake(objs[..i], batch, levels, typeCategory, native) by {
      forall k | 0 <= k < i ensures CurveAttempt(objs[..i][k], batch, levels, typeCategory, native).Make? {
        assert objs[..i][k] == objs[..i + 1][k];
      }
    }
  }

  /** The batch a curve-based first object selects. */
  function BatchOf(ro: RevitObject): (batch: CurveBatch)
    ensures batch == WallBatch <==> ro.category == "Walls"
    ensures batch == FloorBatch <==> ro.category == "Floors"
    ensures batch == RoofBatch <==> ro.category == "Roofs"
  {
    if ro.category == "Walls" then WallBatch
    else if ro.category == "Floors" then FloorBatch
    else if ro.category == "Roofs" then RoofBatch
    else FamilyBatch
  }

  /** The classes a batch can create, by its first object. */
  function CreatableKinds(ro: RevitObject): set<ElementKind>
  {
    match PathOf(ro)
    case PointBased => {FamilyInstance}
    case Adaptive => {FamilyInstance}
    case CurveBased => BatchKinds(BatchOf(ro))
    case NoCreation => {}
  }

  /** The lookup of a batch's category scans a class the batch creates
      exactly for curve-based walls and floors and for families of any other
      category than walls, floors and roofs: roofs are created as footprint
      roofs and looked up as extrusion roofs, and a point-based or adaptive
      family filed under "Walls" or "Floors" is looked up among walls or
      floors. */
  lemma CreatedKindScanned(ro: RevitObject)
    ensures ScannedKind(ro.category) in CreatableKinds(ro) <==>
              && PathOf(ro) != NoCreation && ro.category != "Roofs"
              && (PathOf(ro) == CurveBased || (ro.category != "Walls" && ro.category != "Floors"))
  {
  }
}
