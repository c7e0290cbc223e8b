/** The host-side service: the reconciliation entry point, element creation
    along its creation paths, the host probe it keeps between calls, and the
    cached results of the catalogue queries. */
module Service {
  import opened Common
  import opened LyrebirdTypes
  import opened RevitDocument
  import opened Tagging
  import opened Placement
  import opened Creation
  import opened Building
  import opened Reconcile
  import opened Queries

  /** A search for a type name in a list of type names (`foreach` with `break`). */
  method Contains(names: seq<string>, name: string) returns (found: bool)
    ensures found <==> name in names
  {
    found := false;
    var i := 0;
    while i < |names|
      invariant 0 <= i <= |names|
      invariant name !in names[..i]
    {
      if names[i] == name {
        return true;
      }
      assert names[..i + 1] == names[..i] + [names[i]];
      i := i + 1;
    }
    assert names[..i] == names;
  }

  /** The first family with the given name (a `foreach` that breaks there). */
  method FirstFamilyNamed(families: seq<Family>, name: string) returns (r: Option<nat>)
    ensures r.Some? ==> r.value < |families| && families[r.value].name == name &&
                        forall i :: 0 <= i < r.value ==> families[i].name != name
    ensures r.None? ==> forall i :: 0 <= i < |families| ==> families[i].name != name
  {
    var i := 0;
    while i < |families|
      invariant 0 <= i <= |families|
      invariant forall k :: 0 <= k < i ==> families[k].name != name
    {
      if families[i].name == name {
        return Some(i);
      }
      i := i + 1;
    }
    return None;
  }

  /** Some family named `familyName` has a type named `typeName`. */
  predicate SymbolExists(families: seq<Family>, familyName: string, typeName: string)
  {
    exists i, j :: 0 <= i < |families| && 0 <= j < |families[i].symbols| && SymbolAt(families, familyName, typeName, i, j)
  }

  /** The hosting behaviour of the family type the point-based path finds
      for `ro`, if it finds one. */
  function HostingOf(families: seq<Family>, ro: RevitObject): Option<int>
  {
    match SymbolFamily(families, |families|, ro.familyName, ro.typeName)
    case Some(i) => Some(families[i].hostingBehavior)
    case None => None
  }

  /** The category of the family whose type a family-batch curve object
      finds (`None` for the other batches, a missing type or a family
      without a category). */
  function TypeCategory(families: seq<Family>, ro: RevitObject): Option<string>
  {
    if BatchOf(ro) != FamilyBatch then None
    else
      match SymbolFamily(families, |families|, ro.familyName, ro.typeName)
      case Some(i) => families[i].category
      case None => None
  }

  /** Every object of a face-based batch is created on a face. */
  predicate AllFace(objs: seq<RevitObject>, native: Native)
  {
    forall k :: 0 <= k < |objs| ==> FaceAttempt(objs[k], native).Make?
  }

  /** The curve path's type lookup for the first object. */
  predicate CurveTypeFound(doc: Document, ro: RevitObject)
    reads doc
  {
    if ro.category == "Walls" then ro.typeName in doc.wallTypes
    else if ro.category == "Floors" then ro.typeName in doc.floorTypes
    else if ro.category == "Roofs" then ro.typeName in doc.roofTypes
    else SymbolExists(doc.families, ro.familyName, ro.typeName)
  }

  /** Whether a batch reaches its creation transaction (the one that
      registers the identity schema): the type of its first object exists. */
  predicate BatchStarts(doc: Document, ro: RevitObject)
    reads doc
  {
    match PathOf(ro)
    case PointBased => SymbolExists(doc.families, ro.familyName, ro.typeName)
    case Adaptive => SymbolExists(doc.families, ro.familyName, ro.typeName)
    case CurveBased => CurveTypeFound(doc, ro)
    case NoCreation => false
  }

  /** Whether the parameter query finds the type: the first wall, floor or
      roof type of that name, or a type of the first family of that name. */
  predicate TypeListed(doc: Document, revitFamily: RevitObject, typeName: string)
    reads doc
  {
    if revitFamily.category == "Walls" then typeName in doc.wallTypes
    else if revitFamily.category == "Floors" then typeName in doc.floorTypes
    else if revitFamily.category == "Roofs" then typeName in doc.roofTypes
    else FirstFamilyHas(doc.families, revitFamily.familyName, typeName)
  }

  /** The first family named `familyName` has a type named `typeName`. */
  predicate FirstFamilyHas(families: seq<Family>, familyName: string, typeName: string)
  {
    exists i :: 0 <= i < |families| && families[i].name == familyName &&
                (forall k :: 0 <= k < i ==> families[k].name != familyName) &&
                typeName in families[i].symbols
  }

  /** The family branch of the parameter query: the type is looked for in
      the first family of that name only (the family loop breaks there). */
  method FamilyHasType(families: seq<Family>, familyName: string, typeName: string) returns (found: bool)
    ensures found <==> FirstFamilyHas(families, familyName, typeName)
  {
    found := false;
    var f := FirstFamilyNamed(families, familyName);
    if f.Some? {
      found := Contains(families[f.value].symbols, typeName);
    }
  }

  /** Moves the probe's first placement point (if it has one) next to the
      location searched; a probe without points stays as it is. */
  method MoveProbe(doc: Document, found: Element, location: Point, hostType: int) returns (probe: Element)
    requires doc.Valid() && found in doc.elements
    modifies doc`elements
    ensures doc.Valid()
    ensures probe == found.(points := if |found.points| > 0 then found.points[0 := ProbePoint(location, hostType)] else found.points)
    ensures |doc.elements| == |old(doc.elements)|
    ensures forall k :: 0 <= k < |doc.elements| ==>
              doc.elements[k] == if old(doc.elements)[k].id == found.id then probe else old(doc.elements)[k]
    ensures Find(doc.elements, found.id) == Some(probe)
  {
    ghost var i :| 0 <= i < |doc.elements| && doc.elements[i] == found;
    UniqueFind(doc.elements, i);
    forall k | 0 <= k < |doc.elements| && doc.elements[k].id == found.id ensures doc.elements[k] == found {
      UniqueFind(doc.elements, k);
    }
    probe := found;
    if |found.points| > 0 {
      probe := found.(points := found.points[0 := ProbePoint(location, hostType)]);
      doc.Replace(probe);
      assert doc.elements[i] == probe;
      UniqueFind(doc.elements, i);
    }
  }

  /** The probe a host search leaves (a fresh one appended, or the old one
      moved) keeps the creation invariant, with the probe as it now is. */
  lemma GrownProbe(es: seq<Element>, es': seq<Element>, e0: seq<Element>, n0: nat, g: Guid,
                   p0: Option<ElementId>, p: Option<ElementId>, kinds: set<ElementKind>)
    requires Grown(es, e0, n0, g, p0, false, kinds)
    requires p0.Some? ==> p == p0
    requires p.Some? && FamilyInstance in kinds
    requires |es'| == |es| || (|es'| == |es| + 1 && p.value >= n0 && es'[|es|].id == p.value && es'[|es|].kind == FamilyInstance)
    requires forall k :: 0 <= k < |es| ==>
               es'[k].id == es[k].id && es'[k].kind == es[k].kind && (es'[k] == es[k] || Some(es[k].id) == p)
    ensures Grown(es', e0, n0, g, p, false, kinds)
  {
    forall k | |e0| <= k < |es'| ensures Fresh(es'[k], n0, g, p, false, kinds) {
      if k < |es| {
        assert Fresh(es[k], n0, g, p0, false, kinds);
      }
    }
  }

  /** The host search changes nothing but the probe `p` (the remembered
      one `p0`, or a new one with the free id `next` appended): the
      creation invariant holds with that probe, and leaving the probe out
      the elements are as they were. */
  lemma ProbeMoved(es: seq<Element>, es': seq<Element>, e0: seq<Element>, n0: nat, g: Guid,
                   p0: Option<ElementId>, p: Option<ElementId>, next: nat)
    requires Grown(es, e0, n0, g, p0, false, {FamilyInstance}) && IdsBelow(es, next)
    requires p0.Some? ==> p == p0
    requires p0.None? ==> p == Some(next) && next >= n0
    requires |es'| == |es| + (if p0.None? then 1 else 0)
    requires forall k :: 0 <= k < |es| ==>
               && es'[k].id == es[k].id && es'[k].kind == es[k].kind
               && (es'[k] == es[k] || Some(es[k].id) == p)
    requires p0.None? ==> es'[|es|].id == p.value && es'[|es|].kind == FamilyInstance
    ensures p.Some? && Grown(es', e0, n0, g, p, false, {FamilyInstance})
    ensures Without(es', IdsOf(p)) == Without(es, IdsOf(p0))
  {
    GrownProbe(es, es', e0, n0, g, p0, p, {FamilyInstance});
    WithoutChanged(es, es', p.value);
    if p0.None? {
      WithoutNothing(es);
      WithoutAbsent(es, [p.value]);
    }
  }

  /** Deleting the probe after a completed hosted loop. */
  lemma GrownCleanup(es: seq<Element>, e0: seq<Element>, n0: nat, g: Guid, probe: ElementId, probe0: Option<ElementId>,
                     kinds: set<ElementKind>)
    requires Grown(es, e0, n0, g, Some(probe), false, kinds)
    requires probe0.Some? ==> probe0 == Some(probe)
    requires probe0.None? ==> probe >= n0
    requires forall k :: 0 <= k < |e0| ==> e0[k].id < n0
    ensures Outcome(Without(es, [probe]), e0, n0, g, probe0, None, false, kinds)
  {
    GrownOutcome(es, e0, n0, g, Some(probe), false, kinds, probe0);
    WithoutMembers(es, [probe]);
    forall e | e in e0 && Some(e.id) != probe0 ensures e in Without(es, [probe]) {
      var k :| 0 <= k < |e0| && e0[k] == e;
      assert e.id != probe;
    }
  }

  /** A path that never moves the probe keeps the invariant for any probe,
      and for a possibly bare last element. */
  lemma GrownRelax(es: seq<Element>, e0: seq<Element>, n0: nat, g: Guid, kinds: set<ElementKind>, bare: bool,
                   probe: Option<ElementId>, bare': bool)
    requires Grown(es, e0, n0, g, None, bare, kinds)
    requires bare ==> bare'
    ensures Grown(es, e0, n0, g, probe, bare', kinds)
  {
    forall k | |e0| <= k < |es| ensures Fresh(es[k], n0, g, probe, bare' && k == |es| - 1, kinds) {
      assert Fresh(es[k], n0, g, None, bare && k == |es| - 1, kinds);
    }
  }

  /** How a service call ends for its caller: a returned value, or an
      exception. */
  datatype CallResult = Returned(value: bool) | Faulted

  /** `Monitor.Wait(_locker, …)` followed by `return value`: a thread that
      does not hold `_locker` gets `SynchronizationLockException`; one that
      holds it waits for the pulse or the timeout and then returns. */
  function AfterWait(holdsLock: bool, value: bool): (o: CallResult)
    ensures o == Faulted <==> !holdsLock
    ensures o.Returned? ==> o.value == value
  {
    if holdsLock then Returned(value) else Faulted
  }

  /** What the calls carried out by `CreateOrModify` did to the document,
      the identity schema and the probe (before: `es0`, `n0`, `schema0`,
      `hf0`; after: `es`, `n`, `schema`, `hf`). Modification alone changes
      nothing; a deletion removes exactly the named elements and leaves the
      lookup with the first `|incoming|` elements it found before; a
      creation (of a non-empty batch) has the creation outcome. */
  ghost predicate Effects(calls: seq<Call>, incoming: seq<RevitObject>, uniqueId: Guid,
                          es0: seq<Element>, n0: nat, schema0: bool, hf0: Option<ElementId>,
                          es: seq<Element>, n: nat, schema: bool, hf: Option<ElementId>)
  {
    && ((forall k :: 0 <= k < |calls| ==> calls[k].Modify?) ==>
          es == es0 && n == n0 && schema == schema0 && hf == hf0)
    && (forall k :: 0 <= k < |calls| && calls[k].Delete? ==>
          && incoming != []
          && es == Without(es0, calls[k].ids)
          && |incoming| <= |Lookup(es0, schema0, incoming[0].category, uniqueId)|
          && Lookup(es, schema, incoming[0].category, uniqueId) ==
             Lookup(es0, schema0, incoming[0].category, uniqueId)[..|incoming|])
    && (forall k :: 0 <= k < |calls| && calls[k].Create? ==>
          && |calls[k].objects| > 0
          && Outcome(es, es0, n0, uniqueId, hf0, hf, PathOf(calls[k].objects[0]) == Adaptive,
                     CreatableKinds(calls[k].objects[0])))
  }

  /** The id the hosted batch's own probe took: one when the batch
      started without a probe `probe0` and now has one `probe`. */
  function Bump(probe0: Option<ElementId>, probe: Option<ElementId>): nat
  {
    if probe0.None? && probe.Some? then 1 else 0
  }

  /** What a completed hosted batch leaves when every object created an
      instance: the old elements without the old probe `probe0`, then one
      finished instance per object, in order, from the first free id (after
      the probe `probe`, when the batch created it). */
  function HostedResult(e0: seq<Element>, n0: nat, probe0: Option<ElementId>, probe: Option<ElementId>,
                        objs: seq<RevitObject>, g: Guid, native: Native): seq<Element>
  {
    Without(e0, IdsOf(probe0)) + InstancesPlaced(n0 + Bump(probe0, probe), objs, g, native)
  }

  /** The hosted loop's placement after the objects `done`, when each of
      them created an instance: leaving out the probe, the elements are
      the old ones (without the old probe) followed by one finished
      instance per object, in order, from the first id after the ones
      taken before the loop (and after the probe, when the loop created
      it). */
  ghost predicate HostedPlaced(es: seq<Element>, nextId: nat, hf: Option<ElementId>, e0: seq<Element>, n0: nat,
                               probe0: Option<ElementId>, done: seq<RevitObject>, g: Guid, native: Native)
  {
    && Without(es, IdsOf(hf)) == HostedResult(e0, n0, probe0, hf, done, g, native)
    && nextId == n0 + Bump(probe0, hf) + |done|
  }

  /** The host search keeps the placement: only the probe changed, and a
      probe created for the batch takes the id before the first instance. */
  lemma HostedPlacedProbe(es: seq<Element>, next: nat, h: Option<ElementId>, es': seq<Element>, next': nat,
                          h': Option<ElementId>, e0: seq<Element>, n0: nat, probe0: Option<ElementId>,
                          done: seq<RevitObject>, g: Guid, native: Native)
    requires HostedPlaced(es, next, h, e0, n0, probe0, done, g, native)
    requires Without(es', IdsOf(h')) == Without(es, IdsOf(h))
    requires h.Some? ==> h' == h && next' == next
    requires h.None? && h'.Some? ==> probe0.None? && done == [] && next' == next + 1
    requires h.None? && h'.None? ==> probe0.None? && next' == next
    ensures HostedPlaced(es', next', h', e0, n0, probe0, done, g, native)
  {
    if h.None? && h'.Some? {
      assert done == [];
      EmptyPlaced(n0, n0 + 1, done, g, native);
      assert HostedResult(e0, n0, probe0, h', done, g, native) == HostedResult(e0, n0, probe0, h, done, g, native);
    } else {
      assert h' == h;
    }
  }

  /** No objects, no instances, whatever the first id. */
  lemma EmptyPlaced(n: nat, m: nat, done: seq<RevitObject>, g: Guid, native: Native)
    requires done == []
    ensures InstancesPlaced(n, done, g, native) == InstancesPlaced(m, done, g, native)
  {
  }

  /** A new finished instance for the next object extends the placement. */
  lemma HostedPlacedAppend(es: seq<Element>, next: nat, h: Option<ElementId>, e0: seq<Element>, n0: nat,
                           probe0: Option<ElementId>, objs: seq<RevitObject>, i: nat, g: Guid, native: Native, e: Element)
    requires i < |objs| && HostedPlaced(es, next, h, e0, n0, probe0, objs[..i], g, native)
    requires h.Some? ==> h.value < next
    requires e == Expected(next, FamilyInstance, objs[i], [], g, native)
    ensures HostedPlaced(es + [e], next + 1, h, e0, n0, probe0, objs[..i + 1], g, native)
  {
    assert next == n0 + Bump(probe0, h) + i && e.id !in IdsOf(h);
    HostedResultSnoc(e0, n0, probe0, h, objs, i, g, native);
    WithoutAppendKept(es, e, IdsOf(h));
  }

  /** One more object places one more instance, after the others. */
  lemma HostedResultSnoc(e0: seq<Element>, n0: nat, probe0: Option<ElementId>, probe: Option<ElementId>,
                         objs: seq<RevitObject>, i: nat, g: Guid, native: Native)
    requires i < |objs|
    ensures HostedResult(e0, n0, probe0, probe, objs[..i + 1], g, native) ==
            HostedResult(e0, n0, probe0, probe, objs[..i], g, native) +
            [Expected(n0 + Bump(probe0, probe) + i, FamilyInstance, objs[i], [], g, native)]
  {
    var start := n0 + Bump(probe0, probe);
    InstancesPlacedSnoc(start, objs, i, g, native);
    SnocRegroup(Without(e0, IdsOf(probe0)), InstancesPlaced(start, objs[..i], g, native),
                InstancesPlaced(start, objs[..i + 1], g, native), Expected(start + i, FamilyInstance, objs[i], [], g, native));
  }

  /** A prefix followed by a sequence grown by one element is the longer
      sequence grown by that element. */
  lemma SnocRegroup<T>(a: seq<T>, p: seq<T>, p': seq<T>, x: T)
    requires p' == p + [x]
    ensures a + p' == (a + p) + [x]
  {
  }

  /** Every attempt so far created an element. */
  predicate AllMade(attempts: seq<Attempt>)
  {
    forall k :: 0 <= k < |attempts| ==> attempts[k].Make?
  }

  /** Deleting the probe from a completed placement leaves the old elements
      (without the old probe) and the new instances. */
  lemma PlacedAfterCleanup(es: seq<Element>, es': seq<Element>, next: nat, hf: Option<ElementId>,
                           e0: seq<Element>, n0: nat, probe0: Option<ElementId>, objs: seq<RevitObject>,
                           g: Guid, native: Native)
    requires HostedPlaced(es, next, hf, e0, n0, probe0, objs, g, native)
    requires es' == Without(es, IdsOf(hf))
    ensures es' == HostedResult(e0, n0, probe0, hf, objs, g, native)
  {
  }

  /** A face-based batch whose every object is created on a face runs to
      the end, creates each instance and keeps its probe until the cleanup. */
  lemma FaceLog(objs: seq<RevitObject>, completed: bool, attempts: seq<Attempt>, probe: Option<ElementId>,
                probe0: Option<ElementId>, n0: nat, native: Native)
    requires HostedLog(objs, 5, !completed, attempts, probe, probe0, n0, native) && AllFace(objs, native)
    ensures completed && AllMade(attempts) && probe == probe0
  {
    if |attempts| > 0 {
      assert attempts[|attempts| - 1] == FaceAttempt(objs[|attempts| - 1], native);
    }
  }

  /** Without a probe of its own, a completed batch's instances start at
      the first free id. */
  lemma FaceResult(e0: seq<Element>, n0: nat, probe0: Option<ElementId>, objs: seq<RevitObject>, g: Guid, native: Native)
    ensures HostedResult(e0, n0, probe0, probe0, objs, g, native) ==
            Without(e0, IdsOf(probe0)) + InstancesPlaced(n0, objs, g, native)
  {
  }

  /** What the hosted loop has established after the attempts `attempts`
      (the probe is `hf`, the elements `es`, the next id `next`): none of
      them ended the loop or skipped; a face-based loop keeps the probe and
      takes each object's face attempt; a host search loop has seen only
      objects with an origin and, from its first object on, a probe (a new
      one gets the first free id); and when each attempt created an
      instance, the placement so far. */
  ghost predicate HostedProgress(objs: seq<RevitObject>, hostBehavior: int, attempts: seq<Attempt>,
                                 hf: Option<ElementId>, es: seq<Element>, next: nat,
                                 e0: seq<Element>, n0: nat, probe0: Option<ElementId>, g: Guid, native: Native)
  {
    var i := |attempts|;
    && i <= |objs|
    && (forall k :: 0 <= k < i ==> attempts[k] != Stop && attempts[k] != Skip)
    && (hostBehavior == 5 ==> hf == probe0 && forall k :: 0 <= k < i ==> attempts[k] == FaceAttempt(objs[k], native))
    && (hostBehavior != 5 ==> forall k :: 0 <= k < i ==> objs[k].origin.Some?)
    && (hostBehavior != 5 && i > 0 ==> hf.Some?)
    && (probe0.None? && hf.Some? ==> hf == Some(n0))
    && (i == 0 ==> next == n0)
    && (AllMade(attempts) ==>
          HostedPlaced(es, next, hf, e0, n0, probe0, objs[..i], g, native))
  }

  /** The attempt log the hosted loop leaves: one attempt per object seen,
      in order, the last one ending the loop when it `stopped` and every
      object seen when it did not; a face-based loop keeps the probe and
      takes each object's face attempt; an object without an origin ends a
      host search loop; a probe the loop created has the first free id. */
  ghost predicate HostedLog(objs: seq<RevitObject>, hostBehavior: int, stopped: bool, attempts: seq<Attempt>,
                            hf: Option<ElementId>, probe0: Option<ElementId>, n0: nat, native: Native)
  {
    && |attempts| <= |objs| && (!stopped ==> |attempts| == |objs|) && (stopped ==> |attempts| > 0)
    && (forall k :: 0 <= k < |attempts| ==> (attempts[k] == Stop <==> stopped && k == |attempts| - 1))
    && (forall k :: 0 <= k < |attempts| ==> attempts[k] != Skip)
    && (hostBehavior == 5 ==> hf == probe0 && forall k :: 0 <= k < |attempts| ==> attempts[k] == FaceAttempt(objs[k], native))
    && (hostBehavior != 5 ==> forall k :: 0 <= k < |attempts| && objs[k].origin.None? ==> attempts[k] == Stop)
    && (probe0.None? && hf.Some? ==> hf == Some(n0) && hostBehavior != 5)
  }

  /** Before the hosted loop: no attempt and nothing placed. */
  lemma ProgressStart(objs: seq<RevitObject>, hostBehavior: int, probe0: Option<ElementId>,
                      e0: seq<Element>, n0: nat, g: Guid, native: Native)
    ensures HostedProgress(objs, hostBehavior, [], probe0, e0, n0, e0, n0, probe0, g, native)
  {
    assert objs[..0] == [];
    WithoutNothing(e0);
    if probe0.Some? {
      WithoutChanged(e0, e0, probe0.value);
    }
  }

  /** An attempt that does not end the loop extends its progress. */
  lemma ProgressStep(objs: seq<RevitObject>, hostBehavior: int, attempts: seq<Attempt>, attempt: Attempt,
                     hf: Option<ElementId>, es: seq<Element>, next: nat,
                     hf': Option<ElementId>, es': seq<Element>, next': nat,
                     e0: seq<Element>, n0: nat, probe0: Option<ElementId>, g: Guid, native: Native)
    requires HostedProgress(objs, hostBehavior, attempts, hf, es, next, e0, n0, probe0, g, native)
    requires |attempts| < |objs| && attempt != Stop && attempt != Skip
    requires hostBehavior == 5 ==> hf' == probe0 && attempt == FaceAttempt(objs[|attempts|], native)
    requires hostBehavior != 5 ==> hf'.Some? && objs[|attempts|].origin.Some?
    requires probe0.None? && hf'.Some? ==> hf' == Some(n0)
    requires AllMade(attempts) && attempt.Make? ==>
               HostedPlaced(es', next', hf', e0, n0, probe0, objs[..|attempts| + 1], g, native)
    ensures HostedProgress(objs, hostBehavior, attempts + [attempt], hf', es', next', e0, n0, probe0, g, native)
  {
    var a' := attempts + [attempt];
    assert forall k :: 0 <= k < |attempts| ==> a'[k] == attempts[k];
    assert a'[|attempts|] == attempt;
  }

  /** The log of a loop an attempt ended. */
  lemma StopLog(objs: seq<RevitObject>, hostBehavior: int, attempts: seq<Attempt>,
                hf: Option<ElementId>, es: seq<Element>, next: nat, hf': Option<ElementId>,
                e0: seq<Element>, n0: nat, probe0: Option<ElementId>, g: Guid, native: Native)
    requires HostedProgress(objs, hostBehavior, attempts, hf, es, next, e0, n0, probe0, g, native)
    requires |attempts| < |objs|
    requires hostBehavior == 5 ==> hf' == probe0 && FaceAttempt(objs[|attempts|], native) == Stop
    requires probe0.None? && hf'.Some? ==> hf' == Some(n0)
    ensures HostedLog(objs, hostBehavior, true, attempts + [Stop], hf', probe0, n0, native)
  {
    var a' := attempts + [Stop];
    assert forall k :: 0 <= k < |attempts| ==> a'[k] == attempts[k];
    assert a'[|attempts|] == Stop;
  }

  /** The log of a loop that saw every object. */
  lemma DoneLog(objs: seq<RevitObject>, hostBehavior: int, attempts: seq<Attempt>,
                hf: Option<ElementId>, es: seq<Element>, next: nat,
                e0: seq<Element>, n0: nat, probe0: Option<ElementId>, g: Guid, native: Native)
    requires HostedProgress(objs, hostBehavior, attempts, hf, es, next, e0, n0, probe0, g, native)
    requires |attempts| == |objs|
    ensures HostedLog(objs, hostBehavior, false, attempts, hf, probe0, n0, native)
    ensures AllMade(attempts) ==>
              HostedPlaced(es, next, hf, e0, n0, probe0, objs, g, native)
  {
    assert objs[..|objs|] == objs;
  }

  class LyrebirdService {
    /** The active document. */
    var doc: Document
    var currentDocName: string
    var familyNames: seq<RevitObject>
    var parameters: seq<RevitParameter>
    /** The probe instance used by the host search, kept between calls. */
    var hostFinder: Option<ElementId>

    ghost predicate Valid()
      reads this, doc
    {
      doc.Valid() && (hostFinder.Some? ==> hostFinder.value < doc.nextId)
    }

    constructor (doc: Document)
      requires doc.Valid()
      ensures Valid() && this.doc == doc
      ensures currentDocName == "NULL" && familyNames == [] && parameters == [] && hostFinder == None
    {
      this.doc := doc;
      currentDocName := "NULL";
      familyNames := [];
      parameters := [];
      hostFinder := None;
    }

    // -------------------------------------------------------------------
    // Reconciliation

    /** The action `CreateOrModify` queues: look up the elements tagged
        with `uniqueId`, classify, and carry out what the chosen link of
        that option's menu says. `calls` records the operations carried
        out, in order; it is what `Decide` prescribes. Modification changes
        nothing, so only a creation or a deletion changes the document;
        after the deletion of the surplus the lookup finds exactly the first
        `n` elements. On the empty batch the lookup of `incoming[0]` throws
        inside the `try` before anything happens. */
    method ReconcileAction(incoming: seq<RevitObject>, uniqueId: Guid, choice: DialogResult, native: Native)
      returns (ghost calls: seq<Call>)
      requires Valid()
      modifies this`hostFinder, doc`elements, doc`nextId, doc`schemaRegistered
      ensures Valid()
      ensures incoming == [] ==> calls == [] && unchanged(this, doc)
      ensures incoming != [] ==>
                calls == Decide(choice, incoming, old(Lookup(doc.elements, doc.schemaRegistered, incoming[0].category, uniqueId)))
      ensures Effects(calls, incoming, uniqueId,
                      old(doc.elements), old(doc.nextId), old(doc.schemaRegistered), old(hostFinder),
                      doc.elements, doc.nextId, doc.schemaRegistered, hostFinder)
    {
      calls := [];
      if incoming == [] {
        return;
      }
      var category := incoming[0].category;
      var existing := FindExisting(doc, uniqueId, category);
      if choice == CommandLink1 {
        calls := FirstLink(incoming, existing, uniqueId, native);
      } else if choice == CommandLink2 {
        calls := SecondLink(incoming, existing, uniqueId, native);
      } else if choice == CommandLink3 {
        calls := ThirdLink(incoming, existing, uniqueId, native);
      }
    }

    /** `CreateOrModify` as written: the action is queued, and then
        `Monitor.Wait(_locker, …)` runs without `lock (_locker)`, so the
        call throws `SynchronizationLockException` and never returns true.
        The queued action still runs and has its effects. */
    method CreateOrModifyAsWritten(incoming: seq<RevitObject>, uniqueId: Guid, choice: DialogResult, native: Native)
      returns (result: CallResult, ghost calls: seq<Call>)
      requires Valid()
      modifies this`hostFinder, doc`elements, doc`nextId, doc`schemaRegistered
      ensures result == Faulted && Valid()
      ensures incoming == [] ==> calls == [] && unchanged(this, doc)
      ensures incoming != [] ==>
                calls == Decide(choice, incoming, old(Lookup(doc.elements, doc.schemaRegistered, incoming[0].category, uniqueId)))
      ensures Effects(calls, incoming, uniqueId,
                      old(doc.elements), old(doc.nextId), old(doc.schemaRegistered), old(hostFinder),
                      doc.elements, doc.nextId, doc.schemaRegistered, hostFinder)
    {
      calls := ReconcileAction(incoming, uniqueId, choice, native);
      result := AfterWait(false, true);
    }

    /** `CreateOrModify` with the enqueue and the wait inside
        `lock (_locker)`, as `GetFamilyNames` does: the queued action runs
        and the call returns true on every path, the empty batch
        included. */
    method CreateOrModify(incoming: seq<RevitObject>, uniqueId: Guid, choice: DialogResult, native: Native)
      returns (result: CallResult, ghost calls: seq<Call>)
      requires Valid()
      modifies this`hostFinder, doc`elements, doc`nextId, doc`schemaRegistered
      ensures result == Returned(true) && Valid()
      ensures incoming == [] ==> calls == [] && unchanged(this, doc)
      ensures incoming != [] ==>
                calls == Decide(choice, incoming, old(Lookup(doc.elements, doc.schemaRegistered, incoming[0].category, uniqueId)))
      ensures Effects(calls, incoming, uniqueId,
                      old(doc.elements), old(doc.nextId), old(doc.schemaRegistered), old(hostFinder),
                      doc.elements, doc.nextId, doc.schemaRegistered, hostFinder)
    {
      calls := ReconcileAction(incoming, uniqueId, choice, native);
      result := AfterWait(true, true);
    }

    /** "Create new" / "Modify" / "Modify and create" / "Modify and delete
        the surplus", by option: the first link of each menu. */
    method FirstLink(incoming: seq<RevitObject>, existing: seq<ElementId>, uniqueId: Guid, native: Native)
      returns (ghost calls: seq<Call>)
      requires Valid() && incoming != []
      requires existing == Lookup(doc.elements, doc.schemaRegistered, incoming[0].category, uniqueId)
      modifies this`hostFinder, doc`elements, doc`nextId, doc`schemaRegistered
      ensures Valid()
      ensures calls == Decide(CommandLink1, incoming, existing)
      ensures Effects(calls, incoming, uniqueId,
                      old(doc.elements), old(doc.nextId), old(doc.schemaRegistered), old(hostFinder),
                      doc.elements, doc.nextId, doc.schemaRegistered, hostFinder)
    {
      var n, m := |incoming|, |existing|;
      var option := Classify(n, m);
      if option == 0 {
        CreateObjects(incoming, uniqueId, native);
        calls := [Create(incoming)];
        assert !calls[0].Modify?;
      } else if option == 1 {
        var modified := ModifyObjects(incoming, existing);
        calls := [Modify(incoming, existing)];
      } else if option == 2 {
        calls := ModifyAndCreate(incoming, existing, uniqueId, native);
      } else {
        calls := ModifyAndDelete(incoming, existing, uniqueId);
      }
    }

    /** Option 2's first link: the first incoming objects modify the
        existing elements, the rest are created. */
    method ModifyAndCreate(incoming: seq<RevitObject>, existing: seq<ElementId>, uniqueId: Guid, native: Native)
      returns (ghost calls: seq<Call>)
      requires Valid() && incoming != [] && Classify(|incoming|, |existing|) == 2
      requires existing == Lookup(doc.elements, doc.schemaRegistered, incoming[0].category, uniqueId)
      modifies this`hostFinder, doc`elements, doc`nextId, doc`schemaRegistered
      ensures Valid()
      ensures calls == Decide(CommandLink1, incoming, existing)
      ensures Effects(calls, incoming, uniqueId,
                      old(doc.elements), old(doc.nextId), old(doc.schemaRegistered), old(hostFinder),
                      doc.elements, doc.nextId, doc.schemaRegistered, hostFinder)
    {
      var existingObjects, newObjects := SplitForCreate(incoming, |existing|);
      var modified := ModifyObjects(existingObjects, existing);
      CreateObjects(newObjects, uniqueId, native);
      calls := [Modify(existingObjects, existing), Create(newObjects)];
      assert !calls[1].Modify?;
    }

    /** Option 3's first link: the incoming objects modify the first existing
        elements and the surplus elements are deleted. */
    method ModifyAndDelete(incoming: seq<RevitObject>, existing: seq<ElementId>, uniqueId: Guid)
      returns (ghost calls: seq<Call>)
      requires Valid() && incoming != [] && Classify(|incoming|, |existing|) == 3
      requires existing == Lookup(doc.elements, doc.schemaRegistered, incoming[0].category, uniqueId)
      modifies doc`elements
      ensures Valid()
      ensures calls == Decide(CommandLink1, incoming, existing)
      ensures Effects(calls, incoming, uniqueId,
                      old(doc.elements), old(doc.nextId), old(doc.schemaRegistered), old(hostFinder),
                      doc.elements, doc.nextId, doc.schemaRegistered, hostFinder)
    {
      var n := |incoming|;
      ghost var es := doc.elements;
      var existingObjects, removeObjects := SplitForDelete(incoming, existing);
      var modified := ModifyObjects(existingObjects, existing);
      DeleteExisting(removeObjects);
      assert incoming[..n] == incoming;
      calls := [Modify(existingObjects, existing), Delete(removeObjects)];
      assert !calls[1].Modify?;
      DeleteTailKeepsHead(es, incoming[0].category, uniqueId, n);
    }

    /** The second link: "Create new" for options 1 and 2, "Modify only the
        first ones" for option 3; option 0 has none. */
    method SecondLink(incoming: seq<RevitObject>, existing: seq<ElementId>, uniqueId: Guid, native: Native)
      returns (ghost calls: seq<Call>)
      requires Valid() && incoming != []
      requires existing == Lookup(doc.elements, doc.schemaRegistered, incoming[0].category, uniqueId)
      modifies this`hostFinder, doc`elements, doc`nextId, doc`schemaRegistered
      ensures Valid()
      ensures calls == Decide(CommandLink2, incoming, existing)
      ensures Effects(calls, incoming, uniqueId,
                      old(doc.elements), old(doc.nextId), old(doc.schemaRegistered), old(hostFinder),
                      doc.elements, doc.nextId, doc.schemaRegistered, hostFinder)
    {
      var n, m := |incoming|, |existing|;
      var option := Classify(n, m);
      calls := [];
      if option == 1 || option == 2 {
        CreateObjects(incoming, uniqueId, native);
        calls := [Create(incoming)];
        assert !calls[0].Modify?;
      } else if option == 3 {
        var existingObjects := TakeIncoming(incoming);
        var modified := ModifyObjects(existingObjects, existing);
        assert incoming[..n] == incoming;
        calls := [Modify(existingObjects, existing)];
      }
    }

    /** The third link: "Create new" for option 3 only. */
    method ThirdLink(incoming: seq<RevitObject>, existing: seq<ElementId>, uniqueId: Guid, native: Native)
      returns (ghost calls: seq<Call>)
      requires Valid() && incoming != []
      requires existing == Lookup(doc.elements, doc.schemaRegistered, incoming[0].category, uniqueId)
      modifies this`hostFinder, doc`elements, doc`nextId, doc`schemaRegistered
      ensures Valid()
      ensures calls == Decide(CommandLink3, incoming, existing)
      ensures Effects(calls, incoming, uniqueId,
                      old(doc.elements), old(doc.nextId), old(doc.schemaRegistered), old(hostFinder),
                      doc.elements, doc.nextId, doc.schemaRegistered, hostFinder)
    {
      calls := [];
      if Classify(|incoming|, |existing|) == 3 {
        CreateObjects(incoming, uniqueId, native);
        calls := [Create(incoming)];
        assert !calls[0].Modify?;
      }
    }

    /** `DeleteExisting`: the listed elements are removed. The document here
        holds no dependency between elements, so elements that Revit would
        delete along with them (hosted instances, tags) are not modelled. */
    method DeleteExisting(ids: seq<ElementId>)
      requires Valid()
      modifies doc`elements
      ensures Valid()
      ensures doc.elements == Without(old(doc.elements), ids)
    {
      doc.Delete(ids);
    }

    // -------------------------------------------------------------------
    // Creation

    /** `CreateObjects`: the first object decides the path. Without the
        family type nothing happens; otherwise the identity schema is
        registered and every element the batch leaves behind that was not
        there before is of a class the path creates and carries the batch
        GUID -- except the probe, and on the adaptive path an instance the
        loop ended on before tagging it. Every old element except the old
        probe stays as it was. When every object of an adaptive, unhosted,
        face-based or curve batch succeeds, the new elements are one
        finished element per object, in order. */
    method CreateObjects(objs: seq<RevitObject>, g: Guid, native: Native)
      requires Valid() && |objs| > 0
      modifies this`hostFinder, doc`elements, doc`nextId, doc`schemaRegistered
      ensures Valid() && doc.nextId >= old(doc.nextId)
      ensures doc.schemaRegistered == (old(doc.schemaRegistered) || BatchStarts(doc, objs[0]))
      ensures !BatchStarts(doc, objs[0]) ==>
                doc.elements == old(doc.elements) && doc.nextId == old(doc.nextId) && hostFinder == old(hostFinder)
      ensures PathOf(objs[0]) != PointBased ==> hostFinder == old(hostFinder)
      ensures Outcome(doc.elements, old(doc.elements), old(doc.nextId), g, old(hostFinder), hostFinder,
                      PathOf(objs[0]) == Adaptive, CreatableKinds(objs[0]))
      ensures PathOf(objs[0]) == Adaptive && BatchStarts(doc, objs[0]) && AllAdapt(objs, native) ==>
                doc.elements == old(doc.elements) + AdaptivePlaced(old(doc.nextId), objs, g, native)
      ensures PathOf(objs[0]) == PointBased && HostingOf(doc.families, objs[0]) == Some(0) && AllCreate(objs, native) ==>
                hostFinder == old(hostFinder) &&
                doc.elements == old(doc.elements) + InstancesPlaced(old(doc.nextId), objs, g, native)
      ensures PathOf(objs[0]) == PointBased && HostingOf(doc.families, objs[0]) == Some(5) && AllFace(objs, native) ==>
                hostFinder == None &&
                doc.elements == Without(old(doc.elements), IdsOf(old(hostFinder))) +
                                InstancesPlaced(old(doc.nextId), objs, g, native)
      ensures PathOf(objs[0]) == CurveBased && BatchStarts(doc, objs[0]) &&
              AllMake(objs, BatchOf(objs[0]), doc.levels, TypeCategory(doc.families, objs[0]), native) ==>
                doc.elements == old(doc.elements) +
                                CurvesPlaced(old(doc.nextId), objs, BatchOf(objs[0]), doc.levels,
                                             TypeCategory(doc.families, objs[0]), g, native)
    {
      var path := PathOf(objs[0]);
      if path == PointBased || path == Adaptive {
        CreateFromSymbol(objs, g, native);
      } else if path == CurveBased {
        CreateFromCurves(objs, g, native);
      }
    }

    /** The point-based and adaptive paths, which look up a family type.
        When every object succeeds, the unhosted and the face-based
        families, and adaptive components, leave one finished instance per
        object, in order, after the old elements (for face-based families,
        without the old probe, which the completed loop deletes). */
    method CreateFromSymbol(objs: seq<RevitObject>, g: Guid, native: Native)
      requires Valid() && |objs| > 0 && (PathOf(objs[0]) == PointBased || PathOf(objs[0]) == Adaptive)
      modifies this`hostFinder, doc`elements, doc`nextId, doc`schemaRegistered
      ensures Valid() && doc.nextId >= old(doc.nextId)
      ensures doc.schemaRegistered == (old(doc.schemaRegistered) || SymbolExists(doc.families, objs[0].familyName, objs[0].typeName))
      ensures !SymbolExists(doc.families, objs[0].familyName, objs[0].typeName) ==>
                doc.elements == old(doc.elements) && doc.nextId == old(doc.nextId) && hostFinder == old(hostFinder)
      ensures PathOf(objs[0]) == Adaptive ==> hostFinder == old(hostFinder)
      ensures Outcome(doc.elements, old(doc.elements), old(doc.nextId), g, old(hostFinder), hostFinder,
                      PathOf(objs[0]) == Adaptive, {FamilyInstance})
      ensures PathOf(objs[0]) == Adaptive && SymbolExists(doc.families, objs[0].familyName, objs[0].typeName) &&
              AllAdapt(objs, native) ==>
                doc.elements == old(doc.elements) + AdaptivePlaced(old(doc.nextId), objs, g, native)
      ensures PathOf(objs[0]) == PointBased && HostingOf(doc.families, objs[0]) == Some(0) && AllCreate(objs, native) ==>
                hostFinder == old(hostFinder) &&
                doc.elements == old(doc.elements) + InstancesPlaced(old(doc.nextId), objs, g, native)
      ensures PathOf(objs[0]) == PointBased && HostingOf(doc.families, objs[0]) == Some(5) && AllFace(objs, native) ==>
                hostFinder == None &&
                doc.elements == Without(old(doc.elements), IdsOf(old(hostFinder))) +
                                InstancesPlaced(old(doc.nextId), objs, g, native)
    {
      var ro := objs[0];
      var symbol := FindFamilySymbol(doc.families, ro.familyName, ro.typeName);
      if symbol.None? {
        return;
      }
      doc.RegisterSchema();
      if PathOf(ro) == Adaptive {
        AdaptiveBatch(objs, g, native);
      } else {
        PointBatch(objs, ro, doc.families[symbol.value.0].hostingBehavior, g, native);
      }
    }

    /** The point-based path once the type is found, by the family's
        hosting behaviour. */
    method PointBatch(objs: seq<RevitObject>, ro: RevitObject, hostBehavior: int, g: Guid, native: Native)
      requires Valid()
      modifies this`hostFinder, doc`elements, doc`nextId
      ensures Valid() && doc.nextId >= old(doc.nextId)
      ensures Outcome(doc.elements, old(doc.elements), old(doc.nextId), g, old(hostFinder), hostFinder, false, {FamilyInstance})
      ensures hostBehavior == 0 && AllCreate(objs, native) ==>
                hostFinder == old(hostFinder) &&
                doc.elements == old(doc.elements) + InstancesPlaced(old(doc.nextId), objs, g, native)
      ensures hostBehavior == 5 && AllFace(objs, native) ==>
                hostFinder == None &&
                doc.elements == Without(old(doc.elements), IdsOf(old(hostFinder))) +
                                InstancesPlaced(old(doc.nextId), objs, g, native)
    {
      if hostBehavior == 0 {
        UnhostedBatch(objs, ro, g, native);
      } else {
        ghost var e0, n0, probe0 := doc.elements, doc.nextId, hostFinder;
        ghost var completed, probe, attempts := CreateHosted(objs, hostBehavior, g, native);
        if hostBehavior == 5 && AllFace(objs, native) {
          FaceLog(objs, completed, attempts, probe, probe0, n0, native);
          FaceResult(e0, n0, probe0, objs, g, native);
        }
      }
    }

    /** The adaptive path once the type is found. */
    method AdaptiveBatch(objs: seq<RevitObject>, g: Guid, native: Native)
      requires Valid()
      modifies doc`elements, doc`nextId
      ensures Valid() && doc.nextId >= old(doc.nextId)
      ensures Outcome(doc.elements, old(doc.elements), old(doc.nextId), g, hostFinder, hostFinder, true, {FamilyInstance})
      ensures AllAdapt(objs, native) ==> doc.elements == old(doc.elements) + AdaptivePlaced(old(doc.nextId), objs, g, native)
    {
      ghost var e0, n0 := doc.elements, doc.nextId;
      IdsBelowNext(doc);
      ghost var bare := CreateAdaptive(doc, objs, g, native);
      GrownRelax(doc.elements, e0, n0, g, {FamilyInstance}, bare, hostFinder, true);
      GrownOutcome(doc.elements, e0, n0, g, hostFinder, true, {FamilyInstance}, hostFinder);
    }

    /** The unhosted point-based path once the type is found. */
    method UnhostedBatch(objs: seq<RevitObject>, ro: RevitObject, g: Guid, native: Native)
      requires Valid()
      modifies doc`elements, doc`nextId
      ensures Valid() && doc.nextId >= old(doc.nextId)
      ensures Outcome(doc.elements, old(doc.elements), old(doc.nextId), g, hostFinder, hostFinder, false, {FamilyInstance})
      ensures AllCreate(objs, native) ==> doc.elements == old(doc.elements) + InstancesPlaced(old(doc.nextId), objs, g, native)
    {
      ghost var e0, n0 := doc.elements, doc.nextId;
      IdsBelowNext(doc);
      CreateUnhosted(doc, objs, ro, g, native);
      GrownRelax(doc.elements, e0, n0, g, {FamilyInstance}, false, hostFinder, false);
      GrownOutcome(doc.elements, e0, n0, g, hostFinder, false, {FamilyInstance}, hostFinder);
    }

    /** The curve path, which looks up a wall, floor or roof type by name, or
        a family type (whose family's category the line-based branch reads).
        When every attempt creates, the new elements are one finished
        element per object, in order. */
    method CreateFromCurves(objs: seq<RevitObject>, g: Guid, native: Native)
      requires Valid() && |objs| > 0 && PathOf(objs[0]) == CurveBased
      modifies doc`elements, doc`nextId, doc`schemaRegistered
      ensures Valid() && doc.nextId >= old(doc.nextId)
      ensures doc.schemaRegistered == (old(doc.schemaRegistered) || CurveTypeFound(doc, objs[0]))
      ensures !CurveTypeFound(doc, objs[0]) ==> doc.elements == old(doc.elements) && doc.nextId == old(doc.nextId)
      ensures Outcome(doc.elements, old(doc.elements), old(doc.nextId), g, hostFinder, hostFinder,
                      false, BatchKinds(BatchOf(objs[0])))
      ensures CurveTypeFound(doc, objs[0]) &&
              AllMake(objs, BatchOf(objs[0]), doc.levels, TypeCategory(doc.families, objs[0]), native) ==>
                doc.elements == old(doc.elements) +
                                CurvesPlaced(old(doc.nextId), objs, BatchOf(objs[0]), doc.levels,
                                             TypeCategory(doc.families, objs[0]), g, native)
    {
      var ro := objs[0];
      var batch := BatchOf(ro);
      var typeFound: bool;
      var typeCategory: Option<string> := None;
      if batch == WallBatch {
        typeFound := Contains(doc.wallTypes, ro.typeName);
      } else if batch == FloorBatch {
        typeFound := Contains(doc.floorTypes, ro.typeName);
      } else if batch == RoofBatch {
        typeFound := Contains(doc.roofTypes, ro.typeName);
      } else {
        var symbol := FindFamilySymbol(doc.families, ro.familyName, ro.typeName);
        typeFound := symbol.Some?;
        if symbol.Some? {
          typeCategory := doc.families[symbol.value.0].category;
        }
      }
      if !typeFound {
        return;
      }
      doc.RegisterSchema();
      CurvesBatch(objs, batch, typeCategory, g, native);
    }

    /** The curve path once the type is found. */
    method CurvesBatch(objs: seq<RevitObject>, batch: CurveBatch, typeCategory: Option<string>, g: Guid, native: Native)
      requires Valid()
      modifies doc`elements, doc`nextId
      ensures Valid() && doc.nextId >= old(doc.nextId)
      ensures Outcome(doc.elements, old(doc.elements), old(doc.nextId), g, hostFinder, hostFinder, false, BatchKinds(batch))
      ensures AllMake(objs, batch, doc.levels, typeCategory, native) ==>
                doc.elements == old(doc.elements) + CurvesPlaced(old(doc.nextId), objs, batch, doc.levels, typeCategory, g, native)
    {
      ghost var e0, n0 := doc.elements, doc.nextId;
      IdsBelowNext(doc);
      CreateCurves(doc, objs, batch, typeCategory, g, native);
      GrownRelax(doc.elements, e0, n0, g, BatchKinds(batch), false, hostFinder, false);
      GrownOutcome(doc.elements, e0, n0, g, hostFinder, false, BatchKinds(batch), hostFinder);
    }

    /** The hosted loop's invariant, over the elements before the loop
        (`e0`, ids below `n0`), the probe before it and the carried instance. */
    ghost predicate HostedInv(e0: seq<Element>, n0: nat, g: Guid, probe0: Option<ElementId>, fi: Option<ElementId>)
      reads this, doc
    {
      && Valid() && doc.nextId >= n0 && IdsBelow(e0, n0)
      && Grown(doc.elements, e0, n0, g, hostFinder, false, {FamilyInstance})
      && (probe0.Some? ==> hostFinder == probe0)
      && (probe0.None? && hostFinder.Some? ==> hostFinder.value >= n0)
      && (fi.Some? ==> n0 <= fi.value < doc.nextId && fi != hostFinder)
    }

    /** Hosted point-based families: face-based ones (5) need a face, the
        others a host found by the probe. An object without an origin, a
        probe no longer in the document, or a failed creation on a found
        host or face ends the loop. When the loop completes the probe is
        deleted and forgotten; after an early end, or without a probe, the
        cleanup does not run. `attempts` holds each object's attempt, in
        order; `probe` is the probe the loop used (the old one, or the one
        it created at the next free id); `completed` says whether the loop
        went through every object. When it did and every attempt created an
        instance, the document holds, apart from the old probe, its old
        elements followed by one finished instance per object, in order. */
    method CreateHosted(objs: seq<RevitObject>, hostBehavior: int, g: Guid, native: Native)
      returns (ghost completed: bool, ghost probe: Option<ElementId>, ghost attempts: seq<Attempt>)
      requires Valid()
      modifies this`hostFinder, doc`elements, doc`nextId
      ensures Valid() && doc.nextId >= old(doc.nextId)
      ensures Outcome(doc.elements, old(doc.elements), old(doc.nextId), g, old(hostFinder), hostFinder, false, {FamilyInstance})
      ensures HostedLog(objs, hostBehavior, !completed, attempts, probe, old(hostFinder), old(doc.nextId), native)
      ensures old(hostFinder).Some? ==> probe == old(hostFinder)
      ensures hostFinder == if completed then None else probe
      ensures completed && probe.Some? ==> Find(doc.elements, probe.value).None?
      ensures completed && AllMade(attempts) ==>
                doc.elements == HostedResult(old(doc.elements), old(doc.nextId), old(hostFinder), probe, objs, g, native)
    {
      ghost var e0, n0, probe0 := doc.elements, doc.nextId, hostFinder;
      var stopped;
      stopped, attempts := HostedLoop(objs, hostBehavior, g, native);
      completed := !stopped;
      probe := hostFinder;
      ghost var es, next := doc.elements, doc.nextId;
      if stopped || hostFinder.None? {
        GrownOutcome(doc.elements, e0, n0, g, hostFinder, false, {FamilyInstance}, probe0);
        if !stopped {
          WithoutNothing(doc.elements);
        }
      } else {
        ForgetProbe(e0, n0, g, probe0);
      }
      if completed && AllMade(attempts) {
        PlacedAfterCleanup(es, doc.elements, next, probe, e0, n0, probe0, objs, g, native);
      }
    }

    /** The cleanup after a completed hosted loop: the probe (and its
        family, which is not modelled) is deleted and forgotten. */
    method ForgetProbe(ghost e0: seq<Element>, ghost n0: nat, ghost g: Guid, ghost probe0: Option<ElementId>)
      requires HostedInv(e0, n0, g, probe0, None) && hostFinder.Some?
      modifies this`hostFinder, doc`elements
      ensures Valid() && hostFinder == None
      ensures doc.elements == Without(old(doc.elements), [old(hostFinder).value])
      ensures Find(doc.elements, old(hostFinder).value).None?
      ensures Outcome(doc.elements, e0, n0, g, probe0, None, false, {FamilyInstance})
    {
      ghost var es := doc.elements;
      doc.Delete([hostFinder.value]);
      GrownCleanup(es, e0, n0, g, hostFinder.value, probe0, {FamilyInstance});
      WithoutMembers(es, [hostFinder.value]);
      hostFinder := None;
    }

    /** The loop of the hosted path: each object's attempt, in order, until
        one ends the loop (`stopped`). */
    method HostedLoop(objs: seq<RevitObject>, hostBehavior: int, g: Guid, native: Native)
      returns (stopped: bool, ghost attempts: seq<Attempt>)
      requires Valid()
      modifies this`hostFinder, doc`elements, doc`nextId
      ensures HostedInv(old(doc.elements), old(doc.nextId), g, old(hostFinder), None)
      ensures IdsBelow(old(doc.elements), old(doc.nextId))
      ensures HostedLog(objs, hostBehavior, stopped, attempts, hostFinder, old(hostFinder), old(doc.nextId), native)
      ensures !stopped && AllMade(attempts) ==>
                HostedPlaced(doc.elements, doc.nextId, hostFinder, old(doc.elements), old(doc.nextId), old(hostFinder),
                             objs, g, native)
    {
      ghost var e0, n0, probe0 := doc.elements, doc.nextId, hostFinder;
      IdsBelowNext(doc);
      var fi: Option<ElementId> := None;
      var i := 0;
      stopped := false;
      attempts := [];
      ProgressStart(objs, hostBehavior, probe0, e0, n0, g, native);
      while i < |objs|
        invariant 0 <= i <= |objs| && |attempts| == i
        invariant HostedInv(e0, n0, g, probe0, fi)
        invariant HostedProgress(objs, hostBehavior, attempts, hostFinder, doc.elements, doc.nextId, e0, n0, probe0, g, native)
      {
        var attempt, fi' := HostedIter(objs, i, hostBehavior, fi, g, native, e0, n0, probe0, attempts);
        attempts := attempts + [attempt];
        if attempt == Stop {
          stopped := true;
          return;
        }
        fi := fi';
        i := i + 1;
      }
      DoneLog(objs, hostBehavior, attempts, hostFinder, doc.elements, doc.nextId, e0, n0, probe0, g, native);
    }

    /** One object of the hosted loop: its attempt and, unless the attempt
        ends the loop, what the attempt does. */
    method HostedStep(objs: seq<RevitObject>, i: nat, hostBehavior: int, fi: Option<ElementId>, g: Guid, native: Native,
                      ghost e0: seq<Element>, ghost n0: nat, ghost probe0: Option<ElementId>, ghost attempts: seq<Attempt>)
      returns (attempt: Attempt, fi': Option<ElementId>)
      requires i < |objs| && i == |attempts| && HostedInv(e0, n0, g, probe0, fi)
      requires HostedProgress(objs, hostBehavior, attempts, hostFinder, doc.elements, doc.nextId, e0, n0, probe0, g, native)
      modifies this`hostFinder, doc`elements, doc`nextId
      ensures HostedInv(e0, n0, g, probe0, fi') && doc.nextId >= old(doc.nextId)
      ensures attempt != Skip
      ensures hostBehavior == 5 ==> hostFinder == probe0 && attempt == FaceAttempt(objs[i], native)
      ensures hostBehavior != 5 && attempt != Stop ==> hostFinder.Some? && objs[i].origin.Some?
      ensures probe0.None? && hostFinder.Some? ==> hostFinder == Some(n0)
      ensures AllMade(attempts) && attempt.Make? ==>
                HostedPlaced(doc.elements, doc.nextId, hostFinder, e0, n0, probe0, objs[..i + 1], g, native)
    {
      var obj := objs[i];
      ghost var es0, h, next := doc.elements, hostFinder, doc.nextId;
      ghost var allMade := AllMade(attempts);
      attempt := LocateHost(obj, hostBehavior, native, e0, n0, g, probe0, fi);
      if allMade {
        assert h.None? && hostFinder.Some? ==> i == 0;
        assert objs[..0] == [];
        HostedPlacedProbe(es0, next, h, doc.elements, doc.nextId, hostFinder, e0, n0, probe0, objs[..i], g, native);
      }
      fi' := fi;
      if attempt != Stop {
        fi' := PlaceHosted(objs, i, attempt, fi, g, native, e0, n0, probe0, allMade);
      }
    }

    /** What an object's attempt creates in the hosted loop, after its host
        search: one finished instance for a successful attempt, appended
        to the placement so far. */
    method PlaceHosted(objs: seq<RevitObject>, i: nat, attempt: Attempt, fi: Option<ElementId>, g: Guid, native: Native,
                       ghost e0: seq<Element>, ghost n0: nat, ghost probe0: Option<ElementId>, ghost allMade: bool)
      returns (fi': Option<ElementId>)
      requires i < |objs| && attempt != Stop && (attempt.Make? ==> attempt.kind == FamilyInstance)
      requires HostedInv(e0, n0, g, probe0, fi)
      requires allMade ==> HostedPlaced(doc.elements, doc.nextId, hostFinder, e0, n0, probe0, objs[..i], g, native)
      modifies doc`elements, doc`nextId
      ensures HostedInv(e0, n0, g, probe0, fi') && doc.nextId >= old(doc.nextId)
      ensures allMade && attempt.Make? ==>
                HostedPlaced(doc.elements, doc.nextId, hostFinder, e0, n0, probe0, objs[..i + 1], g, native)
    {
      fi' := fi;
      ghost var es, next := doc.elements, doc.nextId;
      var made := Apply(doc, attempt, objs[i], fi, g, native, e0, n0, hostFinder, {FamilyInstance});
      if made.Some? {
        fi' := made;
        if allMade {
          HostedPlacedAppend(es, next, hostFinder, e0, n0, probe0, objs, i, g, native,
                             Expected(next, FamilyInstance, objs[i], [], g, native));
        }
      }
    }

    /** One turn of the hosted loop: the object's attempt, and the log or
        the progress it leaves. */
    method HostedIter(objs: seq<RevitObject>, i: nat, hostBehavior: int, fi: Option<ElementId>, g: Guid, native: Native,
                      ghost e0: seq<Element>, ghost n0: nat, ghost probe0: Option<ElementId>, ghost attempts: seq<Attempt>)
      returns (attempt: Attempt, fi': Option<ElementId>)
      requires i < |objs| && i == |attempts| && HostedInv(e0, n0, g, probe0, fi)
      requires HostedProgress(objs, hostBehavior, attempts, hostFinder, doc.elements, doc.nextId, e0, n0, probe0, g, native)
      modifies this`hostFinder, doc`elements, doc`nextId
      ensures HostedInv(e0, n0, g, probe0, fi')
      ensures attempt == Stop ==> HostedLog(objs, hostBehavior, true, attempts + [Stop], hostFinder, probe0, n0, native)
      ensures attempt != Stop ==>
                HostedProgress(objs, hostBehavior, attempts + [attempt], hostFinder, doc.elements, doc.nextId,
                               e0, n0, probe0, g, native)
    {
      ghost var es, next, h := doc.elements, doc.nextId, hostFinder;
      attempt, fi' := HostedStep(objs, i, hostBehavior, fi, g, native, e0, n0, probe0, attempts);
      if attempt == Stop {
        StopLog(objs, hostBehavior, attempts, h, es, next, hostFinder, e0, n0, probe0, g, native);
      } else {
        ProgressStep(objs, hostBehavior, attempts, attempt, h, es, next, hostFinder, doc.elements, doc.nextId,
                     e0, n0, probe0, g, native);
      }
    }

    /** One hosted object's attempt: the face test, or the host search
        (which may create or move the probe). Face-based families and
        objects without an origin leave the document and the probe alone. A
        remembered probe no longer in the document ends the loop; otherwise
        the probe's first point is moved next to the origin and the attempt
        is decided by the last host it touches. Nothing but the probe
        changes. */
    method LocateHost(obj: RevitObject, hostBehavior: int, native: Native,
                      ghost e0: seq<Element>, ghost n0: nat, ghost g: Guid, ghost probe0: Option<ElementId>,
                      ghost fi: Option<ElementId>)
      returns (attempt: Attempt)
      requires HostedInv(e0, n0, g, probe0, fi)
      modifies this`hostFinder, doc`elements, doc`nextId
      ensures HostedInv(e0, n0, g, probe0, fi) && doc.nextId >= old(doc.nextId)
      ensures attempt != Skip && (attempt.Make? ==> attempt.kind == FamilyInstance)
      ensures hostBehavior == 5 ==> attempt == FaceAttempt(obj, native)
      ensures hostBehavior != 5 && obj.origin.None? ==> attempt == Stop
      ensures hostBehavior == 5 || obj.origin.None? ==>
                doc.elements == old(doc.elements) && doc.nextId == old(doc.nextId) && hostFinder == old(hostFinder)
      ensures old(hostFinder).Some? ==> hostFinder == old(hostFinder) && doc.nextId == old(doc.nextId)
      ensures old(hostFinder).None? && hostFinder.Some? ==> hostFinder == Some(old(doc.nextId)) && doc.nextId == old(doc.nextId) + 1
      ensures hostFinder.None? ==> doc.nextId == old(doc.nextId)
      ensures hostBehavior != 5 && obj.origin.Some? ==> hostFinder.Some?
      ensures Without(doc.elements, IdsOf(hostFinder)) == Without(old(doc.elements), IdsOf(old(hostFinder)))
      ensures hostBehavior != 5 && obj.origin.Some? ==>
                if old(hostFinder).Some? && Find(old(doc.elements), old(hostFinder).value).None? then
                  attempt == Stop && doc.elements == old(doc.elements)
                else
                  && hostFinder.Some? && Find(doc.elements, hostFinder.value).Some?
                  && var probe := Find(doc.elements, hostFinder.value).value;
                     && (|probe.points| > 0 ==> probe.points[0] == ProbePoint(obj.origin.value, hostBehavior))
                     && attempt == HostedAttempt(obj, LastHost(doc.elements, HostKinds(hostBehavior), probe.points,
                                                               native.touches), native)
    {
      if hostBehavior == 5 {
        attempt := FaceAttempt(obj, native);
      } else if obj.origin.None? {
        attempt := Stop;
      } else {
        attempt := SearchProbe(obj, hostBehavior, native, e0, n0, g, probe0, fi);
      }
    }

    /** The host search of one object with an origin: the attempt decided by
        the last host the probe touches, or the end of the loop when a
        remembered probe is gone. */
    method SearchProbe(obj: RevitObject, hostBehavior: int, native: Native,
                       ghost e0: seq<Element>, ghost n0: nat, ghost g: Guid, ghost probe0: Option<ElementId>,
                       ghost fi: Option<ElementId>)
      returns (attempt: Attempt)
      requires hostBehavior != 5 && obj.origin.Some?
      requires HostedInv(e0, n0, g, probe0, fi)
      modifies this`hostFinder, doc`elements, doc`nextId
      ensures HostedInv(e0, n0, g, probe0, fi)
      ensures attempt != Skip && (attempt.Make? ==> attempt.kind == FamilyInstance)
      ensures old(hostFinder).Some? ==> hostFinder == old(hostFinder) && doc.nextId == old(doc.nextId)
      ensures old(hostFinder).None? ==> hostFinder == Some(old(doc.nextId)) && doc.nextId == old(doc.nextId) + 1
      ensures Without(doc.elements, IdsOf(hostFinder)) == Without(old(doc.elements), IdsOf(old(hostFinder)))
      ensures if old(hostFinder).Some? && Find(old(doc.elements), old(hostFinder).value).None? then
                attempt == Stop && doc.elements == old(doc.elements)
              else
                && hostFinder.Some? && Find(doc.elements, hostFinder.value).Some?
                && var probe := Find(doc.elements, hostFinder.value).value;
                   && (|probe.points| > 0 ==> probe.points[0] == ProbePoint(obj.origin.value, hostBehavior))
                   && attempt == HostedAttempt(obj, LastHost(doc.elements, HostKinds(hostBehavior), probe.points,
                                                             native.touches), native)
    {
      ghost var es, p, next := doc.elements, hostFinder, doc.nextId;
      IdsBelowNext(doc);
      var host := FindHost(obj.origin.value, hostBehavior, native);
      ProbeMoved(es, doc.elements, e0, n0, g, p, hostFinder, next);
      attempt := if host.Throws? then Stop else HostedAttempt(obj, host.value, native);
    }

    /** `FindHost`: the probe is created on first use (loading its family
        file is not modelled), its first placement point is moved 0.1 above
        or below `location`, and the last element of the searched classes
        that the probe touches is the host. A remembered probe that is no
        longer in the document makes the placement-point query throw. */
    method FindHost(location: Point, hostType: int, native: Native) returns (host: Result<Option<ElementId>>)
      requires Valid()
      modifies this`hostFinder, doc`elements, doc`nextId
      ensures Valid() && hostFinder.Some?
      ensures old(hostFinder).Some? ==> hostFinder == old(hostFinder) && doc.nextId == old(doc.nextId)
      ensures old(hostFinder).None? ==> hostFinder == Some(old(doc.nextId)) && doc.nextId == old(doc.nextId) + 1
      ensures |doc.elements| == |old(doc.elements)| + (if old(hostFinder).None? then 1 else 0)
      ensures forall k :: 0 <= k < |old(doc.elements)| ==>
                && doc.elements[k].id == old(doc.elements)[k].id
                && doc.elements[k].kind == old(doc.elements)[k].kind
                && (doc.elements[k] == old(doc.elements)[k] || Some(old(doc.elements)[k].id) == hostFinder)
      ensures old(hostFinder).None? ==>
                doc.elements[|old(doc.elements)|].id == hostFinder.value &&
                doc.elements[|old(doc.elements)|].kind == FamilyInstance
      ensures host.Throws? <==> old(hostFinder).Some? && Find(old(doc.elements), old(hostFinder).value).None?
      ensures host.Throws? ==> doc.elements == old(doc.elements)
      ensures host.Ok? ==> Find(doc.elements, hostFinder.value).Some?
      ensures host.Ok? ==>
                var probe := Find(doc.elements, hostFinder.value).value;
                && (|probe.points| > 0 ==> probe.points[0] == ProbePoint(location, hostType))
                && host.value == LastHost(doc.elements, HostKinds(hostType), probe.points, native.touches)
    {
      if hostFinder.None? {
        var id := doc.NewElement(FamilyInstance, map[], native.probePoints);
        hostFinder := Some(id);
        UniqueFind(doc.elements, |doc.elements| - 1);
      }
      var found := Find(doc.elements, hostFinder.value);
      if found.None? {
        return Throws;
      }
      var probe := MoveProbe(doc, found.value, location, hostType);
      var h := SearchHost(doc.elements, HostKinds(hostType), probe.points, native.touches);
      host := Ok(h);
    }

    // -------------------------------------------------------------------
    // Queries

    /** `GetFamilyNames`: a "NULL" entry is appended to the old cache, which
        is then replaced by the fresh list (empty when the query fails);
        `available` is whether there is an active document to query. */
    method GetFamilyNames(available: bool) returns (r: seq<RevitObject>)
      modifies this`familyNames
      ensures r == familyNames
      ensures r == FamilyList(if available then Some(doc.families) else None)
    {
      familyNames := familyNames + [FamilyRef("NULL", "NULL")];
      familyNames := FamilyList(if available then Some(doc.families) else None);
      r := familyNames;
    }

    /** `GetParameters`: enqueues `ParametersTask` and returns the cached
        list as it stands, i.e. the result of the previous task to run. */
    method GetParameters() returns (r: seq<RevitParameter>)
      ensures r == parameters
    {
      r := parameters;
    }

    /** The task `GetParameters` enqueues: the cache is emptied; when the
        type is found it receives the descriptions of the type's parameters
        and of a temporary instance's. */
    method ParametersTask(revitFamily: RevitObject, typeName: string,
                          typeParams: seq<ParameterInfo>, instanceParams: seq<ParameterInfo>)
      modifies this`parameters
      ensures parameters == if TypeListed(doc, revitFamily, typeName) then ParameterList(typeParams, instanceParams) else []
    {
      parameters := [];
      var found := false;
      if revitFamily.category == "Walls" {
        found := Contains(doc.wallTypes, typeName);
      } else if revitFamily.category == "Floors" {
        found := Contains(doc.floorTypes, typeName);
      } else if revitFamily.category == "Roofs" {
        found := Contains(doc.roofTypes, typeName);
      } else {
        found := FamilyHasType(doc.families, revitFamily.familyName, typeName);
      }
      if found {
        parameters := ParameterList(typeParams, instanceParams);
      }
    }
  }
}
