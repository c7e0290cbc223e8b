/** The host's document, reduced to what the core reads and writes: an ordered
    collection of elements (each with a class, an optional identity entity,
    named parameter values and adaptive placement points), the levels, the
    loaded families and the system type names, and whether the identity
    schema has been registered. */
module RevitDocument {
  import opened Common

  type ElementId = nat

  /** The element classes the core distinguishes. `FootPrintRoof` is what the
      core creates for roofs; `ExtrusionRoof` is what its roof lookup scans. */
  datatype ElementKind = Wall | Floor | FootPrintRoof | ExtrusionRoof | Ceiling | FamilyInstance

  /** The identity record an element carries: none (`IsValid()` is false),
      one whose read throws, or one whose "InstanceID" field holds a string. */
  datatype Entity = NoEntity | Unreadable | InstanceId(text: string)

  /** A parameter value after conversion by its storage kind. */
  datatype ParamValue = DoubleValue(d: real) | IntegerValue(i: int) | ElementIdValue(id: int) | StringValue(s: string)

  datatype Element = Element(
    id: ElementId,
    kind: ElementKind,
    entity: Entity,
    params: map<string, ParamValue>,
    points: seq<Point>)

  datatype Level = Level(name: string, elevation: real)

  /** A loadable family: its name, its category name (null in C# when the
      family has none), its FAMILY_HOSTING_BEHAVIOR value and its type names. */
  datatype Family = Family(name: string, category: Option<string>, hostingBehavior: int, symbols: seq<string>)

  ghost predicate UniqueIds(es: seq<Element>)
  {
    forall i, j :: 0 <= i < j < |es| ==> es[i].id != es[j].id
  }

  /** The ids of a list of elements, in order. */
  function Ids(es: seq<Element>): (r: seq<ElementId>)
    ensures |r| == |es|
    ensures forall i :: 0 <= i < |es| ==> r[i] == es[i].id
  {
    seq(|es|, i requires 0 <= i < |es| => es[i].id)
  }

  /** The elements left after deleting every element whose id is in `ids`. */
  function Without(es: seq<Element>, ids: seq<ElementId>): seq<Element>
  {
    if es == [] then []
    else (if es[0].id in ids then [] else [es[0]]) + Without(es[1..], ids)
  }

  /** Deletion keeps exactly the elements whose id was not named. */
  lemma {:induction false} WithoutMembers(es: seq<Element>, ids: seq<ElementId>)
    ensures forall e :: e in Without(es, ids) <==> e in es && e.id !in ids
  {
    if es != [] {
      WithoutMembers(es[1..], ids);
      assert es == [es[0]] + es[1..];
    }
  }

  /** Deletion distributes over concatenation, so it keeps the order of the
      elements it leaves. */
  lemma {:induction false} WithoutAppend(a: seq<Element>, b: seq<Element>, ids: seq<ElementId>)
    ensures Without(a + b, ids) == Without(a, ids) + Without(b, ids)
  {
    if a == [] {
      assert a + b == b;
    } else {
      assert (a + b)[0] == a[0] && (a + b)[1..] == a[1..] + b;
      WithoutAppend(a[1..], b, ids);
    }
  }

  /** Deleting nothing leaves the document's elements as they were. */
  lemma {:induction false} WithoutNothing(es: seq<Element>)
    ensures Without(es, []) == es
  {
    if es != [] {
      WithoutNothing(es[1..]);
    }
  }

  /** The id of an optional element, as a deletion list. */
  function IdsOf(id: Option<ElementId>): (r: seq<ElementId>)
    ensures forall x :: x in r <==> id == Some(x)
  {
    if id.Some? then [id.value] else []
  }

  /** Deleting ids that no element has leaves the elements as they were. */
  lemma {:induction false} WithoutAbsent(es: seq<Element>, ids: seq<ElementId>)
    requires forall k :: 0 <= k < |es| ==> es[k].id !in ids
    ensures Without(es, ids) == es
  {
    if es != [] {
      assert forall k :: 0 <= k < |es[1..]| ==> es[1..][k] == es[k + 1];
      WithoutAbsent(es[1..], ids);
    }
  }

  /** Appending an element that is not deleted appends it to what is left. */
  lemma WithoutAppendKept(es: seq<Element>, e: Element, ids: seq<ElementId>)
    requires e.id !in ids
    ensures Without(es + [e], ids) == Without(es, ids) + [e]
  {
    WithoutAppend(es, [e], ids);
    assert [e][1..] == [];
  }

  /** Appending a kept element to elements whose deletion leaves `a + b`. */
  lemma WithoutSnoc(es: seq<Element>, e: Element, ids: seq<ElementId>, a: seq<Element>, b: seq<Element>)
    requires Without(es, ids) == a + b && e.id !in ids
    ensures Without(es + [e], ids) == a + (b + [e])
  {
    WithoutAppendKept(es, e, ids);
  }

  /** Changing elements with id `p` in place, or appending one, changes
      nothing that deleting `p` leaves. */
  lemma {:induction false} WithoutChanged(es: seq<Element>, es': seq<Element>, p: ElementId)
    requires |es'| == |es| || (|es'| == |es| + 1 && es'[|es|].id == p)
    requires forall k :: 0 <= k < |es| ==> es'[k].id == es[k].id && (es'[k] == es[k] || es[k].id == p)
    ensures Without(es', [p]) == Without(es, [p])
  {
    if es == [] {
      if es' != [] {
        assert es'[1..] == [];
      }
    } else {
      assert es'[0].id == es[0].id && (es'[0] == es[0] || es[0].id == p);
      assert forall k :: 0 <= k < |es[1..]| ==> es[1..][k] == es[k + 1] && es'[1..][k] == es'[k + 1];
      WithoutChanged(es[1..], es'[1..], p);
    }
  }

  lemma WithoutUnique(es: seq<Element>, ids: seq<ElementId>)
    requires UniqueIds(es)
    ensures UniqueIds(Without(es, ids))
    decreases |es|
  {
    if es != [] {
      WithoutUnique(es[1..], ids);
      WithoutMembers(es[1..], ids);
      var r := Without(es, ids);
      if es[0].id !in ids {
        forall j | 0 < j < |r| ensures r[0].id != r[j].id {
          assert r[j] in Without(es[1..], ids);
        }
      }
    }
  }

  /** The element with the given id, if there is one. */
  function Find(es: seq<Element>, id: ElementId): (r: Option<Element>)
    ensures r.Some? ==> r.value in es && r.value.id == id
    ensures r.None? ==> forall e :: e in es ==> e.id != id
  {
    if es == [] then None
    else if es[0].id == id then Some(es[0])
    else Find(es[1..], id)
  }

  /** In a list with unique ids, looking up an element's id finds it. */
  lemma {:induction false} UniqueFind(es: seq<Element>, k: nat)
    requires UniqueIds(es) && k < |es|
    ensures Find(es, es[k].id) == Some(es[k])
  {
    if k > 0 {
      assert es[0].id != es[k].id;
      assert UniqueIds(es[1..]) by {
        forall a, b | 0 <= a < b < |es[1..]| ensures es[1..][a].id != es[1..][b].id {
          assert es[1..][a] == es[a + 1] && es[1..][b] == es[b + 1];
        }
      }
      UniqueFind(es[1..], k - 1);
      assert es[1..][k - 1] == es[k];
    }
  }

  /** The elements with the one whose id is `e.id` replaced by `e`. */
  function ReplaceById(es: seq<Element>, e: Element): (r: seq<Element>)
    ensures |r| == |es|
    ensures forall i :: 0 <= i < |es| ==> r[i] == if es[i].id == e.id then e else es[i]
  {
    seq(|es|, i requires 0 <= i < |es| => if es[i].id == e.id then e else es[i])
  }

  class Document {
    var elements: seq<Element>
    var levels: seq<Level>
    var families: seq<Family>
    var wallTypes: seq<string>
    var floorTypes: seq<string>
    var roofTypes: seq<string>
    var schemaRegistered: bool
    var nextId: nat

    /** Element ids are unique and below the next id to hand out. */
    ghost predicate Valid()
      reads this
    {
      UniqueIds(elements) && forall e :: e in elements ==> e.id < nextId
    }

    constructor (levels: seq<Level>, families: seq<Family>, wallTypes: seq<string>,
                 floorTypes: seq<string>, roofTypes: seq<string>)
      ensures Valid() && elements == [] && !schemaRegistered
      ensures this.levels == levels && this.families == families
      ensures this.wallTypes == wallTypes && this.floorTypes == floorTypes && this.roofTypes == roofTypes
    {
      this.elements := [];
      this.levels := levels;
      this.families := families;
      this.wallTypes := wallTypes;
      this.floorTypes := floorTypes;
      this.roofTypes := roofTypes;
      this.schemaRegistered := false;
      this.nextId := 0;
    }

    /** A native creation call: appends a new untagged element. */
    method NewElement(kind: ElementKind, params: map<string, ParamValue>, points: seq<Point>) returns (id: ElementId)
      requires Valid()
      modifies this`elements, this`nextId
      ensures Valid()
      ensures id == old(nextId) && nextId == old(nextId) + 1
      ensures elements == old(elements) + [Element(id, kind, NoEntity, params, points)]
    {
      id := nextId;
      elements := elements + [Element(id, kind, NoEntity, params, points)];
      nextId := nextId + 1;
    }

    /** Writes back a changed element (same id). */
    method Replace(e: Element)
      requires Valid() && Find(elements, e.id).Some?
      modifies this`elements
      ensures Valid()
      ensures elements == ReplaceById(old(elements), e)
    {
      elements := ReplaceById(elements, e);
      forall x | x in elements ensures x.id < nextId {
        var i :| 0 <= i < |elements| && elements[i] == x;
        assert x == e || x == old(elements)[i];
      }
    }

    /** `Document.Delete` on a list of ids: the elements with those ids are
        removed. Revit also deletes the elements that depend on them; this
        document records no dependencies, so that cascade is not modelled. */
    method Delete(ids: seq<ElementId>)
      requires Valid()
      modifies this`elements
      ensures Valid()
      ensures elements == Without(old(elements), ids)
    {
      WithoutUnique(elements, ids);
      WithoutMembers(elements, ids);
      elements := Without(elements, ids);
    }

    /** `SchemaBuilder.Finish()` for the identity schema. */
    method RegisterSchema()
      modifies this`schemaRegistered
      ensures schemaRegistered
    {
      schemaRegistered := true;
    }
  }
}
