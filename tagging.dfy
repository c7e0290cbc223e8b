/** Identity tagging: `AssignGuid` writes the batch GUID into an element's
    "InstanceID" entity field, and `FindExisting` collects, in document order,
    the elements of the category's class whose readable tag equals the GUID. */
module Tagging {
  import opened Common
  import opened RevitDocument

  /** The element class `FindExisting` scans for a category name: walls,
      floors and extrusion roofs for the three system categories, family
      instances for every other name; footprint roofs and ceilings never. */
  function ScannedKind(category: string): (k: ElementKind)
    ensures k == Wall <==> category == "Walls"
    ensures k == Floor <==> category == "Floors"
    ensures k == ExtrusionRoof <==> category == "Roofs"
    ensures k == FamilyInstance <==> category != "Walls" && category != "Floors" && category != "Roofs"
    ensures k != FootPrintRoof && k != Ceiling
  {
    if category == "Walls" then Wall
    else if category == "Floors" then Floor
    else if category == "Roofs" then ExtrusionRoof
    else FamilyInstance
  }

  /** An element the lookup keeps: of the scanned class, with a valid entity
      that reads back, whose InstanceID equals the GUID's text. */
  predicate Matches(e: Element, category: string, g: Guid)
  {
    e.kind == ScannedKind(category) && e.entity.InstanceId? && e.entity.text == g.text
  }

  /** The ids of the matching elements, in enumeration order. */
  function Collect(es: seq<Element>, category: string, g: Guid): seq<ElementId>
  {
    if es == [] then []
    else (if Matches(es[0], category, g) then [es[0].id] else []) + Collect(es[1..], category, g)
  }

  /** The lookup: nothing at all while the identity schema is not registered. */
  function Lookup(es: seq<Element>, schemaRegistered: bool, category: string, g: Guid): seq<ElementId>
  {
    if schemaRegistered then Collect(es, category, g) else []
  }

  /** The elements after `AssignGuid`: the target, when it exists, carries an
      entity whose InstanceID is the GUID's text. */
  function Tagged(es: seq<Element>, target: Option<ElementId>, g: Guid): seq<Element>
  {
    match target
    case None => es
    case Some(id) =>
      match Find(es, id)
      case None => es
      case Some(e) => ReplaceById(es, e.(entity := InstanceId(g.text)))
  }

  lemma {:induction false} CollectAppend(a: seq<Element>, b: seq<Element>, category: string, g: Guid)
    ensures Collect(a + b, category, g) == Collect(a, category, g) + Collect(b, category, g)
  {
    if a == [] {
      assert a + b == b;
    } else {
      assert (a + b)[0] == a[0] && (a + b)[1..] == a[1..] + b;
      CollectAppend(a[1..], b, category, g);
    }
  }

  /** `FindExisting` (a `foreach` over the category-scoped collector). */
  method FindExisting(doc: Document, uniqueId: Guid, category: string) returns (existing: seq<ElementId>)
    ensures existing == Lookup(doc.elements, doc.schemaRegistered, category, uniqueId)
  {
    existing := [];
    if !doc.schemaRegistered {
      return;
    }
    var kind := ScannedKind(category);
    var i := 0;
    while i < |doc.elements|
      invariant 0 <= i <= |doc.elements|
      invariant existing == Collect(doc.elements[..i], category, uniqueId)
    {
      var e := doc.elements[i];
      if e.kind == kind {
        match e.entity
        case InstanceId(tempId) =>
          if tempId == uniqueId.text {
            existing := existing + [e.id];
          }
        case NoEntity =>
        case Unreadable =>
      }
      CollectAppend(doc.elements[..i], [e], category, uniqueId);
      assert doc.elements[..i + 1] == doc.elements[..i] + [e];
      i := i + 1;
    }
    assert doc.elements[..i] == doc.elements;
  }

  /** `AssignGuid`: a null target (a failed creation) is caught and ignored. */
  method AssignGuid(doc: Document, target: Option<ElementId>, g: Guid)
    requires doc.Valid()
    modifies doc`elements
    ensures doc.Valid()
    ensures doc.elements == Tagged(old(doc.elements), target, g)
  {
    if target.Some? {
      var found := Find(doc.elements, target.value);
      if found.Some? {
        doc.Replace(found.value.(entity := InstanceId(g.text)));
      }
    }
  }

  /** Exactly the matching elements are found, and none while the schema is
      missing. */
  lemma {:induction false} LookupMembers(es: seq<Element>, schemaRegistered: bool, category: string, g: Guid, id: ElementId)
    ensures id in Lookup(es, schemaRegistered, category, g) <==>
            schemaRegistered && exists e :: e in es && e.id == id && Matches(e, category, g)
  {
    if schemaRegistered {
      CollectMembers(es, category, g, id);
    }
  }

  lemma {:induction false} CollectMembers(es: seq<Element>, category: string, g: Guid, id: ElementId)
    ensures id in Collect(es, category, g) <==> exists e :: e in es && e.id == id && Matches(e, category, g)
  {
    if es != [] {
      CollectMembers(es[1..], category, g, id);
      assert es == [es[0]] + es[1..];
      if exists e :: e in es && e.id == id && Matches(e, category, g) {
        var e :| e in es && e.id == id && Matches(e, category, g);
        if e != es[0] {
          assert e in es[1..];
        }
      }
    }
  }

  /** The lookup keeps document order: looking up concatenated element lists
      is the concatenation of their lookups. */
  lemma LookupKeepsOrder(a: seq<Element>, b: seq<Element>, schemaRegistered: bool, category: string, g: Guid)
    ensures Lookup(a + b, schemaRegistered, category, g) ==
            Lookup(a, schemaRegistered, category, g) + Lookup(b, schemaRegistered, category, g)
  {
    CollectAppend(a, b, category, g);
  }

  ghost predicate Distinct(xs: seq<ElementId>)
  {
    forall i, j :: 0 <= i < j < |xs| ==> xs[i] != xs[j]
  }

  /** In a document with unique ids the lookup names each element once. */
  lemma {:induction false} LookupDistinct(es: seq<Element>, schemaRegistered: bool, category: string, g: Guid)
    requires UniqueIds(es)
    ensures Distinct(Lookup(es, schemaRegistered, category, g))
  {
    if schemaRegistered {
      CollectDistinct(es, category, g);
    }
  }

  lemma {:induction false} CollectDistinct(es: seq<Element>, category: string, g: Guid)
    requires UniqueIds(es)
    ensures Distinct(Collect(es, category, g))
  {
    if es != [] {
      assert UniqueIds(es[1..]) by {
        forall i, j | 0 <= i < j < |es[1..]| ensures es[1..][i].id != es[1..][j].id {
          assert es[1..][i] == es[i + 1] && es[1..][j] == es[j + 1];
        }
      }
      CollectDistinct(es[1..], category, g);
      var rest := Collect(es[1..], category, g);
      if Matches(es[0], category, g) {
        forall k | 0 <= k < |rest| ensures rest[k] != es[0].id {
          CollectMembers(es[1..], category, g, rest[k]);
          var e :| e in es[1..] && e.id == rest[k] && Matches(e, category, g);
          var j :| 0 <= j < |es[1..]| && es[1..][j] == e;
          assert es[j + 1] == e;
        }
      }
    }
  }

  /** Tag round trip: an element of the class scanned for `category` that
      `AssignGuid` tags with `g` is then found by the lookup for `g`, once the
      schema exists. */
  lemma TagRoundTrip(es: seq<Element>, id: ElementId, g: Guid, category: string)
    requires Find(es, id).Some? && Find(es, id).value.kind == ScannedKind(category)
    ensures id in Lookup(Tagged(es, Some(id), g), true, category, g)
  {
    var e := Find(es, id).value;
    var e' := e.(entity := InstanceId(g.text));
    var es' := Tagged(es, Some(id), g);
    var i :| 0 <= i < |es| && es[i] == e;
    assert es'[i] == e';
    LookupMembers(es', true, category, g, id);
  }

  /** The roof gap: an element of class FootPrintRoof, the class the core's
      roof creation makes, is never returned by a lookup of any category. */
  lemma FootPrintRoofNeverFound(es: seq<Element>, schemaRegistered: bool, category: string, g: Guid, id: ElementId)
    requires UniqueIds(es)
    requires Find(es, id).Some? && Find(es, id).value.kind == FootPrintRoof
    ensures id !in Lookup(es, schemaRegistered, category, g)
  {
    LookupMembers(es, schemaRegistered, category, g, id);
    forall e | e in es && e.id == id ensures !Matches(e, category, g) {
      var i :| 0 <= i < |es| && es[i] == e;
      UniqueFind(es, i);
    }
  }

  /** Removing from `xs` every id listed in `ids`, keeping the order. */
  function RemoveIds(xs: seq<ElementId>, ids: seq<ElementId>): seq<ElementId>
  {
    if xs == [] then []
    else (if xs[0] in ids then [] else [xs[0]]) + RemoveIds(xs[1..], ids)
  }

  /** Deleting elements removes their ids from the lookup and nothing else. */
  lemma {:induction false} LookupAfterDelete(es: seq<Element>, ids: seq<ElementId>, category: string, g: Guid)
    ensures Collect(Without(es, ids), category, g) == RemoveIds(Collect(es, category, g), ids)
  {
    if es != [] {
      LookupAfterDelete(es[1..], ids, category, g);
      var head := if es[0].id in ids then [] else [es[0]];
      CollectAppend(head, Without(es[1..], ids), category, g);
      var c := Collect(es, category, g);
      if Matches(es[0], category, g) {
        assert c == [es[0].id] + Collect(es[1..], category, g);
        assert c[0] == es[0].id && c[1..] == Collect(es[1..], category, g);
      } else {
        assert c == Collect(es[1..], category, g);
      }
    }
  }

  /** Removing the tail of a list without repetitions leaves its head. */
  lemma {:induction false} RemoveTail(xs: seq<ElementId>, k: nat)
    requires k <= |xs| && Distinct(xs)
    ensures RemoveIds(xs, xs[k..]) == xs[..k]
  {
    RemoveSuffixOf(xs, xs[k..], k);
  }

  lemma {:induction false} RemoveSuffixOf(xs: seq<ElementId>, ids: seq<ElementId>, k: nat)
    requires k <= |xs| && Distinct(xs)
    requires forall i :: k <= i < |xs| ==> xs[i] in ids
    requires forall i :: 0 <= i < k ==> xs[i] !in ids
    ensures RemoveIds(xs, ids) == xs[..k]
  {
    if xs != [] {
      assert Distinct(xs[1..]) by {
        forall i, j | 0 <= i < j < |xs[1..]| ensures xs[1..][i] != xs[1..][j] {
          assert xs[1..][i] == xs[i + 1] && xs[1..][j] == xs[j + 1];
        }
      }
      if k == 0 {
        RemoveSuffixOf(xs[1..], ids, 0);
      } else {
        RemoveSuffixOf(xs[1..], ids, k - 1);
        assert xs[..k] == [xs[0]] + xs[1..][..k - 1];
      }
    }
  }

  /** After deleting the tail `existing[n..]` of a lookup result, the lookup
      returns exactly its head `existing[..n]`. */
  lemma DeleteTailKeepsHead(es: seq<Element>, category: string, g: Guid, n: nat)
    requires UniqueIds(es)
    requires n <= |Collect(es, category, g)|
    ensures Collect(Without(es, Collect(es, category, g)[n..]), category, g) == Collect(es, category, g)[..n]
  {
    var existing := Collect(es, category, g);
    LookupAfterDelete(es, existing[n..], category, g);
    CollectDistinct(es, category, g);
    RemoveTail(existing, n);
  }
}
