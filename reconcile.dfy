/** Reconciliation: the incoming objects are compared by count with the
    elements already tagged with the same GUID, the user is offered a menu of
    choices fitting the comparison, and the chosen link decides which
    mutators run on which part of each list. */
module Reconcile {
  import opened LyrebirdTypes
  import opened RevitDocument
  import opened Tagging

  /** The dialog option for `n` incoming objects and `m` tagged elements:
      0 nothing tagged, 1 as many as incoming, 2 fewer, 3 more. */
  function Classify(n: nat, m: nat): (option: nat)
    ensures option <= 3
    ensures option == 0 <==> m == 0
    ensures option == 1 <==> m != 0 && m == n
    ensures option == 2 <==> m != 0 && m < n
    ensures option == 3 <==> m != 0 && m > n
  {
    if m == 0 then 0
    else if m == n then 1
    else if m < n then 2
    else 3
  }

  /** What the dialog returns: one of its command links, or closed. */
  datatype DialogResult = CommandLink1 | CommandLink2 | CommandLink3 | CommandLink4 | Closed

  /** The command link at position `k` of a menu. */
  function LinkAt(k: nat): DialogResult
  {
    if k == 0 then CommandLink1
    else if k == 1 then CommandLink2
    else if k == 2 then CommandLink3
    else if k == 3 then CommandLink4
    else Closed
  }

  /** The command links the dialog can offer. */
  datatype Label =
    | CreateNew | CreateIgnoringExisting | ModifyExisting | ModifyAndCreate
    | ModifyAndDelete | ModifyIgnoringAdditional | Cancel

  /** The text shown on each link (spelling as in the dialog). */
  function LabelText(l: Label): string
  {
    match l
    case CreateNew => "Create new elements"
    case CreateIgnoringExisting => "Create new elements, ignore all exisiting."
    case ModifyExisting => "Modify existing elements with incoming data"
    case ModifyAndCreate => "Modify existing and create new elements with incoming data"
    case ModifyAndDelete => "Modify the first set of existing and delete additional elements to match incoming data"
    case ModifyIgnoringAdditional => "Modify the first set of existing objects and ignore any additional elements."
    case Cancel => "Cancel"
  }

  /** The command links offered for each option, in order: two to four
      links, the last and only the last one "Cancel", and "Create new
      elements, ignore all exisiting." on every menu but option 0's. */
  function Menu(option: nat): (menu: seq<Label>)
    ensures 2 <= |menu| <= 4 && menu[|menu| - 1] == Cancel
    ensures forall k :: 0 <= k < |menu| - 1 ==> menu[k] != Cancel
    ensures option != 0 <==> CreateIgnoringExisting in menu
  {
    if option == 0 then [CreateNew, Cancel]
    else if option == 1 then [ModifyExisting, CreateIgnoringExisting, Cancel]
    else if option == 2 then [ModifyAndCreate, CreateIgnoringExisting, Cancel]
    else [ModifyAndDelete, ModifyIgnoringAdditional, CreateIgnoringExisting, Cancel]
  }

  /** A mutator invocation, in the order the reconciliation makes them. */
  datatype Call =
    | Modify(objects: seq<RevitObject>, elements: seq<ElementId>)
    | Create(objects: seq<RevitObject>)
    | Delete(ids: seq<ElementId>)

  /** The calls the chosen link leads to, for the incoming objects and the
      tagged elements found for them. */
  function Decide(choice: DialogResult, incoming: seq<RevitObject>, existing: seq<ElementId>): seq<Call>
  {
    var n, m := |incoming|, |existing|;
    var option := Classify(n, m);
    match choice
    case CommandLink1 =>
      if option == 0 then [Create(incoming)]
      else if option == 1 then [Modify(incoming, existing)]
      else if option == 2 then [Modify(incoming[..m], existing), Create(incoming[m..])]
      else [Modify(incoming[..n], existing), Delete(existing[n..])]
    case CommandLink2 =>
      if option == 1 || option == 2 then [Create(incoming)]
      else if option == 3 then [Modify(incoming[..n], existing)]
      else []
    case CommandLink3 =>
      if option == 3 then [Create(incoming)] else []
    case CommandLink4 => []
    case Closed => []
  }

  /** Option 2, first link: the first `m` incoming objects are kept for
      modification and the rest for creation (two index loops over one `i`). */
  method SplitForCreate(incoming: seq<RevitObject>, m: nat) returns (existingObjects: seq<RevitObject>, newObjects: seq<RevitObject>)
    requires m <= |incoming|
    ensures existingObjects == incoming[..m] && newObjects == incoming[m..]
    ensures existingObjects + newObjects == incoming
  {
    existingObjects, newObjects := [], [];
    var i := 0;
    while i < m
      invariant 0 <= i <= m
      invariant existingObjects == incoming[..i]
    {
      existingObjects := existingObjects + [incoming[i]];
      i := i + 1;
    }
    while i < |incoming|
      invariant m <= i <= |incoming|
      invariant newObjects == incoming[m..i]
    {
      newObjects := newObjects + [incoming[i]];
      i := i + 1;
    }
    assert incoming[..m] + incoming[m..] == incoming;
  }

  /** Option 3: every incoming object is kept for modification (the loop of
      the first and second links). */
  method TakeIncoming(incoming: seq<RevitObject>) returns (existingObjects: seq<RevitObject>)
    ensures existingObjects == incoming
  {
    existingObjects := [];
    var i := 0;
    while i < |incoming|
      invariant 0 <= i <= |incoming|
      invariant existingObjects == incoming[..i]
    {
      existingObjects := existingObjects + [incoming[i]];
      i := i + 1;
    }
  }

  /** Option 3, first link: after the incoming objects, the index carries on
      through the tagged elements and collects the surplus for deletion. */
  method SplitForDelete(incoming: seq<RevitObject>, existing: seq<ElementId>)
    returns (existingObjects: seq<RevitObject>, removeObjects: seq<ElementId>)
    requires |incoming| <= |existing|
    ensures existingObjects == incoming
    ensures removeObjects == existing[|incoming|..]
    ensures Distinct(existing) ==> forall k :: 0 <= k < |incoming| ==> existing[k] !in removeObjects
  {
    existingObjects := [];
    removeObjects := [];
    var i := 0;
    while i < |incoming|
      invariant 0 <= i <= |incoming|
      invariant existingObjects == incoming[..i]
    {
      existingObjects := existingObjects + [incoming[i]];
      i := i + 1;
    }
    assert incoming[..i] == incoming;
    while i < |existing|
      invariant |incoming| <= i <= |existing|
      invariant removeObjects == existing[|incoming|..i]
    {
      removeObjects := removeObjects + [existing[i]];
      i := i + 1;
    }
    if Distinct(existing) {
      forall k | 0 <= k < |incoming| ensures existing[k] !in removeObjects {
        assert forall j :: 0 <= j < |removeObjects| ==> removeObjects[j] == existing[|incoming| + j];
      }
    }
  }

  /** `ModifyObjects`: a placeholder that changes nothing and reports success. */
  function ModifyObjects(existingObjects: seq<RevitObject>, existingElems: seq<ElementId>): (succeeded: bool)
    ensures succeeded
  {
    true
  }

  function ModifiedCount(calls: seq<Call>): nat
  {
    if calls == [] then 0
    else (if calls[0].Modify? then |calls[0].objects| else 0) + ModifiedCount(calls[1..])
  }

  function CreatedCount(calls: seq<Call>): nat
  {
    if calls == [] then 0
    else (if calls[0].Create? then |calls[0].objects| else 0) + CreatedCount(calls[1..])
  }

  function DeletedCount(calls: seq<Call>): nat
  {
    if calls == [] then 0
    else (if calls[0].Delete? then |calls[0].ids| else 0) + DeletedCount(calls[1..])
  }

  /** The counts of a plan of one or two calls. */
  lemma CountsOfShortPlan(calls: seq<Call>)
    requires 1 <= |calls| <= 2
    ensures ModifiedCount(calls) == (if calls[0].Modify? then |calls[0].objects| else 0)
                                  + (if |calls| == 2 && calls[1].Modify? then |calls[1].objects| else 0)
    ensures CreatedCount(calls) == (if calls[0].Create? then |calls[0].objects| else 0)
                                 + (if |calls| == 2 && calls[1].Create? then |calls[1].objects| else 0)
    ensures DeletedCount(calls) == (if calls[0].Delete? then |calls[0].ids| else 0)
                                 + (if |calls| == 2 && calls[1].Delete? then |calls[1].ids| else 0)
  {
    if |calls| == 2 {
      assert calls[1..][1..] == [];
    } else {
      assert calls[1..] == [];
    }
  }

  /** The decision rule, for the first link: nothing tagged creates all `n`;
      otherwise the first min(n, m) are modified, a surplus of incoming
      objects is created and a surplus of tagged elements is deleted. */
  lemma ConfirmedCounts(incoming: seq<RevitObject>, existing: seq<ElementId>)
    ensures var calls, n, m := Decide(CommandLink1, incoming, existing), |incoming|, |existing|;
      && |calls| >= 1
      && (m == 0 ==> calls == [Create(incoming)])
      && ModifiedCount(calls) == (if n < m then n else m)
      && CreatedCount(calls) == (if n > m then n - m else 0)
      && DeletedCount(calls) == (if m > n then m - n else 0)
  {
    CountsOfShortPlan(Decide(CommandLink1, incoming, existing));
  }

  /** Option 2, first link: the modified head and the created tail, in that
      order, are the incoming list. */
  lemma ModifyThenCreatePartition(incoming: seq<RevitObject>, existing: seq<ElementId>)
    requires 0 < |existing| < |incoming|
    ensures var calls := Decide(CommandLink1, incoming, existing);
      && |calls| == 2 && calls[0].Modify? && calls[1].Create?
      && calls[0].objects + calls[1].objects == incoming
      && |calls[0].objects| == |existing| && calls[0].elements == existing
  {
    var m := |existing|;
    assert incoming[..m] + incoming[m..] == incoming;
  }

  /** Option 3: the first link deletes exactly the surplus tagged elements,
      in order, and none of the first `n`; the second link modifies and
      deletes nothing. */
  lemma SurplusDeletion(incoming: seq<RevitObject>, existing: seq<ElementId>)
    requires |existing| > |incoming| && Distinct(existing)
    ensures var n := |incoming|;
      var calls := Decide(CommandLink1, incoming, existing);
      && calls == [Modify(incoming, existing), Delete(existing[n..])]
      && (forall k :: 0 <= k < n ==> existing[k] !in calls[1].ids)
    ensures Decide(CommandLink2, incoming, existing) == [Modify(incoming, existing)]
  {
    var n := |incoming|;
    assert incoming[..n] == incoming;
    forall k | 0 <= k < n ensures existing[k] !in existing[n..] {
      assert forall j :: 0 <= j < |existing[n..]| ==> existing[n..][j] == existing[n + j];
    }
  }

  /** "Create new elements, ignore all existing" creates every incoming
      object and deletes nothing; the second link of option 0 and every
      Cancel link or closed dialog does nothing. */
  lemma IgnoreAndCancel(incoming: seq<RevitObject>, existing: seq<ElementId>)
    ensures var option := Classify(|incoming|, |existing|);
      && (option == 1 || option == 2 ==> Decide(CommandLink2, incoming, existing) == [Create(incoming)])
      && (option == 3 ==> Decide(CommandLink3, incoming, existing) == [Create(incoming)])
      && Decide(LinkAt(|Menu(option)| - 1), incoming, existing) == []
      && Decide(Closed, incoming, existing) == []
  {
    var option := Classify(|incoming|, |existing|);
    if option == 0 {
      assert |Menu(option)| == 2;
    } else if option == 3 {
      assert |Menu(option)| == 4;
    } else {
      assert |Menu(option)| == 3;
    }
  }

  /** Each offered link does what its label says: Cancel does nothing, both
      "Create new elements" links create every incoming object, every
      "Modify" link modifies (the first `m`, or all `n` incoming objects)
      first, and only "delete additional elements" deletes; a link beyond
      the menu does nothing. */
  lemma LinksMatchLabels(incoming: seq<RevitObject>, existing: seq<ElementId>, k: nat)
    ensures var menu, calls := Menu(Classify(|incoming|, |existing|)), Decide(LinkAt(k), incoming, existing);
      && (k >= |menu| ==> calls == [])
      && (k < |menu| && menu[k] == Cancel ==> calls == [])
      && (k < |menu| && menu[k] in {CreateNew, CreateIgnoringExisting} ==> calls == [Create(incoming)])
      && (k < |menu| && menu[k] in {ModifyExisting, ModifyAndCreate, ModifyAndDelete, ModifyIgnoringAdditional} ==>
            calls != [] && calls[0].Modify? && calls[0].elements == existing)
      && (k < |menu| && menu[k] == ModifyAndCreate ==> calls[1..] == [Create(incoming[|existing|..])])
      && (k < |menu| && menu[k] == ModifyAndDelete ==> calls[1..] == [Delete(existing[|incoming|..])])
      && (k < |menu| && menu[k] !in {ModifyAndCreate, ModifyAndDelete} ==> |calls| <= 1)
  {
  }

  /** Deletion happens only on option 3's first link, and never together
      with creation. */
  lemma DeleteOnlyOnSurplus(choice: DialogResult, incoming: seq<RevitObject>, existing: seq<ElementId>)
    ensures var calls := Decide(choice, incoming, existing);
      (exists c :: c in calls && c.Delete?) ==>
        && choice == CommandLink1 && |existing| > |incoming| && |existing| > 0
        && (forall c :: c in calls ==> !c.Create?)
  {
  }
}
