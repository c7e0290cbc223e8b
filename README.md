# Lyrebird: the host-side service and the action component, in Dafny

Lyrebird lets a Grasshopper definition create elements in an open Revit
document. The client sends a batch of object descriptions, each tagged with the
GUID of the Grasshopper component that sent it. On the Revit side, the
`LyrebirdService` does four things:

- It looks up the elements already tagged with that GUID.
- It compares their count with the incoming batch and offers a dialog of
  command links.
- It modifies, creates or deletes elements according to the chosen link.
- It answers catalogue queries: family names, and the parameters of a type.

Creation follows one of three paths, chosen by the first object of the batch:

- point-based families, which are unhosted, face-hosted, or placed on a host
  found by an intersection probe;
- adaptive components;
- curve-based walls, floors, roofs and line-based families.

Each object's element receives the object's parameter assignments and an
identity entity that holds the GUID. Two exceptions: the intersection probe,
and an adaptive instance whose object has no adaptive points (the loop ends
before tagging it). On a `Keep` attempt (a failed unhosted creation, no
face, no host, or a line-based family whose curve it cannot take), no element
is made for the object, and its assignments and tag land on the element
carried over from an earlier object. The client-side `ActionTestComponent` tries to open a channel once per
rising edge of its trigger and sends the action request when the channel
opens. It writes the returned document name, or the channel failure message,
to output 1, which it never registers, so as written its one output
"Document" stays empty (see Findings).

The model keeps the source's structure.

- **Data.** The document is a `class` whose element list, id counter and
  schema flag are updated in place. The service is a `class` that owns the
  document, the remembered probe instance and the cached query results.
- **Decisions.** The classification, the menus, the decision matrix, the level
  search, the tag lookup and the parameter conversion are functions.
- **Loops.** The accumulating loops of CreateOrModify, FindExisting,
  GetLevel, FindFamilySymbol, FindHost, SetParameters and the creation paths
  are methods with loop invariants. Each is proved equal to one of those
  functions, or proved to keep a creation invariant. The list-building loops
  of the queries (the family list, the parameter descriptions, the collected
  control points) and `List.Sort` are functions.
- **Host calls as inputs.** Native host behaviour is given as data (the
  `Native` value): whether a creation call succeeds, the parameters a new
  element has, the placement points, the geometric intersection test,
  whether a face is found, and the runtime's text parsing. The dialog's
  answer is an input too, as are the channel's result and reply on the
  client side.

Files:

- `common.dfy`: Option, Result, points and GUIDs.
- `lyrebird_types.dfy`: the client's object descriptions.
- `revit_document.dfy`: the document.
- `tagging.dfy`: `AssignGuid` and `FindExisting`.
- `parameters.dfy`: `SetParameters`.
- `ordering.dfy`: the sort used by the queries.
- `queries.dfy`: the shape of the query results.
- `reconcile.dfy`: the `CreateOrModify` decision.
- `placement.dfy`: the path choice, `GetLevel`, `FindFamilySymbol`, the host search and the adaptive points.
- `creation.dfy`: what each object of a batch does.
- `building.dfy`: the creation loops.
- `service.dfy`: the service class.
- `client.dfy`: the action component.

## Model

| member | source | states |
|---|---|---|
| Reconcile.Classify | RevitServer/LyrebirdService.cs:637-675 | the option is 0 exactly when nothing is tagged, 1 when as many are tagged as incoming, 2 when fewer, 3 when more |
| Reconcile.Menu | RevitServer/LyrebirdService.cs:640-674 | two to four links per option, the last and only the last one "Cancel"; "Create new elements, ignore all exisiting." is offered on every menu except option 0's |
| Reconcile.LabelText | RevitServer/LyrebirdService.cs:640-674 | the dialog's link texts, spelling included; what each label leads to is stated by `LinksMatchLabels` |
| Reconcile.Decide | RevitServer/LyrebirdService.cs:678-801 | the decision matrix from option and link to mutator calls; its lemmas state the counts (`ConfirmedCounts`), the head and tail split (`ModifyThenCreatePartition`), the surplus deletion (`SurplusDeletion`, `DeleteOnlyOnSurplus`), the create-only and cancel links (`IgnoreAndCancel`) and the agreement with the labels (`LinksMatchLabels`) |
| Reconcile.ConfirmedCounts | RevitServer/LyrebirdService.cs:678-748 | on the first link, nothing tagged creates all n; otherwise min(n, m) are modified, the surplus of incoming objects is created, and the surplus of tagged elements is deleted |
| Reconcile.ModifyThenCreatePartition | RevitServer/LyrebirdService.cs:701-722 | option 2, first link: the modified head and the created tail are, concatenated, the incoming list; the head has m objects and goes with all m tagged ids |
| Reconcile.SurplusDeletion | RevitServer/LyrebirdService.cs:725-787 | option 3: the first link modifies all incoming objects and deletes exactly tagged[n..], none of tagged[..n]; the second link modifies and deletes nothing |
| Reconcile.IgnoreAndCancel | RevitServer/LyrebirdService.cs:750-801 | "Create new elements, ignore all exisiting" creates every incoming object; option 0's second link, every Cancel link and a closed dialog do nothing |
| Reconcile.LinksMatchLabels | RevitServer/LyrebirdService.cs:640-801 | `Decide` against `Menu` and `LabelText`: each offered link does what its label says (create all, modify the tagged elements then create or delete the surplus, or nothing for "Cancel"); a link beyond the menu does nothing |
| Reconcile.DeleteOnlyOnSurplus | RevitServer/LyrebirdService.cs:725-748 | a plan deletes only on option 3's first link, and never creates at the same time |
| Reconcile.CountsOfShortPlan | RevitServer/LyrebirdService.cs:678-801 | the modified, created and deleted counts of a plan of one or two calls |
| Reconcile.SplitForCreate | RevitServer/LyrebirdService.cs:703-719 | the two index loops yield incoming[..m] and incoming[m..], which concatenate back to the incoming list |
| Reconcile.TakeIncoming | RevitServer/LyrebirdService.cs:729-736 | the loop that copies every incoming object (the same loop at 775-782) yields the incoming list |
| Reconcile.SplitForDelete | RevitServer/LyrebirdService.cs:727-743 | the carried-on index yields incoming and tagged[n..]; with distinct ids no element of the head is removed |
| Reconcile.ModifyObjects | RevitServer/LyrebirdService.cs:1516-1523 | modification is a placeholder that always reports success |
| Service.LyrebirdService.ReconcileAction | RevitServer/LyrebirdService.cs:626-811 | the calls made are the ones `Decide` prescribes for the looked-up ids; a plan of modifications alone leaves the document and the probe unchanged; after a deletion the document is the old one without the deleted ids, and the lookup finds exactly the first n ids; a creation leaves every old element except the probe, and only fresh tagged elements of the creatable classes beside them |
| Service.LyrebirdService.CreateOrModifyAsWritten | RevitServer/LyrebirdService.cs:624-816 | as written: the queued action has its effects, and the call faults on every input, the empty batch included, because `Monitor.Wait` runs without `_locker` held |
| Service.LyrebirdService.CreateOrModify | RevitServer/LyrebirdService.cs:624-816 | corrected, with the enqueue and the wait inside `lock (_locker)`: the queued action has its effects and the call returns true on every input, the empty batch included |
| Service.AfterWait | RevitServer/LyrebirdService.cs:813-815 | the call faults exactly when the waiting thread does not hold `_locker`, and otherwise returns its value |
| Service.LyrebirdService.FirstLink | RevitServer/LyrebirdService.cs:678-749 | the first link carries out what `Decide` prescribes for it (create all; modify all; modify the first m and create the rest; modify the first n and delete the surplus), with the same effects on the document and the probe |
| Service.LyrebirdService.ModifyAndCreate | RevitServer/LyrebirdService.cs:701-722 | option 2, first link: the head modifies the tagged elements and the tail is created, which is the plan `Decide` gives, with its effects |
| Service.LyrebirdService.ModifyAndDelete | RevitServer/LyrebirdService.cs:725-748 | option 3, first link: the incoming objects modify the first tagged elements and the surplus is deleted; afterwards the lookup finds exactly the first n ids |
| Service.LyrebirdService.SecondLink | RevitServer/LyrebirdService.cs:750-789 | the second link creates all for options 1 and 2, modifies the first n for option 3, and does nothing for option 0 (its "Cancel"), with the same effects |
| Service.LyrebirdService.ThirdLink | RevitServer/LyrebirdService.cs:790-801 | the third link creates all for option 3 only and is "Cancel" elsewhere, with the same effects |
| Service.LyrebirdService.DeleteExisting | RevitServer/LyrebirdService.cs:1634-1642 | the document becomes the old one without the listed elements, in the same order; only the element list changes (dependent elements are not deleted with them, see Left out) |
| Service.LyrebirdService.CreateObjects | RevitServer/LyrebirdService.cs:838-1514 | the first object picks the path; without its type nothing changes; otherwise the schema is registered and the creation outcome holds. The result is stated outright when every object succeeds. Adaptive: one instance per object with its moved points. Unhosted (hosting 0): one instance per object. Face-based (hosting 5): one instance per object, and the remembered probe deleted. Curve-based: one element of the attempt's class per object. Each is appended in order, with consecutive ids |
| Service.LyrebirdService.CreateFromSymbol | RevitServer/LyrebirdService.cs:851-1062 | the family-type lookup; the schema is registered exactly when the type exists; the dispatch on FAMILY_HOSTING_BEHAVIOR; the creation outcome; and, when every object succeeds, the ordered placement for the adaptive, unhosted and face-based paths |
| Service.LyrebirdService.PointBatch | RevitServer/LyrebirdService.cs:887-973 | hosting 0 runs the unhosted loop and keeps the probe; hosting 5 with every face found and every creation succeeding places one instance per object in order and deletes the old probe; every path keeps the creation outcome |
| Service.LyrebirdService.AdaptiveBatch | RevitServer/LyrebirdService.cs:1027-1051 | the adaptive loop leaves the probe alone; when every object creates and has points, the instances are appended in order with their moved points |
| Service.LyrebirdService.UnhostedBatch | RevitServer/LyrebirdService.cs:891-921 | the unhosted loop leaves the probe alone; when every object has an origin and creates, the instances are appended in order |
| Service.LyrebirdService.CreateFromCurves | RevitServer/LyrebirdService.cs:1063-1152 | the curve path's type lookup (a wall, floor or roof type by name, or a family type whose category is passed on); the schema is registered exactly when it is found; and, when every object's attempt creates, one element of the attempt's class per object is appended, in order |
| Service.LyrebirdService.CurvesBatch | RevitServer/LyrebirdService.cs:1153-1500 | the curve loop keeps the creation outcome for the batch's classes and the probe, and appends the ordered elements when every attempt creates |
| Service.LyrebirdService.CreateHosted | RevitServer/LyrebirdService.cs:922-973 | the hosted loop's attempts follow its log: one per object until one ends the loop. Face-based families take the face attempt and keep the probe. An object without an origin ends the other loops. After a completed loop the probe is gone from the document and forgotten; after an early end it is kept (the old one, or the one created). When the loop completes and every attempt creates, the document is the old one without the old probe, followed by one instance per object in order |
| Service.LyrebirdService.HostedLoop | RevitServer/LyrebirdService.cs:922-966 | the loop leaves the attempt log (stopped exactly when the last attempt is `Stop`) and, when it saw every object and each created an instance, the ordered placement beside the probe |
| Service.LyrebirdService.HostedIter | RevitServer/LyrebirdService.cs:924-965 | one turn: a `Stop` attempt closes the log, any other extends the progress |
| Service.LyrebirdService.HostedStep | RevitServer/LyrebirdService.cs:924-965 | one object: the face attempt keeps the probe; a host search leaves a probe; a creating attempt extends the ordered placement by the object's instance |
| Service.LyrebirdService.PlaceHosted | RevitServer/LyrebirdService.cs:955-965 | a creating attempt appends one finished instance with the next id, after the ones placed so far |
| Service.LyrebirdService.ForgetProbe | RevitServer/LyrebirdService.cs:968-972 | the probe is deleted from the document and forgotten; nothing else is removed |
| Service.FaceLog | RevitServer/LyrebirdService.cs:934-954 | a face-based batch in which every face is found and every creation succeeds runs to the end, each attempt creates, and the probe is never touched |
| Service.LyrebirdService.LocateHost | RevitServer/LyrebirdService.cs:924-964 | face-based families (5) take the face attempt and change nothing; an object without an origin ends the loop and changes nothing; otherwise it is the host search |
| Service.LyrebirdService.SearchProbe | RevitServer/LyrebirdService.cs:955-964 | a remembered probe no longer in the document makes `FindHost` throw, which ends the loop with the document unchanged; otherwise the probe (remembered, or new with the next id) has its first point at the probe point and the attempt is `HostedAttempt` over the last host it touches; leaving the probe out, the document is as it was |
| Service.LyrebirdService.FindHost | RevitServer/LyrebirdService.cs:1741-1866 | the probe is created on first use and then remembered; its first point moves 0.1 above the location for host types 1 and 3 and 0.1 below otherwise; the host is the last touching element of the searched classes; a forgotten probe throws |
| Service.MoveProbe | RevitServer/LyrebirdService.cs:1780-1796 | only the probe's first placement point is moved; every other element is unchanged |
| Service.LyrebirdService.GetFamilyNames | RevitServer/LyrebirdService.cs:33-75 | the cache and the result are the family list, and are empty when the document cannot be read |
| Service.LyrebirdService.GetParameters | RevitServer/LyrebirdService.cs:152-520 | returns the cached list as it stands at the call |
| Service.LyrebirdService.ParametersTask | RevitServer/LyrebirdService.cs:156-517 | the cache is emptied; it receives the parameter list exactly when the type is found (the first family of that name, for families) |
| Service.Contains | RevitServer/LyrebirdService.cs:1075-1111 | the type-name scan finds a name exactly when it is in the list |
| Service.FirstFamilyNamed | RevitServer/LyrebirdService.cs:377-380 | the first family with the name, or none when no family has it |
| Service.FamilyHasType | RevitServer/LyrebirdService.cs:370-516 | the family branch finds the type exactly when the first family of that name has it |
| Tagging.FindExisting | RevitServer/LyrebirdService.cs:1525-1632 | the collector loop returns the lookup: the matching ids in document order, and nothing without the schema |
| Tagging.ScannedKind | RevitServer/LyrebirdService.cs:1537-1611 | walls for "Walls", floors for "Floors", extrusion roofs for "Roofs", family instances for every other category; footprint roofs and ceilings are never scanned |
| Tagging.AssignGuid | RevitServer/LyrebirdService.cs:2128-2186 | the target, when it exists, carries the GUID's text; a missing target changes nothing |
| Tagging.LookupMembers | RevitServer/LyrebirdService.cs:1537-1629 | an id is found if and only if the schema exists and an element with that id is of the scanned class with a readable matching tag; unreadable tags are skipped |
| Tagging.LookupKeepsOrder | RevitServer/LyrebirdService.cs:1537-1629 | the lookup of concatenated element lists is the concatenation of their lookups |
| Tagging.LookupDistinct | RevitServer/LyrebirdService.cs:1537-1629 | with unique element ids, each id is found at most once |
| Tagging.TagRoundTrip | RevitServer/LyrebirdService.cs:2128-2141 | an element of the scanned class that is tagged with g is found by the lookup for g |
| Tagging.FootPrintRoofNeverFound | RevitServer/LyrebirdService.cs:1583-1605 | a footprint roof, which is what roof creation makes, is never found by any lookup |
| Tagging.LookupAfterDelete | RevitServer/LyrebirdService.cs:1634-1642 | deleting elements removes exactly their ids from the lookup and keeps its order |
| Tagging.DeleteTailKeepsHead | RevitServer/LyrebirdService.cs:725-748 | deleting the tail existing[n..] of a lookup makes the lookup return existing[..n] |
| Tagging.RemoveTail | RevitServer/LyrebirdService.cs:737-743 | removing the tail of a list without repetitions leaves its head |
| Parameters.SetParameters | RevitServer/LyrebirdService.cs:1993-2023 | the loop computes `ApplyAll`; parameter names are neither added nor removed |
| Parameters.ApplyOne | RevitServer/LyrebirdService.cs:1997-2022 | one triple: applied when the parameter exists, the text converts, and the kinds agree; otherwise the values are unchanged (`FailureIsSkipped`) |
| Parameters.ApplyAll | RevitServer/LyrebirdService.cs:1995-2023 | the triples in order; its lemmas state that names are kept (`ApplyAllKeys`) with their kinds (`ApplyAllKinds`), that it composes (`ApplyAllAppend`), that failures are skipped, that untouched names keep their values, and that the last successful triple wins |
| Parameters.ApplyAllKinds | RevitServer/LyrebirdService.cs:1995-2023 | assignment never changes the storage kind of a parameter: a converted value of another kind is refused by `Set` |
| Parameters.ConvertValue | RevitServer/LyrebirdService.cs:2000-2017 | the storage-kind dispatch: Double, Integer and ElementId convert the text and fail when the conversion fails; String and every other kind set the raw text |
| Parameters.ToInt32 | RevitServer/LyrebirdService.cs:2006 | an integer conversion succeeds only for a parsed value within 32 bits |
| Parameters.ApplyAllKeys | RevitServer/LyrebirdService.cs:1993-2023 | assignment never adds or removes parameters |
| Parameters.ApplyAllAppend | RevitServer/LyrebirdService.cs:1995-2023 | applying a + b is applying a, then b |
| Parameters.FailureIsSkipped | RevitServer/LyrebirdService.cs:1997-2022 | a failing triple (missing parameter or failed conversion) is as if it were absent, so the triples after it are still attempted |
| Parameters.OtherNamesUntouched | RevitServer/LyrebirdService.cs:1995-2023 | triples that never name a parameter leave its value alone |
| Parameters.LastAssignmentWins | RevitServer/LyrebirdService.cs:1995-2023 | the last successful triple naming a parameter decides its value |
| Placement.PathOf | RevitServer/LyrebirdService.cs:851-1063 | point-based if and only if the first object has an origin; adaptive if and only if it has no origin but has adaptive points; curve-based if and only if it has neither but has curves |
| Placement.ShapeOf | RevitServer/LyrebirdService.cs:1160 | an object is a single segment if and only if it has exactly one curve, otherwise a profile |
| Placement.GetLevel | RevitServer/LyrebirdService.cs:1717-1739 | the loop returns `NearestLevel`: no level without levels, the first level closest to the first point's elevation (earliest on ties), and an exception for two or more levels and no points |
| Placement.NearestLevel | RevitServer/LyrebirdService.cs:1717-1739 | no level exactly when there are no levels; an exception exactly when there are two or more levels and no points (the first point is read only from the second level on); otherwise a level index |
| Placement.NearestLevelIsFirstMin | RevitServer/LyrebirdService.cs:1723-1736 | a chosen level is the first level closest to the first point's elevation: none is closer, every earlier one is strictly farther |
| Placement.FirstNearestIsFirstMin | RevitServer/LyrebirdService.cs:1723-1736 | the search over the first n levels finds one that no level is closer than, and every earlier level is strictly farther (earliest on ties) |
| Placement.FindFamilySymbol | RevitServer/LyrebirdService.cs:1644-1665 | the nested loops return a type of the first family with that name and type (the family index is `SymbolFamily`'s first match); none if and only if no family of that name has the type |
| Placement.SymbolFamily | RevitServer/LyrebirdService.cs:1648-1663 | the first family, among the first n, with that name and that type: an earlier family never has both, and none means no family among them has |
| Placement.ProbePoint | RevitServer/LyrebirdService.cs:1785-1792 | x and y are kept; z is raised 0.1 for host types 1 and 3 and lowered 0.1 otherwise |
| Placement.LastHostAt | RevitServer/LyrebirdService.cs:1798-1862 | none if and only if no element of the searched classes touches the probe; otherwise one that does, with no touching element after it |
| Placement.SearchHost | RevitServer/LyrebirdService.cs:1802-1862 | the collector loop returns `LastHost` (the last match wins) |
| Placement.HostKinds | RevitServer/LyrebirdService.cs:1802-1857 | the classes searched per FAMILY_HOSTING_BEHAVIOR never include family instances (so the probe is never its own host), and are empty exactly outside 1..4 |
| Placement.PlaceAdaptivePoints | RevitServer/LyrebirdService.cs:1033-1043 | point k moves to target k for every k the instance has; targets beyond the instance's points are skipped; the result is `Moved` |
| Creation.UnhostedAttempt | RevitServer/LyrebirdService.cs:893-920 | an instance is made if and only if the object has an origin and creation succeeds; the loop ends only when a rotation is requested with no instance yet |
| Creation.FaceAttempt | RevitServer/LyrebirdService.cs:934-954 | an instance is made if and only if there is an origin, an orientation and a face, and creation succeeds; with no face the previous instance is kept |
| Creation.HostedAttempt | RevitServer/LyrebirdService.cs:955-964 | an instance is made if and only if a host is found and creation succeeds; the previous instance is kept if and only if no host is found |
| Creation.SegmentCurve | RevitServer/LyrebirdService.cs:1172-1186 | an index exception if and only if a line has fewer than 2 control points or an arc fewer than 3; no curve if and only if the type is neither |
| Creation.CurveAttempt | RevitServer/LyrebirdService.cs:1156-1500 | one object of the curve path; `CurveAttemptKinds`, `LineFamilyAttempt` and `FailedRoofStops` state which classes it creates, when a line-based family is created or kept, and when a failed roof ends the loop |
| Creation.AllPoints | RevitServer/LyrebirdService.cs:1340-1352 | the collected points are empty if and only if every curve has no control points |
| Creation.CurveAttemptKinds | RevitServer/LyrebirdService.cs:1156-1500 | `CurveAttempt`: walls come only from wall batches, floors from floor batches, roofs from roof batches, and single-segment family instances from family batches; only a family batch keeps a carried instance |
| Creation.LineFamilyAttempt | RevitServer/LyrebirdService.cs:1254-1320 | a single-segment family object: the loop ends when the segment has too few points, the level search throws, or no type category is known. An instance is made exactly when the segment builds a usable curve (a line or arc, and no arc for a "Detail Items" type) and creation succeeds. Otherwise the carried instance is finished again |
| Creation.FailedRoofStops | RevitServer/LyrebirdService.cs:1459-1497 | a failed roof creation is skipped only when its first point lies on the chosen level; otherwise the loop ends |
| Creation.FinishedShape | RevitServer/LyrebirdService.cs:919-1495 | finishing changes only the target: it gets the converted parameters and the tag, and every id, class and other element is kept |
| Building.Finish | RevitServer/LyrebirdService.cs:916-919 | SetParameters, then AssignGuid, on the target |
| Building.Place | RevitServer/LyrebirdService.cs:896-919 | a successful creation appends exactly one finished element with the next id |
| Building.Apply | RevitServer/LyrebirdService.cs:893-968 | one loop step: a new finished element, the carried instance finished again, or nothing; the creation invariant is kept |
| Building.CreateUnhosted | RevitServer/LyrebirdService.cs:891-921 | keeps the creation invariant; when every object has an origin and creates, each becomes one tagged instance with its parameters, in order, with consecutive ids, after the old elements |
| Building.InstancesPlacedAt | RevitServer/LyrebirdService.cs:891-921 | the k-th placed instance has id n0 + k and the k-th object's parameters and tag |
| Building.PlaceAdaptive | RevitServer/LyrebirdService.cs:1029-1049 | one new instance with the moved placement points, finished |
| Building.CreateAdaptive | RevitServer/LyrebirdService.cs:1027-1051 | keeps the creation invariant (the last instance may be untagged when its object has no points); when every object creates and has points, one finished instance per object with its moved points is appended, in order, with consecutive ids |
| Building.AdaptiveStep | RevitServer/LyrebirdService.cs:1029-1049 | one object with points: the placement so far grows by that object's instance |
| Building.AdaptivePlacedAt | RevitServer/LyrebirdService.cs:1029-1049 | the k-th adaptive instance has id n0 + k, the k-th object's parameters and tag, and its moved placement points |
| Building.CreateCurves | RevitServer/LyrebirdService.cs:1156-1500 | keeps the creation invariant with the classes the batch creates; when every attempt creates, one finished element of the attempt's class per object is appended, in order, with consecutive ids |
| Building.CurveStep | RevitServer/LyrebirdService.cs:1156-1500 | a creating attempt appends exactly one finished element of its class with the next id |
| Building.CurvesPlacedAt | RevitServer/LyrebirdService.cs:1156-1500 | the k-th curve element has id n0 + k, the class of the k-th object's attempt, and its parameters and tag |
| Building.CreatedKindScanned | RevitServer/LyrebirdService.cs:1537-1611 | whether a batch's own elements are of the class the lookup scans for its category: never for roofs, never for walls or floors made by point or adaptive paths, always otherwise |
| Building.BatchOf | RevitServer/LyrebirdService.cs:1075-1128 | the wall, floor and roof batches are chosen exactly by the category names "Walls", "Floors" and "Roofs" |
| Building.GrownOutcome | RevitServer/LyrebirdService.cs:838-1514 | the loop invariant implies the creation outcome stated on membership |
| Ordering.SortBy | RevitServer/LyrebirdService.cs:203-204 | the sorted list is a permutation of the input and is ordered by key |
| Ordering.Insert | RevitServer/LyrebirdService.cs:65 | insertion keeps the list sorted and adds exactly one copy of the element |
| Queries.FamilyListShape | RevitServer/LyrebirdService.cs:44-66 | a successful query lists every loadable family and the five system families, sorted by family name; a failed one is empty |
| Queries.FamilyRefs | RevitServer/LyrebirdService.cs:47-51 | one (category, name) entry per family, in collector order |
| Queries.ParameterListShape | RevitServer/LyrebirdService.cs:203-220 | sorted type parameters flagged IsType, then sorted instance parameters not flagged, each a permutation of its source |
| Queries.Describe | RevitServer/LyrebirdService.cs:205-220 | one description per parameter, with its name, storage kind and flag |
| RevitDocument.Document.Delete | RevitServer/LyrebirdService.cs:1639 | the document loses exactly the listed elements and keeps the order of the rest (dependent elements are not deleted with them, see Left out) |
| RevitDocument.WithoutMembers | RevitServer/LyrebirdService.cs:1639 | an element survives deletion if and only if its id is not listed |
| RevitDocument.WithoutAppend | RevitServer/LyrebirdService.cs:1639 | deletion keeps the order of the elements left |
| RevitDocument.WithoutUnique | RevitServer/LyrebirdService.cs:1639 | deletion keeps element ids unique |
| RevitDocument.Find | RevitServer/LyrebirdService.cs:1798 | the element found has the id, and none means no element has it |
| Client.Step | GHLyrebirdClient/ActionTestComponent.cs:49-75 | the channel is attempted if and only if the trigger is on and the latch is armed; afterwards the latch is armed exactly when the trigger is off |
| Client.RunFiresOnRisingEdges | GHLyrebirdClient/ActionTestComponent.cs:49-75 | over a sequence of solutions, the channel is attempted exactly on rising edges of the trigger; the first solution rises from the initial latch |
| Client.HeldTriggerSendsOnce | GHLyrebirdClient/ActionTestComponent.cs:49-52 | holding the trigger through n solutions sends once |
| Client.Request | GHLyrebirdClient/ActionTestComponent.cs:59-92 | the request has exactly the keys CommandGuid, holding fa988416-732d-47f0-9140-9a8b22306b07, and AssemblyPath |
| Client.ReplyWritten | GHLyrebirdClient/ActionTestComponent.cs:57-70 | as written: the failure message when the channel does not open; nothing for a null reply or one without docName; otherwise the document name; always to output 1 |
| Client.WrittenReplyNeverShown | GHLyrebirdClient/ActionTestComponent.cs:37-69 | as written, the component's one output never shows anything |
| Client.WrittenReplyLost | GHLyrebirdClient/ActionTestComponent.cs:61-65 | a reply with docName "Project1" is written to output 1, and the output stays empty |
| Client.Reply | GHLyrebirdClient/ActionTestComponent.cs:57-70 | the same three reply shapes, written to output 0 |
| Client.ReplyShown | GHLyrebirdClient/ActionTestComponent.cs:37-70 | with output 0: the document name is shown for a reply that has one, the failure message when the channel does not open, and nothing otherwise |
| Client.ActionTestComponent.SolveInstance | GHLyrebirdClient/ActionTestComponent.cs:44-76 | the latch follows `Step`; an attempt opens the channel for "Revit2017" (lines 12, 55); the request is sent exactly when the attempt opens a channel; the write is the `Reply` of an attempt, and nothing otherwise |

## Left out

- Locking, `Monitor.Wait`, the wait timeout and the queue of pending actions. Each operation is one atomic call on one active document. Of the locking, the model keeps only whether the waiting thread holds `_locker` (`AfterWait`). As written, `CreateOrModify` faults before its queued action has run. The model runs the action first and then faults. The `Monitor.Pulse` in the action's `finally` (line 810) also runs without the lock and throws after the action's effects; that exception is not modelled.
- C# `double` is modelled as exact `real`: control-point coordinates, `DoubleValue` parameters and level elevations. The model has no rounding and no NaN. So the level distances compared with `<` in `GetLevel` (LyrebirdService.cs:1731) are exact, and ties are decided on exact values where rounding could create or break them. A NaN Z, which makes every comparison false and keeps the first level, is not modelled. The exact tests `cp[0].Z != elevation` (`FailedRoofStops`) and `orientation.Z == 0` (`Rotates`) are decided exactly as well.
- `GetParameters` enqueues `ParametersTask` and returns the cache without waiting. The model offers the two as separate calls.
- The task dialog. Its answer is the `choice` input of `CreateOrModify`.
- Native geometry: curves, arcs, splines, offsets and rotation by `Atan2`. `FindFace` is an oracle (`faceFound`), and so are element intersection (`touches`) and whether a native creation call succeeds (`creates`).
- The probe family file: writing it from the resource (`WriteResource`), loading it, and deleting the loaded family. Creating the probe instance always succeeds in the model.
- `Convert.ToDouble` and the parsing part of `Convert.ToInt32`, which depend on the culture. They are given as `Parsers`; only the 32-bit range of `ToInt32` is written out.
- `String.Compare` is culture-sensitive. The model sorts in ordinal (character code) order instead, with a stable insertion sort for `List.Sort`.
- `GetTypeNames`, `GetDocumentName` and `GetCurveArray` are not part of this model.
- `CreateOrModify`'s transaction is committed even after a caught failure, and the model does not represent transactions. Every change a path makes is kept, which matches what the commit does.
- The error dialogs in the catch blocks are not modelled. What the model keeps is which exceptions are caught and which end a loop.
- DeleteExisting: Revit's `Document.Delete` also deletes the elements that depend on the listed ones (instances hosted on a deleted wall, for example). The modelled document records no dependencies between elements, so only the listed elements are removed. Deletion always succeeds in the model; an exception from the host's `Delete` is not modelled.
- Parameters.SetParameters: read-only parameters are not modelled. `Parameter.Set` on one throws and that triple is skipped, but the model has no read-only flag, so it assigns such a parameter whenever name, conversion and kind agree.
- CreateObjects: for families placed by the host search (FAMILY_HOSTING_BEHAVIOR 1 to 4) the ordered placement is not stated in terms of the inputs. Whether an object finds a host depends on the probe moved for it. The placement is stated in `CreateHosted`'s contract, through its attempt log.
- CreateFromSymbol: the same gap as `CreateObjects` for the host-search families (hosting behaviour 1 to 4).
- CreateHosted: after a face-based batch, a remembered probe that had been deleted from the document is forgotten in the model. In the source, reading the deleted probe's family during the cleanup throws, the exception is caught, and the stale reference is kept. The model treats the cleanup as always succeeding.
- `ParametersTask` on families: in the source, a failed temporary instance throws inside the queued action. In the model, the instance parameters are an input.
- `ParametersTask` does not model a family with several types of the same name; the first one found is used.
- `LBChannel` and `IGH_DataAccess` are not modelled themselves. Whether the channel opens and what it replies are inputs. `SetData` is assumed to refuse an output index the component did not register.
- `Client.ActionTestComponent.SolveInstance` models the corrected write to output 0; `Client.ReplyWritten` is the as-written write to output 1.
- The model always stores the document name as text, whereas the source reads the reply value as an object.

## Findings

| source | as written | input that shows it | evidently intended | confidence | as-written member | corrected member |
|---|---|---|---|---|---|---|
| GHLyrebirdClient/ActionTestComponent.cs:65,69 | both writes go to `DA.SetData(1, …)`, but the component registers a single output, "Document", at index 0 (line 37) | trigger on, channel opens, reply `{"docName": "Project1"}`: the document name goes to an output that does not exist, and "Document" stays empty; the failure message is lost the same way | `DA.SetData(0, …)` | medium, not executed; it relies on `SetData` refusing an unregistered index | Client.ReplyWritten, Client.WrittenReplyNeverShown, Client.WrittenReplyLost | Client.Reply, Client.ReplyShown |
| RevitServer/LyrebirdService.cs:813 | `CreateOrModify` calls `Monitor.Wait(_locker, WAIT_TIMEOUT)` without `lock (_locker)`, unlike `GetFamilyNames` (lines 36, 72) and `GetDocumentName` (lines 820, 833) | any call, `incoming == []` included: `Monitor.Wait` throws `SynchronizationLockException`, so `return true` (line 815) is never reached and the caller gets a fault, while the queued action still runs | the enqueue and the wait inside `lock (_locker)`, so the call returns true | high, not executed | Service.LyrebirdService.CreateOrModifyAsWritten | Service.LyrebirdService.CreateOrModify |
