/** The "Edit Resource" dialog (src/components/features/EditResourceModal.tsx):
    the form fields, the tag field, the submit that updates the resource and
    moves it between collections, and the summary generation. The backend
    calls are recorded in order in `calls`; whether a call throws, and with
    which message, are inputs. */
module EditResource {
  import opened Common
  import opened TagInput

  /** The fields `handleSubmit` sends to `updateResource`; the edited tags
      are not among them. */
  datatype Payload = Payload(title: string, url: string, kind: string, description: Option<string>)

  /** The backend calls the dialog makes. */
  datatype Call =
    | UpdateResource(id: string, payload: Payload)
    | GetCollectionResources(collectionId: string)
    | RemoveFromCollection(collectionId: string, resourceId: string)
    | AddToCollection(collectionId: string, resourceId: string)
    | WriteSummary(resourceId: string, summary: string, status: string, updatedAt: int)

  /** The update payload: the notes become the description, or null when empty. */
  function SubmitPayload(title: string, url: string, kind: string, notes: string): (p: Payload)
    ensures p.title == title && p.url == url && p.kind == kind
    ensures p.description.None? <==> notes == ""
    ensures p.description.Some? ==> p.description.value == notes
  {
    Payload(title, url, kind, if notes == "" then None else Some(notes))
  }

  /** The collection moves of a submit: when the current collection differs
      from the selection, removal from the current one if any, then addition
      to the selected one if any; nothing when they are equal. */
  function MovePlan(id: string, current: Option<string>, selected: Option<string>): (plan: seq<Call>)
    ensures current == selected ==> plan == []
    ensures |plan| <= 2
  {
    if current != selected then
      (if Truthy(current) then [RemoveFromCollection(current.value, id)] else []) +
      (if Truthy(selected) then [AddToCollection(selected.value, id)] else [])
    else []
  }

  /** The calls the submit evidently intends: the update, then the moves away
      from `current`, the collection that holds the resource. */
  function IntendedPlan(id: string, payload: Payload, current: Option<string>, selected: Option<string>): (plan: seq<Call>)
    ensures |plan| >= 1 && plan[0] == UpdateResource(id, payload) && plan[1..] == MovePlan(id, current, selected)
    ensures current == selected ==> plan == [UpdateResource(id, payload)]
  {
    [UpdateResource(id, payload)] + MovePlan(id, current, selected)
  }

  /** The user's collections as the backend holds them: collection id to the
      ids of its resources, newest first. */
  type Collections = map<string, seq<string>>

  const LookupError: string := "Collection not found or access denied"

  /** `getCollectionResources(key)` (src/lib/dataService.ts:304-337): it
      throws unless the user has a collection whose id is `key`, and
      otherwise lists that collection's resources. */
  function CollectionResources(cols: Collections, key: string): (r: Result<seq<string>>)
    ensures r.Err? <==> key !in cols
    ensures r.Err? ==> r.message == LookupError
    ensures r.Ok? ==> r.value == cols[key]
  {
    if key in cols then Ok(cols[key]) else Err(LookupError)
  }

  /** `currentCollections[0]?.id`: the id of the first row, absent for none. */
  function FirstId(rows: seq<string>): (r: Option<string>)
    ensures r.None? <==> rows == []
    ensures r.Some? ==> r.value == rows[0] && r.value in rows
  {
    if rows == [] then None else Some(rows[0])
  }

  /** What a submit past the guard ends with: the calls issued, and the
      error it records (None when it succeeds). */
  datatype SubmitResult = SubmitResult(calls: seq<Call>, error: Option<string>)

  /** `handleSubmit` past the guard, as written: the update, then the lookup
      keyed by the RESOURCE id, then the moves away from the first row's id.
      A thrown call ends the submit with its message as the error. */
  function AsWrittenSubmit(id: string, payload: Payload, cols: Collections, selected: Option<string>,
                           failing: set<Call>, message: Option<string>): (r: SubmitResult)
    ensures r.calls != [] && r.calls[0] == UpdateResource(id, payload)
    ensures UpdateResource(id, payload) in failing ==>
              r == SubmitResult([UpdateResource(id, payload)], Some(ErrorText(message, "Failed to update resource")))
    ensures UpdateResource(id, payload) !in failing ==>
              |r.calls| >= 2 && r.calls[1] == GetCollectionResources(id)
    ensures UpdateResource(id, payload) !in failing && id !in cols ==>
              r == SubmitResult([UpdateResource(id, payload), GetCollectionResources(id)], Some(LookupError))
    ensures UpdateResource(id, payload) !in failing && id in cols ==>
              var moves := MovePlan(id, FirstId(cols[id]), selected);
              && r.calls == [UpdateResource(id, payload), GetCollectionResources(id)] + Issued(moves, failing)
              && (r.error.None? <==> AllSucceed(moves, failing))
              && (r.error.Some? ==> r.error == Some(ErrorText(message, "Failed to update resource")))
    ensures r.error.None? ==> UpdateResource(id, payload) !in failing && id in cols
  {
    var update := UpdateResource(id, payload);
    if update in failing then SubmitResult([update], Some(ErrorText(message, "Failed to update resource")))
    else match CollectionResources(cols, id)
      case Err(e) => SubmitResult([update, GetCollectionResources(id)], Some(e))
      case Ok(rows) =>
        var moves := MovePlan(id, FirstId(rows), selected);
        SubmitResult([update, GetCollectionResources(id)] + Issued(moves, failing),
                     if AllSucceed(moves, failing) then None else Some(ErrorText(message, "Failed to update resource")))
  }

  /** The calls actually issued when the calls in `failing` throw: the plan up to
      and including the first failing call. */
  function Issued(plan: seq<Call>, failing: set<Call>): seq<Call>
  {
    if plan == [] then []
    else if plan[0] in failing then [plan[0]]
    else [plan[0]] + Issued(plan[1..], failing)
  }

  /** The issued calls are a prefix of the plan; all but the last succeed;
      the whole plan is issued exactly when no call before the last throws,
      and otherwise the last issued call is the one that threw. */
  lemma {:induction false} IssuedProperties(plan: seq<Call>, failing: set<Call>)
    ensures var r := Issued(plan, failing);
      && |r| <= |plan| && r == plan[..|r|]
      && (forall i :: 0 <= i < |r| - 1 ==> r[i] !in failing)
      && (r == plan <==> forall i :: 0 <= i < |plan| - 1 ==> plan[i] !in failing)
      && (r != plan ==> r != [] && (r[|r| - 1] in failing))
    decreases |plan|
  {
    if plan != [] && plan[0] !in failing {
      IssuedProperties(plan[1..], failing);
      var r := Issued(plan, failing);
      var t := Issued(plan[1..], failing);
      assert r == [plan[0]] + t;
      forall i | 0 <= i < |r| - 1 ensures r[i] !in failing {
        if i > 0 { assert r[i] == t[i - 1]; }
      }
      if forall i :: 0 <= i < |plan| - 1 ==> plan[i] !in failing {
        forall i | 0 <= i < |plan[1..]| - 1 ensures plan[1..][i] !in failing {
          assert plan[1..][i] == plan[i + 1];
        }
      }
      if r == plan {
        forall i | 0 <= i < |plan| - 1 ensures plan[i] !in failing {
          if i > 0 { assert plan[i] == plan[1..][i - 1]; }
        }
      }
    }
  }

  /** No call of the plan throws. */
  predicate AllSucceed(plan: seq<Call>, failing: set<Call>)
  {
    forall i :: 0 <= i < |plan| ==> plan[i] !in failing
  }

  /** The error text: the thrown Error's message, or the fallback for a
      thrown value that is not an Error. */
  function ErrorText(message: Option<string>, fallback: string): string
  {
    if message.Some? then message.value else fallback
  }

  /** Collection membership as (collection id, resource id) pairs, and the
      effect of a call on it. */
  function Apply(m: set<(string, string)>, c: Call): set<(string, string)>
  {
    match c
    case RemoveFromCollection(cid, rid) => m - {(cid, rid)}
    case AddToCollection(cid, rid) => m + {(cid, rid)}
    case _ => m
  }

  function ApplyAll(m: set<(string, string)>, cs: seq<Call>): set<(string, string)>
    decreases |cs|
  {
    if cs == [] then m else ApplyAll(Apply(m, cs[0]), cs[1..])
  }

  /** The intended submit leaves the resource in the selected collection and
      no longer in a different current one; memberships of other resources
      do not change. `current` is the intended lookup's answer: a collection
      holding the resource. */
  lemma {:induction false} SubmitMovesResource(id: string, payload: Payload, current: Option<string>,
                                               selected: Option<string>, m: set<(string, string)>)
    requires Truthy(current) ==> (current.value, id) in m
    ensures var after := ApplyAll(m, IntendedPlan(id, payload, current, selected));
      && (Truthy(selected) ==> (selected.value, id) in after)
      && (Truthy(current) && current != selected ==> (current.value, id) !in after)
      && (forall cid, rid :: rid != id ==> ((cid, rid) in after <==> (cid, rid) in m))
  {
    var plan := IntendedPlan(id, payload, current, selected);
    assert ApplyAll(m, plan) == ApplyAll(m, plan[1..]);
    if current == selected {
      assert plan[1..] == [];
    } else {
      var rest := plan[1..];
      var m1 := if Truthy(current) then m - {(current.value, id)} else m;
      var m2 := if Truthy(selected) then m1 + {(selected.value, id)} else m1;
      if Truthy(current) {
        assert rest[0] == RemoveFromCollection(current.value, id);
        assert ApplyAll(m, rest) == ApplyAll(m1, rest[1..]);
        if Truthy(selected) {
          assert rest[1..][0] == AddToCollection(selected.value, id) && rest[1..][1..] == [];
          assert ApplyAll(m1, rest[1..]) == ApplyAll(m2, []);
        } else {
          assert rest[1..] == [];
        }
      } else if Truthy(selected) {
        assert rest[0] == AddToCollection(selected.value, id) && rest[1..] == [];
        assert ApplyAll(m, rest) == ApplyAll(m2, []);
      } else {
        assert rest == [];
      }
      assert ApplyAll(m, plan) == m2;
    }
  }

  /** A resource "r1" kept in collection "c1", moved to "c2": as written the
      lookup is keyed by "r1", which names no collection, so the submit
      throws after the update and moves nothing; the intended plan, with
      "c1" as the current collection, moves the resource. */
  lemma LookupKeyedByResourceId()
    ensures var p := Payload("Title", "https://example.com", "article", None);
      var cols: Collections := map["c1" := ["r1"]];
      && AsWrittenSubmit("r1", p, cols, Some("c2"), {}, None)
           == SubmitResult([UpdateResource("r1", p), GetCollectionResources("r1")], Some(LookupError))
      && var after := ApplyAll({("c1", "r1")}, IntendedPlan("r1", p, Some("c1"), Some("c2")));
         ("c2", "r1") in after && ("c1", "r1") !in after
  {
    var p := Payload("Title", "https://example.com", "article", None);
    SubmitMovesResource("r1", p, Some("c1"), Some("c2"), {("c1", "r1")});
  }

  /** The answer of POST /api/summarize as the dialog sees it. */
  datatype SummaryAnswer =
    | Threw(message: Option<string>)
    | NotOk
    | Answered(summary: Option<string>)

  /** The collection branch of `handleSubmit`: the moves issued until one
      throws, and whether one did. */
  method IssueMoves(id: string, current: Option<string>, selected: Option<string>, failing: set<Call>)
    returns (issued: seq<Call>, failed: bool)
    ensures issued == Issued(MovePlan(id, current, selected), failing)
    ensures failed <==> !AllSucceed(MovePlan(id, current, selected), failing)
  {
    issued, failed := [], false;
    if current != selected {
      var add: seq<Call> := if Truthy(selected) then [AddToCollection(selected.value, id)] else [];
      if Truthy(selected) {
        IssuedCons(AddToCollection(selected.value, id), [], failing);
      }
      if Truthy(current) {
        IssuedCons(RemoveFromCollection(current.value, id), add, failing);
        issued := [RemoveFromCollection(current.value, id)];
        failed := RemoveFromCollection(current.value, id) in failing;
      }
      if !failed && Truthy(selected) {
        issued := issued + [AddToCollection(selected.value, id)];
        failed := AddToCollection(selected.value, id) in failing;
      }
    }
  }

  class EditDialog {
    const resourceId: string
    var url: string
    var title: string
    var kind: string
    var notes: string
    var selectedCollection: Option<string>
    const editor: TagEditor
    var error: Option<string>
    var isLoading: bool
    var isGeneratingSummary: bool
    /** How often `onSuccess` was called, and whether `onClose` was. */
    var successes: nat
    var closed: bool
    /** The backend calls made so far, oldest first. */
    var calls: seq<Call>

    predicate Valid()
      reads editor
    {
      editor.Valid()
    }

    /** The initial state: the resource's url and description or empty
        strings, its title and type, no tags and no selected collection. */
    constructor(id: string, resourceUrl: Option<string>, resourceTitle: string, resourceType: string,
                description: Option<string>)
      ensures resourceId == id && url == OrElse([resourceUrl], "") && title == resourceTitle && kind == resourceType
      ensures notes == OrElse([description], "") && selectedCollection.None?
      ensures editor.tags == [] && editor.tagInput == "" && fresh(editor)
      ensures error.None? && !isLoading && !isGeneratingSummary && successes == 0 && !closed && calls == []
      ensures Valid()
    {
      resourceId := id;
      url := OrElse([resourceUrl], "");
      title := resourceTitle;
      kind := resourceType;
      notes := OrElse([description], "");
      selectedCollection := None;
      editor := new TagEditor();
      error := None;
      isLoading, isGeneratingSummary := false, false;
      successes := 0;
      closed := false;
      calls := [];
    }

    /** `handleSubmit`. `cols` is the user's collections as the backend
        holds them, and `failing`/`message` say which other calls throw and
        with what message. With an empty url or title only the error is
        cleared. Otherwise the submit runs as `AsWrittenSubmit` says: a
        throw sets the error and keeps the dialog open, success calls
        `onSuccess` and `onClose`. */
    method Submit(cols: Collections, failing: set<Call>, message: Option<string>)
      requires Valid()
      modifies this
      ensures url == old(url) && title == old(title) && kind == old(kind) && notes == old(notes)
      ensures selectedCollection == old(selectedCollection) && isGeneratingSummary == old(isGeneratingSummary)
      ensures url == "" || title == "" ==>
        error.None? && isLoading == old(isLoading) && calls == old(calls) && successes == old(successes) && closed == old(closed)
      ensures url != "" && title != "" ==> !isLoading
      ensures url != "" && title != "" ==>
        var r := AsWrittenSubmit(resourceId, SubmitPayload(title, url, kind, notes), cols, selectedCollection, failing, message);
        && calls == old(calls) + r.calls
        && (r.error.None? ==> error.None? && successes == old(successes) + 1 && closed)
        && (r.error.Some? ==> error == r.error && successes == old(successes) && closed == old(closed))
      ensures Valid()
    {
      error := None;
      if url != "" && title != "" {
        Save(cols, failing, message);
      }
    }

    /** The body of `handleSubmit` past the guard: the update, the lookup of
        the current collection (keyed by the resource id), then the moves. */
    method Save(cols: Collections, failing: set<Call>, message: Option<string>)
      modifies this
      ensures url == old(url) && title == old(title) && kind == old(kind) && notes == old(notes)
      ensures selectedCollection == old(selectedCollection) && !isLoading && isGeneratingSummary == old(isGeneratingSummary)
      ensures var r := AsWrittenSubmit(resourceId, SubmitPayload(title, url, kind, notes), cols, selectedCollection, failing, message);
        && calls == old(calls) + r.calls
        && (r.error.None? ==> error == old(error) && successes == old(successes) + 1 && closed)
        && (r.error.Some? ==> error == r.error && successes == old(successes) && closed == old(closed))
    {
      isLoading := true;
      var payload := SubmitPayload(title, url, kind, notes);
      var update := UpdateResource(resourceId, payload);
      var issued: seq<Call>, failure: Option<string>;
      if update in failing {
        issued, failure := [update], Some(ErrorText(message, "Failed to update resource"));
      } else {
        var found := CollectionResources(cols, resourceId);
        if found.Err? {
          issued, failure := [update, GetCollectionResources(resourceId)], Some(found.message);
        } else {
          var moved, failed := IssueMoves(resourceId, FirstId(found.value), selectedCollection, failing);
          issued := [update, GetCollectionResources(resourceId)] + moved;
          failure := if failed then Some(ErrorText(message, "Failed to update resource")) else None;
        }
      }
      calls := calls + issued;
      if failure.Some? {
        error := failure;
      } else {
        successes := successes + 1;
        closed := true;
      }
      isLoading := false;
    }

    /** `handleGenerateSummary` for the dialog's resource: a non-OK answer
        sets 'Failed to generate summary', a thrown error its message; a
        non-empty summary is written with status 'completed' at `now` and
        calls `onSuccess`; an empty one writes nothing. The dialog stays open. */
    method GenerateSummary(answer: SummaryAnswer, now: int, failing: set<Call>, message: Option<string>)
      modifies this
      ensures url == old(url) && title == old(title) && kind == old(kind) && notes == old(notes)
      ensures selectedCollection == old(selectedCollection) && closed == old(closed) && !isGeneratingSummary
      ensures isLoading == old(isLoading)
      ensures answer.NotOk? ==> error == Some("Failed to generate summary") && calls == old(calls) && successes == old(successes)
      ensures answer.Threw? ==>
        error == Some(ErrorText(answer.message, "Failed to generate summary")) && calls == old(calls) && successes == old(successes)
      ensures answer.Answered? && !Truthy(answer.summary) ==> error.None? && calls == old(calls) && successes == old(successes)
      ensures answer.Answered? && Truthy(answer.summary) ==>
        calls == old(calls) + [WriteSummary(resourceId, answer.summary.value, "completed", now)]
      ensures answer.Answered? && Truthy(answer.summary) && WriteSummary(resourceId, answer.summary.value, "completed", now) !in failing ==>
        error.None? && successes == old(successes) + 1
      ensures answer.Answered? && Truthy(answer.summary) && (WriteSummary(resourceId, answer.summary.value, "completed", now) in failing) ==>
        error == Some(ErrorText(message, "Failed to generate summary")) && successes == old(successes)
      ensures calls != old(calls) ==> |calls| == |old(calls)| + 1 && calls[|calls| - 1].status == "completed"
    {
      isGeneratingSummary := true;
      error := None;
      match answer {
        case NotOk =>
          error := Some("Failed to generate summary");
        case Threw(m) =>
          error := Some(ErrorText(m, "Failed to generate summary"));
        case Answered(summary) =>
          if Truthy(summary) {
            calls := calls + [WriteSummary(resourceId, summary.value, "completed", now)];
            if WriteSummary(resourceId, summary.value, "completed", now) in failing {
              error := Some(ErrorText(message, "Failed to generate summary"));
            } else {
              successes := successes + 1;
            }
          }
      }
      isGeneratingSummary := false;
    }
  }

  /** Issuing a call ahead of a plan: the rest is issued only when it succeeds. */
  lemma IssuedCons(c: Call, rest: seq<Call>, failing: set<Call>)
    ensures Issued([c] + rest, failing) == if c in failing then [c] else [c] + Issued(rest, failing)
    ensures AllSucceed([c] + rest, failing) <==> c !in failing && AllSucceed(rest, failing)
  {
    var plan := [c] + rest;
    assert plan[0] == c && plan[1..] == rest;
    if c !in failing && AllSucceed(rest, failing) {
      forall i | 0 <= i < |plan| ensures plan[i] !in failing {
        if i > 0 { assert plan[i] == rest[i - 1]; }
      }
    }
  }
}
