/** The split worker: for one issue, deduct one status-dependent step of story
    points, and when points remain, create a clone carrying them and close it;
    finally set the original's points to the step. Every backend call may
    fail, and a failure stops the remaining calls. */
module Consumer {
  import opened Json
  import opened Configs

  /** The fields copied from the original onto its clone. */
  const CLONE_KEYS: seq<string> := ["assignee", "issuetype", "project", "summary", "reporter", "parent", "labels"]

  /** The configured field names are distinct from each other and from the
      copied keys. */
  lemma FieldNamesDistinct()
    ensures STORY_POINT_FIELD_NAME != SPRINT_FIELD_NAME
    ensures STORY_POINT_FIELD_NAME !in CLONE_KEYS && SPRINT_FIELD_NAME !in CLONE_KEYS
    ensures "summary" in CLONE_KEYS && "summary" != STORY_POINT_FIELD_NAME && "summary" != SPRINT_FIELD_NAME
  {
    assert STORY_POINT_FIELD_NAME[16] != SPRINT_FIELD_NAME[16];
    assert forall k :: k in CLONE_KEYS ==> |k| < 10;
  }

  /** The job payload the queue delivers. */
  datatype JobPayload = JobPayload(issueIdOrKeys: string)

  /** `issue.fields.status` can be dereferenced (it is neither undefined nor null). */
  predicate StatusReadable(f: Fields) {
    "status" in f && f["status"] != Null
  }

  /** `issue.fields.issuetype` can be dereferenced. */
  predicate IssueTypeReadable(f: Fields) {
    "issuetype" in f && f["issuetype"] != Null
  }

  /** `issue.fields.status.name === "Pull Request"`. */
  predicate IsPullRequest(f: Fields) {
    StatusReadable(f) && Prop(f["status"], "name") == Some(Str(PULL_REQUEST_STATUS))
  }

  /** The points deducted by one split. */
  function Step(f: Fields): (step: real)
    ensures step == PULL_REQUEST_POINT <==> IsPullRequest(f)
    ensures step == QA_POINT <==> !IsPullRequest(f)
    ensures step > 0.0
  {
    if IsPullRequest(f) then PULL_REQUEST_POINT else QA_POINT
  }

  /** `Number(issue.fields[STORY_POINT_FIELD_NAME] ?? 0)` for a missing, null
      or numeric field; other kinds of value are read as 0 (see README). */
  function Points(f: Fields): (p: real)
    ensures STORY_POINT_FIELD_NAME !in f || f[STORY_POINT_FIELD_NAME] == Null ==> p == 0.0
    ensures STORY_POINT_FIELD_NAME in f && f[STORY_POINT_FIELD_NAME].Num? ==> p == f[STORY_POINT_FIELD_NAME].n
  {
    match Lookup(f, STORY_POINT_FIELD_NAME)
    case Some(Num(n)) => n
    case _ => 0.0
  }

  /** The points the clone would carry. */
  function Remainder(f: Fields): (r: real)
    ensures r + Step(f) == Points(f)
  {
    Points(f) - Step(f)
  }

  /** An issue without story points is never cloned. */
  lemma MissingPointsNoClone(f: Fields)
    requires STORY_POINT_FIELD_NAME !in f
    ensures Remainder(f) == -Step(f) && Remainder(f) <= 0.0
  {
  }

  /** `!issue.fields.issuetype.subtask`'s negation; only evaluated once the
      issue type is known to be readable. */
  predicate IsSubtask(f: Fields) {
    IssueTypeReadable(f) && match Prop(f["issuetype"], "subtask")
                             case Some(v) => Truthy(v)
                             case None => false
  }

  /** `issue.fields[SPRINT_FIELD_NAME]?.[0]?.id`: the id of the first sprint
      in the original's list, or undefined. */
  function FirstSprintId(f: Fields): (id: Option<Value>)
    ensures SPRINT_FIELD_NAME !in f ==> id.None?
    ensures SPRINT_FIELD_NAME in f && (f[SPRINT_FIELD_NAME] == Null || f[SPRINT_FIELD_NAME] == Arr([])) ==> id.None?
    ensures SPRINT_FIELD_NAME in f && f[SPRINT_FIELD_NAME].Arr? && |f[SPRINT_FIELD_NAME].items| > 0 ==>
              id == Prop(f[SPRINT_FIELD_NAME].items[0], "id")
  {
    match OptFirst(Lookup(f, SPRINT_FIELD_NAME))
    case Some(Null) => None
    case Some(first) => Prop(first, "id")
    case None => None
  }

  /** The clone's summary: the original's, followed by " - SPLIT". */
  function SplitSummary(f: Fields): (s: string)
    ensures |s| >= 8 && s[|s| - 8..] == " - SPLIT"
    ensures "summary" in f && f["summary"].Str? ==> s == f["summary"].s + " - SPLIT"
    ensures "summary" !in f ==> s == "undefined - SPLIT"
  {
    TemplateText(Lookup(f, "summary")) + " - SPLIT"
  }

  /** The override object `cloneIssue` receives from `handleSplit`. The
      sprint key is absent for subtasks, and also when the sprint id is
      undefined, since serialisation drops undefined-valued keys. */
  function CloneOverrides(f: Fields): (o: Fields)
    ensures forall k :: k in o ==> k == STORY_POINT_FIELD_NAME || k == SPRINT_FIELD_NAME || k == "summary"
    ensures STORY_POINT_FIELD_NAME in o && o[STORY_POINT_FIELD_NAME] == Num(Remainder(f))
    ensures "summary" in o && o["summary"] == Str(SplitSummary(f))
    ensures SPRINT_FIELD_NAME in o <==> !IsSubtask(f) && FirstSprintId(f).Some?
    ensures SPRINT_FIELD_NAME in o ==> o[SPRINT_FIELD_NAME] == FirstSprintId(f).value
  {
    FieldNamesDistinct();
    var sprint: Fields :=
      if !IsSubtask(f) && FirstSprintId(f).Some? then map[SPRINT_FIELD_NAME := FirstSprintId(f).value] else map[];
    sprint + map[STORY_POINT_FIELD_NAME := Num(Remainder(f)), "summary" := Str(SplitSummary(f))]
  }

  /** The fields of the clone's creation request: the copied subset of the
      original, with the overrides winning. */
  function ClonePayload(f: Fields): (r: Fields)
    ensures STORY_POINT_FIELD_NAME in r && r[STORY_POINT_FIELD_NAME] == Num(Remainder(f))
    ensures "summary" in r && r["summary"] == Str(SplitSummary(f))
    ensures SPRINT_FIELD_NAME in r <==> !IsSubtask(f) && FirstSprintId(f).Some?
    ensures SPRINT_FIELD_NAME in r ==> r[SPRINT_FIELD_NAME] == FirstSprintId(f).value
  {
    FieldNamesDistinct();
    PickSpec(f, CLONE_KEYS);
    Pick(f, CLONE_KEYS) + CloneOverrides(f)
  }

  /** Apart from the overridden summary, the clone's fields are exactly the
      listed ones the original has, with the original's values. */
  lemma ClonePayloadCopies(f: Fields)
    ensures forall k :: k in ClonePayload(f) ==> k == STORY_POINT_FIELD_NAME || k == SPRINT_FIELD_NAME || k in CLONE_KEYS
    ensures forall k :: k in CLONE_KEYS && k != "summary" ==> (k in ClonePayload(f) <==> k in f)
    ensures forall k :: k in CLONE_KEYS && k != "summary" && k in f ==> ClonePayload(f)[k] == f[k]
  {
    FieldNamesDistinct();
    PickSpec(f, CLONE_KEYS);
    var overrides := CloneOverrides(f);
    assert ClonePayload(f) == Pick(f, CLONE_KEYS) + overrides;
    assert forall k :: k in CLONE_KEYS && k != "summary" ==> k !in overrides;
  }

  /** A backend mutation, as recorded by the store in the order it accepted them. */
  datatype Mutation =
    | Created(id: string, fields: Fields)
    | Transitioned(id: string, transitionId: string)
    | Updated(id: string, patch: Fields)

  /** Which backend calls answer with an unexpected status. */
  datatype Faults = Faults(fetch: bool, create: bool, transition: bool, update: bool)

  const NO_FAULTS := Faults(false, false, false, false)

  /** Where a split stopped: a failed read, a dereference of an undefined or
      null field (a TypeError), or a rejected write. */
  datatype Stage = Fetch | Malformed | Create | Transition | Update

  datatype Outcome = Done | Failed(stage: Stage)

  /** The store after a split, the mutations it accepted, and the outcome. */
  datatype Run = Run(issues: map<string, Fields>, performed: seq<Mutation>, outcome: Outcome)

  /** The field patch that sets the original's points to the step. */
  function StepPatch(f: Fields): Fields {
    map[STORY_POINT_FIELD_NAME := Num(Step(f))]
  }

  /** Merging a one-field patch is setting that field. */
  lemma PatchOneField(f: Fields, k: string, v: Value)
    ensures f + map[k := v] == f[k := v]
  {
  }

  /** The calls a split of `f` makes when none of them fails, in order. */
  function Plan(f: Fields, ref: string, newId: string): (p: seq<Mutation>)
    ensures |p| == (if Remainder(f) > 0.0 then 3 else 1)
    ensures p[|p| - 1] == Updated(ref, StepPatch(f))
    ensures Remainder(f) > 0.0 ==> p[0] == Created(newId, ClonePayload(f)) && p[1] == Transitioned(newId, TRANSITION_TO_CLOSED)
  {
    (if Remainder(f) > 0.0 then [Created(newId, ClonePayload(f)), Transitioned(newId, TRANSITION_TO_CLOSED)] else [])
      + [Updated(ref, StepPatch(f))]
  }

  /** The effect of `handleSplit(ref)` on a store, with the clone receiving the
      fresh identifier `newId` from the backend. */
  function Split(issues: map<string, Fields>, ref: string, faults: Faults, newId: string): (r: Run)
    requires newId !in issues
    ensures r.outcome == Failed(Fetch) <==> faults.fetch || ref !in issues
    ensures r.outcome == Failed(Fetch) ==> r.issues == issues && r.performed == []
  {
    if faults.fetch || ref !in issues then Run(issues, [], Failed(Fetch))
    else SplitFetched(issues, ref, faults, newId)
  }

  /** The split of an issue the backend returned. */
  function SplitFetched(issues: map<string, Fields>, ref: string, faults: Faults, newId: string): (r: Run)
    requires ref in issues && newId !in issues
    ensures r.outcome != Failed(Fetch)
    ensures r.outcome == Failed(Malformed) <==>
              !StatusReadable(issues[ref]) || (Remainder(issues[ref]) > 0.0 && !IssueTypeReadable(issues[ref]))
    ensures r.outcome == Failed(Malformed) ==> r.issues == issues && r.performed == []
  {
    var f := issues[ref];
    if !StatusReadable(f) then Run(issues, [], Failed(Malformed))
    else if Remainder(f) <= 0.0 then FinishUpdate(issues, [], ref, StepPatch(f), faults.update)
    else if !IssueTypeReadable(f) then Run(issues, [], Failed(Malformed))
    else if faults.create then Run(issues, [], Failed(Create))
    else
      var withClone := issues[newId := ClonePayload(f)];
      if faults.transition then Run(withClone, [Created(newId, ClonePayload(f))], Failed(Transition))
      else FinishUpdate(withClone, [Created(newId, ClonePayload(f)), Transitioned(newId, TRANSITION_TO_CLOSED)],
                        ref, StepPatch(f), faults.update)
  }

  /** The final `updateIssue` of a split. */
  function FinishUpdate(issues: map<string, Fields>, performed: seq<Mutation>, ref: string, patch: Fields, fails: bool): (r: Run)
    requires ref in issues
    ensures r.outcome == (if fails then Failed(Update) else Done)
    ensures r.performed == if fails then performed else performed + [Updated(ref, patch)]
    ensures r.issues == if fails then issues else issues[ref := issues[ref] + patch]
    ensures !fails && patch == StepPatch(issues[ref]) ==>
              r.issues[ref] == issues[ref][STORY_POINT_FIELD_NAME := Num(Step(issues[ref]))]
  {
    if fails then Run(issues, performed, Failed(Update))
    else
      PatchOneField(issues[ref], STORY_POINT_FIELD_NAME, Num(Step(issues[ref])));
      Run(issues[ref := issues[ref] + patch], performed + [Updated(ref, patch)], Done)
  }

  /** No issue other than the original and its clone is touched. */
  lemma SplitTouchesOnlyOriginalAndClone(issues: map<string, Fields>, ref: string, faults: Faults, newId: string)
    requires newId !in issues
    ensures var r := Split(issues, ref, faults, newId);
              && (forall k :: k in r.issues ==> k in issues || k == newId)
              && (forall k :: k in issues && k != ref ==> k in r.issues && r.issues[k] == issues[k])
  {
  }

  /** A successful split leaves exactly the step on the original, whichever
      branch ran; no other field of the original changes. */
  lemma SplitSuccessSetsStep(issues: map<string, Fields>, ref: string, faults: Faults, newId: string)
    requires newId !in issues
    requires Split(issues, ref, faults, newId).outcome == Done
    ensures ref in issues
    ensures var r := Split(issues, ref, faults, newId);
              ref in r.issues && r.issues[ref] == issues[ref][STORY_POINT_FIELD_NAME := Num(Step(issues[ref]))]
  {
  }

  /** A clone is created iff points remain after the step, and it carries
      the clone payload of the original. */
  lemma SplitClonesIffRemainderPositive(issues: map<string, Fields>, ref: string, faults: Faults, newId: string)
    requires newId !in issues
    ensures var r := Split(issues, ref, faults, newId);
              && (r.outcome == Done ==> ref in issues && (newId in r.issues <==> Remainder(issues[ref]) > 0.0))
              && (newId in r.issues ==> ref in issues && Remainder(issues[ref]) > 0.0 && r.issues[newId] == ClonePayload(issues[ref]))
  {
  }

  /** A failed split never changes the original; the only trace it may leave
      is a clone that was created before a later call failed. */
  lemma SplitFailureKeepsOriginal(issues: map<string, Fields>, ref: string, faults: Faults, newId: string)
    requires newId !in issues
    requires Split(issues, ref, faults, newId).outcome.Failed?
    ensures var r := Split(issues, ref, faults, newId);
              && (ref in r.issues <==> ref in issues)
              && (ref in issues ==> r.issues[ref] == issues[ref])
              && r.issues == if newId in r.issues then issues[newId := ClonePayload(issues[ref])] else issues
  {
  }

  /** The accepted calls are those of the plan, in order (create, close, then
      update), stopping at the first failure: a failed split never reaches
      the update. */
  lemma SplitFollowsPlan(issues: map<string, Fields>, ref: string, faults: Faults, newId: string)
    requires newId !in issues
    ensures var r := Split(issues, ref, faults, newId);
              && (r.outcome == Done ==> ref in issues && r.performed == Plan(issues[ref], ref, newId))
              && (r.outcome.Failed? && ref in issues ==>
                    var p := Plan(issues[ref], ref, newId);
                    |r.performed| < |p| && r.performed == p[..|r.performed|])
              && (r.outcome.Failed? ==> forall m :: m in r.performed ==> !m.Updated?)
  {
  }

  /** The store after the backend accepts one mutation; a transition
      changes the workflow state only, which the store does not keep. */
  function Apply(issues: map<string, Fields>, m: Mutation): map<string, Fields> {
    match m
    case Created(id, fields) => issues[id := fields]
    case Transitioned(_, _) => issues
    case Updated(id, patch) => if id in issues then issues[id := issues[id] + patch] else issues
  }

  /** The store a sequence of accepted mutations produces, in order. */
  function Replay(issues: map<string, Fields>, log: seq<Mutation>): map<string, Fields>
    decreases |log|
  {
    if log == [] then issues else Replay(Apply(issues, log[0]), log[1..])
  }

  /** The store after a split is exactly what its accepted mutations produce. */
  lemma SplitMatchesReplay(issues: map<string, Fields>, ref: string, faults: Faults, newId: string)
    requires newId !in issues
    ensures var r := Split(issues, ref, faults, newId); r.issues == Replay(issues, r.performed)
  {
    if !faults.fetch && ref in issues {
      var f := issues[ref];
      var update := Updated(ref, StepPatch(f));
      if StatusReadable(f) && Remainder(f) > 0.0 && IssueTypeReadable(f) && !faults.create {
        var created := Created(newId, ClonePayload(f));
        var closed := Transitioned(newId, TRANSITION_TO_CLOSED);
        var withClone := Apply(issues, created);
        assert Replay(withClone, []) == withClone;
        assert Replay(issues, [created]) == withClone by {
          assert [created][1..] == [];
        }
        assert Replay(withClone, [update]) == Apply(withClone, update) by {
          assert [update][1..] == [];
        }
        assert Replay(withClone, [closed, update]) == Apply(withClone, update) by {
          assert [closed, update][1..] == [update];
        }
        assert Replay(issues, [created, closed, update]) == Apply(withClone, update) by {
          assert [created, closed, update][1..] == [closed, update];
        }
      } else if StatusReadable(f) && Remainder(f) <= 0.0 {
        assert Replay(issues, [update]) == Apply(issues, update) by {
          assert [update][1..] == [];
        }
      }
    }
  }

  /** An issue in QA holding 2 points: the clone carries 1.5 and the
      original keeps 0.5. */
  lemma QaIssueWithTwoPoints(issues: map<string, Fields>, ref: string, newId: string)
    requires newId !in issues && ref in issues
    requires issues[ref] == map["status" := Obj(map["name" := Str("QA")]), "issuetype" := Obj(map[]),
                                STORY_POINT_FIELD_NAME := Num(2.0)]
    ensures var r := Split(issues, ref, NO_FAULTS, newId);
              && r.outcome == Done
              && newId in r.issues && r.issues[newId][STORY_POINT_FIELD_NAME] == Num(1.5)
              && r.issues[ref][STORY_POINT_FIELD_NAME] == Num(0.5)
  {
    var f := issues[ref];
    assert Prop(f["status"], "name") == Some(Str("QA"));
    assert "QA" != PULL_REQUEST_STATUS;
    assert Remainder(f) == 1.5;
  }

  /** An issue in "Pull Request" holding 1 point is not cloned; its points
      are set to 1. */
  lemma PullRequestIssueWithOnePoint(issues: map<string, Fields>, ref: string, newId: string)
    requires newId !in issues && ref in issues
    requires issues[ref] == map["status" := Obj(map["name" := Str(PULL_REQUEST_STATUS)]),
                                STORY_POINT_FIELD_NAME := Num(1.0)]
    ensures var r := Split(issues, ref, NO_FAULTS, newId);
              && r.outcome == Done
              && newId !in r.issues
              && r.issues[ref][STORY_POINT_FIELD_NAME] == Num(1.0)
  {
    var f := issues[ref];
    assert Prop(f["status"], "name") == Some(Str(PULL_REQUEST_STATUS));
    assert Remainder(f) == 0.0;
  }

  /** The issue tracker, reduced to the issues' fields and the log of the
      mutations it accepted. */
  class IssueStore {
    var issues: map<string, Fields>
    var log: seq<Mutation>

    constructor(issues: map<string, Fields>)
      ensures this.issues == issues && log == []
    {
      this.issues := issues;
      log := [];
    }

    /** `getIssue`: an unknown issue yields an error document without
        `fields`, which the caller cannot use, as does a failed request. */
    method GetIssue(ref: string, fails: bool) returns (r: Option<Fields>)
      ensures r.Some? <==> !fails && ref in issues
      ensures r.Some? ==> r.value == issues[ref]
    {
      if fails || ref !in issues {
        r := None;
      } else {
        r := Some(issues[ref]);
      }
    }

    /** `cloneIssue`: creates an issue from the copied subset of `original`
        with `overrides` winning; anything but 201 is a failure. */
    method CloneIssue(original: Fields, overrides: Fields, newId: string, fails: bool) returns (ok: bool)
      modifies this
      ensures ok == !fails
      ensures issues == if ok then old(issues)[newId := Pick(original, CLONE_KEYS) + overrides] else old(issues)
      ensures log == if ok then old(log) + [Created(newId, Pick(original, CLONE_KEYS) + overrides)] else old(log)
    {
      ok := !fails;
      if ok {
        var fields := Pick(original, CLONE_KEYS) + overrides;
        issues := issues[newId := fields];
        log := log + [Created(newId, fields)];
      }
    }

    /** `changeStatusDoneIssue`: applies the closing transition; anything but
        204 is a failure. */
    method ChangeStatusDone(id: string, fails: bool) returns (ok: bool)
      modifies this
      ensures ok == !fails
      ensures issues == old(issues)
      ensures log == if ok then old(log) + [Transitioned(id, TRANSITION_TO_CLOSED)] else old(log)
    {
      ok := !fails;
      if ok {
        log := log + [Transitioned(id, TRANSITION_TO_CLOSED)];
      }
    }

    /** `updateIssue`: merges `patch` into the issue's fields; anything but
        204 (including an unknown issue) is a failure. */
    method UpdateIssue(id: string, patch: Fields, fails: bool) returns (ok: bool)
      modifies this
      ensures ok == (!fails && id in old(issues))
      ensures issues == if ok then old(issues)[id := old(issues)[id] + patch] else old(issues)
      ensures log == if ok then old(log) + [Updated(id, patch)] else old(log)
    {
      ok := !fails && id in issues;
      if ok {
        issues := issues[id := issues[id] + patch];
        log := log + [Updated(id, patch)];
      }
    }

    /** The clone-and-close part of `handleSplit`: creates the clone of `f`,
        then closes it; returns the stage that failed, if any. */
    method CloneAndClose(f: Fields, newId: string, faults: Faults) returns (failed: Option<Stage>)
      modifies this
      ensures failed == if faults.create then Some(Create) else if faults.transition then Some(Transition) else None
      ensures issues == if faults.create then old(issues) else old(issues)[newId := ClonePayload(f)]
      ensures log == old(log) + if faults.create then []
                                else if faults.transition then [Created(newId, ClonePayload(f))]
                                else [Created(newId, ClonePayload(f)), Transitioned(newId, TRANSITION_TO_CLOSED)]
    {
      var created := CloneIssue(f, CloneOverrides(f), newId, faults.create);
      if !created {
        return Some(Create);
      }
      var closed := ChangeStatusDone(newId, faults.transition);
      if !closed {
        return Some(Transition);
      }
      failed := None;
    }

    /** `handleSplit`: the awaited calls in order, stopping at the first
        failure. */
    method HandleSplit(ref: string, faults: Faults, newId: string) returns (outcome: Outcome)
      requires newId !in issues
      modifies this
      ensures var r := Split(old(issues), ref, faults, newId);
                issues == r.issues && log == old(log) + r.performed && outcome == r.outcome
    {
      var fetched := GetIssue(ref, faults.fetch);
      if fetched.None? {
        return Failed(Fetch);
      }
      var f := fetched.value;
      if !StatusReadable(f) {
        return Failed(Malformed);
      }
      var step := Step(f);
      var remainder := Points(f) - step;
      if remainder > 0.0 {
        if !IssueTypeReadable(f) {
          return Failed(Malformed);
        }
        var failed := CloneAndClose(f, newId, faults);
        if failed.Some? {
          return Failed(failed.value);
        }
      }
      assert issues[ref] == f;
      var updated := UpdateIssue(ref, StepPatch(f), faults.update);
      outcome := if updated then Done else Failed(Update);
    }

    /** The queue listener: runs the split for the delivered payload and
        swallows any failure, so the job always completes. */
    method OnEvent(payload: JobPayload, faults: Faults, newId: string)
      requires newId !in issues
      modifies this
      ensures var r := Split(old(issues), payload.issueIdOrKeys, faults, newId);
                issues == r.issues && log == old(log) + r.performed
    {
      var outcome := HandleSplit(payload.issueIdOrKeys, faults, newId);
    }
  }
}
