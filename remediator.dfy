/**
 * The basic remediator and its workflow table (internal/remediator/remediator.go).
 *
 * `BasicRemediator` owns a map from workflow id to workflow object, as the
 * source's `map[string]*RemediationWorkflow` does. Its methods are proved
 * against the functions `AfterStart`, `AfterPoll`, `AfterRollback` and
 * `AfterCleanup`, which say what each operation does to the table viewed as a
 * map of workflow values; the lemmas below state the operations' properties
 * on those functions.
 */
module Remediator {
  import opened Wrappers
  import opened States
  import opened Workflows
  import opened Fsm

  /** Errors the remediator reports. */
  datatype Error =
    | NotFound(workflowId: string)
    | CleanupNotAllowed(actual: State)
    | TransitionRefused(cause: FsmError)

  /** The workflow table viewed as values. */
  type Table = map<string, Workflow>

  /** The id of the workflow for a vulnerability: a fixed prefix and the vulnerability id. */
  function WorkflowIdFor(vulnId: string): string
  {
    "wf-" + vulnId
  }

  /** The fresh, pending three-step workflow for a vulnerability. */
  function NewWorkflow(vulnId: string): Workflow
  {
    Workflow(WorkflowIdFor(vulnId), Pending,
      [Step("download_patch", Unset, map[]),
       Step("apply_patch", Unset, map[]),
       Step("verify_patch", Unset, map[])])
  }

  predicate AllInProgress(steps: seq<Step>)
  {
    forall i :: 0 <= i < |steps| ==> steps[i].status == Is(InProgress)
  }

  /** StartRemediation: store the new workflow under its id, then start it. */
  function AfterStart(t: Table, vulnId: string): (Table, Result<Workflow, Error>)
  {
    var wf := NewWorkflow(vulnId);
    match Next(Start, wf)
    case Ok(v) => (t[wf.workflowId := v], Ok(v))
    case Err(e) => (t[wf.workflowId := wf], Err(TransitionRefused(e)))
  }

  /** PollRemediationStatus: complete the workflow when every step is IN_PROGRESS. */
  function AfterPoll(t: Table, id: string): (Table, Result<Workflow, Error>)
  {
    if id !in t then (t, Err(NotFound(id)))
    else if !AllInProgress(t[id].steps) then (t, Ok(t[id]))
    else
      match Next(Complete, t[id])
      case Ok(v) => (t[id := v], Ok(v))
      case Err(_) => (t, Ok(t[id]))
  }

  /** Rollback: fail the workflow, discarding the state machine's refusal. */
  function AfterRollback(t: Table, id: string): (Table, Option<Error>)
  {
    if id !in t then (t, Some(NotFound(id)))
    else
      match Next(Fail, t[id])
      case Ok(v) => (t[id := v], None)
      case Err(_) => (t, None)
  }

  /** Cleanup: delete the entry, only from COMPLETED or FAILED. */
  function AfterCleanup(t: Table, id: string): (Table, Option<Error>)
  {
    if id !in t then (t, Some(NotFound(id)))
    else if t[id].state != Completed && t[id].state != Failed then (t, Some(CleanupNotAllowed(t[id].state)))
    else (t - {id}, None)
  }

  /**
   * StartRemediation builds id "wf-" + vulnerability id with the three steps
   * download_patch, apply_patch, verify_patch in that order, all IN_PROGRESS,
   * returns it without error, and stores it under its id, replacing any entry
   * already there and leaving every other entry as it was.
   */
  lemma StartBuildsTemplate(t: Table, vulnId: string)
    ensures var (t', r) := AfterStart(t, vulnId);
      && r.Ok?
      && r.value.workflowId == WorkflowIdFor(vulnId)
      && r.value.state == InProgress
      && |r.value.steps| == 3
      && r.value.steps[0].name == "download_patch"
      && r.value.steps[1].name == "apply_patch"
      && r.value.steps[2].name == "verify_patch"
      && (forall i :: 0 <= i < 3 ==> r.value.steps[i].status == Is(InProgress) && r.value.steps[i].metadata == map[])
      && t' == t[r.value.workflowId := r.value]
  {
    var wf := NewWorkflow(vulnId);
    StartRule(wf);
    ShapePreserved(Start, wf);
  }

  /** Poll, Rollback and Cleanup of an absent id report not-found and leave the table alone. */
  lemma AbsentIdNotFound(t: Table, id: string)
    requires id !in t
    ensures AfterPoll(t, id) == (t, Err(NotFound(id)))
    ensures AfterRollback(t, id) == (t, Some(NotFound(id)))
    ensures AfterCleanup(t, id) == (t, Some(NotFound(id)))
  {
  }

  /**
   * Poll of a present workflow never errors and returns the stored workflow; it
   * completes the workflow (every step COMPLETED) exactly when it is IN_PROGRESS
   * with every step IN_PROGRESS, and otherwise changes nothing.
   */
  lemma PollRule(t: Table, id: string)
    requires id in t
    ensures var (t', r) := AfterPoll(t, id);
      && id in t' && r == Ok(t'[id])
      && t'.Keys == t.Keys
      && (forall k :: k in t && k != id ==> t'[k] == t[k])
      && (t[id].state == InProgress && AllInProgress(t[id].steps) ==>
            t'[id].state == Completed && t'[id].workflowId == t[id].workflowId &&
            |t'[id].steps| == |t[id].steps| &&
            forall i :: 0 <= i < |t'[id].steps| ==> t'[id].steps[i].status == Is(Completed))
      && (!(t[id].state == InProgress && AllInProgress(t[id].steps)) ==> t' == t)
  {
    if t[id].state == InProgress && AllInProgress(t[id].steps) {
      CompleteRule(t[id]);
      ShapePreserved(Complete, t[id]);
    }
  }

  /**
   * Rollback of a present workflow always succeeds; it fails an IN_PROGRESS
   * workflow (its IN_PROGRESS steps become FAILED) and leaves a workflow in any
   * other state as it was.
   */
  lemma RollbackRule(t: Table, id: string)
    requires id in t
    ensures var (t', err) := AfterRollback(t, id);
      && err == None
      && t'.Keys == t.Keys
      && (forall k :: k in t && k != id ==> t'[k] == t[k])
      && (t[id].state == InProgress ==>
            t'[id].state == Failed && |t'[id].steps| == |t[id].steps| &&
            forall i :: 0 <= i < |t[id].steps| ==>
              t'[id].steps[i].status ==
                (if t[id].steps[i].status == Is(InProgress) then Is(Failed) else t[id].steps[i].status))
      && (t[id].state != InProgress ==> t' == t)
  {
    if t[id].state == InProgress {
      FailRule(t[id]);
      ShapePreserved(Fail, t[id]);
    }
  }

  /**
   * Cleanup of a present workflow succeeds exactly from COMPLETED or FAILED, and
   * then removes that entry only; otherwise it reports the state and changes nothing.
   */
  lemma CleanupRule(t: Table, id: string)
    requires id in t
    ensures var (t', err) := AfterCleanup(t, id);
      && (err == None <==> t[id].state == Completed || t[id].state == Failed)
      && (err == None ==> id !in t' && t'.Keys == t.Keys - {id} && forall k :: k in t' ==> t'[k] == t[k])
      && (err != None ==> t' == t && err == Some(CleanupNotAllowed(t[id].state)))
  {
  }

  /** A second cleanup of an id just cleaned up reports not-found. */
  lemma CleanupTwiceNotFound(t: Table, id: string)
    requires AfterCleanup(t, id).1 == None
    ensures var t' := AfterCleanup(t, id).0;
      AfterCleanup(t', id) == (t', Some(NotFound(id)))
  {
  }

  /** The status every step carries when a workflow in state `s` was produced by the remediator. */
  function SettledStatus(s: State): StepStatus
  {
    match s
    case Pending => Unset
    case InProgress => Is(InProgress)
    case Completed => Is(Completed)
    case Failed | Escalated => Is(Failed)
  }

  /** A workflow that has been started and whose steps all agree with its state. */
  ghost predicate Settled(w: Workflow)
  {
    && w.state != Pending
    && forall i :: 0 <= i < |w.steps| ==> w.steps[i].status == SettledStatus(w.state)
  }

  /** Every entry is stored under its own id and is settled. */
  ghost predicate Coherent(t: Table)
  {
    forall k :: k in t ==> t[k].workflowId == k && Settled(t[k])
  }

  /** Every transition, Escalate and Retry included, keeps a settled workflow settled. */
  lemma TransitionKeepsSettled(tr: Transition, w: Workflow)
    requires Settled(w) && Next(tr, w).Ok?
    ensures Settled(Next(tr, w).value)
  {
    var v := Next(tr, w).value;
    forall i | 0 <= i < |v.steps|
      ensures v.steps[i].status == SettledStatus(v.state)
    {
      StepsAfterAt(tr, w.steps, i);
    }
  }

  /** The four table operations keep the table coherent. */
  lemma OperationsKeepCoherent(t: Table, vulnId: string, id: string)
    requires Coherent(t)
    ensures Coherent(AfterStart(t, vulnId).0)
    ensures Coherent(AfterPoll(t, id).0)
    ensures Coherent(AfterRollback(t, id).0)
    ensures Coherent(AfterCleanup(t, id).0)
  {
    StartBuildsTemplate(t, vulnId);
    if id in t {
      if Next(Complete, t[id]).Ok? {
        TransitionKeepsSettled(Complete, t[id]);
        ShapePreserved(Complete, t[id]);
      }
      if Next(Fail, t[id]).Ok? {
        TransitionKeepsSettled(Fail, t[id]);
        ShapePreserved(Fail, t[id]);
      }
    }
  }

  /**
   * In a coherent table the completion heuristic always fires: polling an
   * IN_PROGRESS workflow completes it.
   */
  lemma PollCompletesEveryStarted(t: Table, id: string)
    requires Coherent(t) && id in t && t[id].state == InProgress
    ensures AfterPoll(t, id).0[id].state == Completed
    ensures AfterPoll(t, id).1 == Ok(AfterPoll(t, id).0[id])
  {
    assert AllInProgress(t[id].steps);
    PollRule(t, id);
  }

  /**
   * Start "V1" then poll "wf-V1": the workflow is COMPLETED. Start "V1", roll
   * it back, clean it up, clean it up again: FAILED, removed, not-found.
   */
  lemma LifecycleScenarios(t: Table)
    ensures var t1 := AfterStart(t, "V1").0;
      && AfterPoll(t1, "wf-V1").1.Ok?
      && AfterPoll(t1, "wf-V1").1.value.state == Completed
    ensures var t1 := AfterStart(t, "V1").0;
      var t2 := AfterRollback(t1, "wf-V1").0;
      var t3 := AfterCleanup(t2, "wf-V1").0;
      && t2["wf-V1"].state == Failed
      && AfterCleanup(t2, "wf-V1").1 == None
      && "wf-V1" !in t3
      && AfterCleanup(t3, "wf-V1").1 == Some(NotFound("wf-V1"))
  {
    StartBuildsTemplate(t, "V1");
    var t1 := AfterStart(t, "V1").0;
    assert WorkflowIdFor("V1") == "wf-V1";
    assert AllInProgress(t1["wf-V1"].steps);
    PollRule(t1, "wf-V1");
    RollbackRule(t1, "wf-V1");
  }

  /** The source's BasicRemediator: the workflow table. */
  class BasicRemediator {
    var workflows: map<string, RemediationWorkflow>

    /** Distinct ids point to distinct workflow objects. */
    ghost predicate Valid()
      reads this
    {
      forall k1, k2 :: k1 in workflows && k2 in workflows && k1 != k2 ==> workflows[k1] != workflows[k2]
    }

    /** The table as workflow values. */
    ghost function Table(): Table
      reads this, workflows.Values
    {
      map k | k in workflows :: workflows[k].Value()
    }

    /** NewBasicRemediator: an empty table. */
    constructor ()
      ensures Valid() && Table() == map[]
    {
      workflows := map[];
    }

    /** StartRemediation for the vulnerability with id `vulnId`. */
    method StartRemediation(vulnId: string) returns (r: Result<Workflow, Error>)
      requires Valid()
      modifies this
      ensures Valid()
      ensures fresh(workflows.Values - old(workflows.Values))
      ensures (Table(), r) == AfterStart(old(Table()), vulnId)
    {
      ghost var t0 := Table();
      var wf := new RemediationWorkflow(NewWorkflow(vulnId));
      workflows := workflows[wf.workflowId := wf];
      var err := StartWorkflow(wf);
      assert Table() == t0[wf.workflowId := wf.Value()] by {
        forall k | k in t0 && k != wf.workflowId ensures Table()[k] == t0[k] {
          assert workflows[k] == old(workflows[k]);
        }
      }
      match err {
        case Some(e) => return Err(TransitionRefused(e));
        case None =>
      }
      r := Ok(wf.Value());
    }

    /** The flag-and-break scan of PollRemediationStatus: are all steps IN_PROGRESS? */
    static method AllStepsInProgress(steps: seq<Step>) returns (all: bool)
      ensures all == AllInProgress(steps)
    {
      all := true;
      var i := 0;
      while i < |steps|
        invariant 0 <= i <= |steps|
        invariant forall j :: 0 <= j < i ==> steps[j].status == Is(InProgress)
      {
        if steps[i].status != Is(InProgress) {
          all := false;
          break;
        }
        i := i + 1;
      }
    }

    /** PollRemediationStatus of `workflowId`. */
    method PollRemediationStatus(workflowId: string) returns (r: Result<Workflow, Error>)
      requires Valid()
      modifies workflows.Values
      ensures Valid()
      ensures (Table(), r) == AfterPoll(old(Table()), workflowId)
    {
      if workflowId !in workflows {
        return Err(NotFound(workflowId));
      }
      ghost var t0 := Table();
      var wf := workflows[workflowId];
      var all := AllStepsInProgress(wf.steps);
      if all {
        var _ := CompleteWorkflow(wf);
      }
      assert Table() == t0[workflowId := wf.Value()] by {
        forall k | k in t0 && k != workflowId ensures Table()[k] == t0[k] {
          assert workflows[k] != wf;
        }
      }
      assert wf.Value() == t0[workflowId] ==> t0[workflowId := wf.Value()] == t0;
      r := Ok(wf.Value());
    }

    /** Rollback of `workflowId`. */
    method Rollback(workflowId: string) returns (err: Option<Error>)
      requires Valid()
      modifies workflows.Values
      ensures Valid()
      ensures (Table(), err) == AfterRollback(old(Table()), workflowId)
    {
      if workflowId !in workflows {
        return Some(NotFound(workflowId));
      }
      ghost var t0 := Table();
      var wf := workflows[workflowId];
      var _ := FailWorkflow(wf);
      assert Table() == t0[workflowId := wf.Value()] by {
        forall k | k in t0 && k != workflowId ensures Table()[k] == t0[k] {
          assert workflows[k] != wf;
        }
      }
      assert wf.Value() == t0[workflowId] ==> t0[workflowId := wf.Value()] == t0;
      err := None;
    }

    /** Cleanup of `workflowId`. */
    method Cleanup(workflowId: string) returns (err: Option<Error>)
      requires Valid()
      modifies this
      ensures Valid()
      ensures (Table(), err) == AfterCleanup(old(Table()), workflowId)
    {
      if workflowId !in workflows {
        return Some(NotFound(workflowId));
      }
      var wf := workflows[workflowId];
      if wf.state != Completed && wf.state != Failed {
        return Some(CleanupNotAllowed(wf.state));
      }
      ghost var t0 := Table();
      workflows := workflows - {workflowId};
      assert Table() == t0 - {workflowId};
      err := None;
    }
  }
}
