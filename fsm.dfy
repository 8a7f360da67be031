/**
 * The workflow state machine (internal/remediator/fsm.go).
 *
 * `Next` is the transition table as a function on workflow values; the five
 * methods update a `RemediationWorkflow` object in place, as the source does,
 * and are proved to agree with `Next`.
 */
module Fsm {
  import opened Wrappers
  import opened States
  import opened Workflows

  /** The five guarded transitions. */
  datatype Transition = Start | Complete | Fail | Escalate | Retry

  /** The error a transition reports when the workflow is not in its guard state. */
  datatype FsmError = NotInState(transition: Transition, actual: State)

  /** The only state from which a transition may fire. */
  function Guard(t: Transition): State
  {
    match t
    case Start => Pending
    case Complete | Fail => InProgress
    case Escalate | Retry => Failed
  }

  /** The state a transition moves the workflow to. */
  function Target(t: Transition): State
  {
    match t
    case Start | Retry => InProgress
    case Complete => Completed
    case Fail => Failed
    case Escalate => Escalated
  }

  /** How a transition rewrites the status of a single step. */
  function StatusAfter(t: Transition, s: StepStatus): StepStatus
  {
    match t
    case Start => if s == Unset then Is(InProgress) else s
    case Complete => Is(Completed)
    case Fail => if s == Is(InProgress) then Is(Failed) else s
    case Escalate => s
    case Retry => if s == Is(Failed) then Is(InProgress) else s
  }

  function Restamp(t: Transition, s: Step): Step
  {
    s.(status := StatusAfter(t, s.status))
  }

  /** The steps after a transition: each step restamped, in the same order. */
  function StepsAfter(t: Transition, steps: seq<Step>): (r: seq<Step>)
    ensures |r| == |steps|
  {
    if steps == [] then [] else [Restamp(t, steps[0])] + StepsAfter(t, steps[1..])
  }

  /** The transition table: refuse outside the guard state, otherwise move and restamp. */
  function Next(t: Transition, w: Workflow): (r: Result<Workflow, FsmError>)
    ensures r.Ok? <==> w.state == Guard(t)
    ensures r.Err? ==> r.error.actual == w.state
  {
    if w.state != Guard(t) then Err(NotInState(t, w.state))
    else Ok(w.(state := Target(t), steps := StepsAfter(t, w.steps)))
  }

  /**
   * What a transition method must leave behind: on success the workflow is
   * `Next`'s result and no error is returned; on refusal the error is returned
   * and the workflow is untouched.
   */
  ghost predicate Fired(t: Transition, before: Workflow, after: Workflow, err: Option<FsmError>)
  {
    match Next(t, before)
    case Ok(v) => err == None && after == v
    case Err(e) => err == Some(e) && after == before
  }

  lemma {:induction false} StepsAfterAt(t: Transition, steps: seq<Step>, i: int)
    requires 0 <= i < |steps|
    ensures StepsAfter(t, steps)[i] == Restamp(t, steps[i])
  {
    if i > 0 {
      StepsAfterAt(t, steps[1..], i - 1);
    }
  }

  /** A sequence restamped position by position is `StepsAfter`. */
  lemma StepsAfterUnique(t: Transition, before: seq<Step>, after: seq<Step>)
    requires |after| == |before|
    requires forall j :: 0 <= j < |before| ==> after[j] == Restamp(t, before[j])
    ensures after == StepsAfter(t, before)
  {
    forall j | 0 <= j < |before|
      ensures after[j] == StepsAfter(t, before)[j]
    {
      StepsAfterAt(t, before, j);
    }
  }

  /** No transition changes the workflow id or the number, order, names or metadata of its steps. */
  lemma ShapePreserved(t: Transition, w: Workflow)
    requires Next(t, w).Ok?
    ensures Next(t, w).value.workflowId == w.workflowId
    ensures |Next(t, w).value.steps| == |w.steps|
    ensures forall i :: 0 <= i < |w.steps| ==>
      Next(t, w).value.steps[i].name == w.steps[i].name &&
      Next(t, w).value.steps[i].metadata == w.steps[i].metadata
  {
    forall i | 0 <= i < |w.steps|
      ensures Next(t, w).value.steps[i] == Restamp(t, w.steps[i])
    {
      StepsAfterAt(t, w.steps, i);
    }
  }

  /** Start: PENDING becomes IN_PROGRESS; unset steps become IN_PROGRESS, set ones keep their status. */
  lemma StartRule(w: Workflow)
    requires w.state == Pending
    ensures Next(Start, w).Ok? && Next(Start, w).value.state == InProgress
    ensures forall i :: 0 <= i < |w.steps| && w.steps[i].status == Unset ==>
      Next(Start, w).value.steps[i].status == Is(InProgress)
    ensures forall i :: 0 <= i < |w.steps| && w.steps[i].status != Unset ==>
      Next(Start, w).value.steps[i].status == w.steps[i].status
  {
    forall i | 0 <= i < |w.steps| { StepsAfterAt(Start, w.steps, i); }
  }

  /** Complete: IN_PROGRESS becomes COMPLETED and every step becomes COMPLETED. */
  lemma CompleteRule(w: Workflow)
    requires w.state == InProgress
    ensures Next(Complete, w).Ok? && Next(Complete, w).value.state == Completed
    ensures forall i :: 0 <= i < |w.steps| ==> Next(Complete, w).value.steps[i].status == Is(Completed)
  {
    forall i | 0 <= i < |w.steps| { StepsAfterAt(Complete, w.steps, i); }
  }

  /** Fail: IN_PROGRESS becomes FAILED; only IN_PROGRESS steps become FAILED. */
  lemma FailRule(w: Workflow)
    requires w.state == InProgress
    ensures Next(Fail, w).Ok? && Next(Fail, w).value.state == Failed
    ensures forall i :: 0 <= i < |w.steps| && w.steps[i].status == Is(InProgress) ==>
      Next(Fail, w).value.steps[i].status == Is(Failed)
    ensures forall i :: 0 <= i < |w.steps| && w.steps[i].status != Is(InProgress) ==>
      Next(Fail, w).value.steps[i].status == w.steps[i].status
  {
    forall i | 0 <= i < |w.steps| { StepsAfterAt(Fail, w.steps, i); }
  }

  /** Escalate: FAILED becomes ESCALATED and no step changes. */
  lemma EscalateRule(w: Workflow)
    requires w.state == Failed
    ensures Next(Escalate, w) == Ok(w.(state := Escalated))
  {
    StepsAfterUnique(Escalate, w.steps, w.steps);
  }

  /** Retry: FAILED becomes IN_PROGRESS; only FAILED steps become IN_PROGRESS. */
  lemma RetryRule(w: Workflow)
    requires w.state == Failed
    ensures Next(Retry, w).Ok? && Next(Retry, w).value.state == InProgress
    ensures forall i :: 0 <= i < |w.steps| && w.steps[i].status == Is(Failed) ==>
      Next(Retry, w).value.steps[i].status == Is(InProgress)
    ensures forall i :: 0 <= i < |w.steps| && w.steps[i].status != Is(Failed) ==>
      Next(Retry, w).value.steps[i].status == w.steps[i].status
  {
    forall i | 0 <= i < |w.steps| { StepsAfterAt(Retry, w.steps, i); }
  }

  /** COMPLETED and ESCALATED are absorbing: every transition refuses them. */
  lemma TerminalStatesAbsorb(t: Transition, w: Workflow)
    requires w.state == Completed || w.state == Escalated
    ensures Next(t, w) == Err(NotInState(t, w.state))
  {
  }

  /** StartWorkflow: PENDING to IN_PROGRESS, stamping unset steps. */
  method StartWorkflow(w: RemediationWorkflow) returns (err: Option<FsmError>)
    modifies w
    ensures Fired(Start, old(w.Value()), w.Value(), err)
  {
    if w.state != Pending {
      return Some(NotInState(Start, w.state));
    }
    w.state := InProgress;
    ghost var before := old(w.steps);
    for i := 0 to |w.steps|
      invariant w.workflowId == old(w.workflowId) && w.state == InProgress
      invariant |w.steps| == |before|
      invariant forall j :: 0 <= j < i ==> w.steps[j] == Restamp(Start, before[j])
      invariant forall j :: i <= j < |w.steps| ==> w.steps[j] == before[j]
    {
      if w.steps[i].status == Unset {
        w.steps := w.steps[i := w.steps[i].(status := Is(InProgress))];
      }
    }
    StepsAfterUnique(Start, before, w.steps);
    err := None;
  }

  /** CompleteWorkflow: IN_PROGRESS to COMPLETED, every step COMPLETED. */
  method CompleteWorkflow(w: RemediationWorkflow) returns (err: Option<FsmError>)
    modifies w
    ensures Fired(Complete, old(w.Value()), w.Value(), err)
  {
    if w.state != InProgress {
      return Some(NotInState(Complete, w.state));
    }
    w.state := Completed;
    ghost var before := old(w.steps);
    for i := 0 to |w.steps|
      invariant w.workflowId == old(w.workflowId) && w.state == Completed
      invariant |w.steps| == |before|
      invariant forall j :: 0 <= j < i ==> w.steps[j] == Restamp(Complete, before[j])
      invariant forall j :: i <= j < |w.steps| ==> w.steps[j] == before[j]
    {
      w.steps := w.steps[i := w.steps[i].(status := Is(Completed))];
    }
    StepsAfterUnique(Complete, before, w.steps);
    err := None;
  }

  /** FailWorkflow: IN_PROGRESS to FAILED, IN_PROGRESS steps FAILED. */
  method FailWorkflow(w: RemediationWorkflow) returns (err: Option<FsmError>)
    modifies w
    ensures Fired(Fail, old(w.Value()), w.Value(), err)
  {
    if w.state != InProgress {
      return Some(NotInState(Fail, w.state));
    }
    w.state := Failed;
    ghost var before := old(w.steps);
    for i := 0 to |w.steps|
      invariant w.workflowId == old(w.workflowId) && w.state == Failed
      invariant |w.steps| == |before|
      invariant forall j :: 0 <= j < i ==> w.steps[j] == Restamp(Fail, before[j])
      invariant forall j :: i <= j < |w.steps| ==> w.steps[j] == before[j]
    {
      if w.steps[i].status == Is(InProgress) {
        w.steps := w.steps[i := w.steps[i].(status := Is(Failed))];
      }
    }
    StepsAfterUnique(Fail, before, w.steps);
    err := None;
  }

  /** EscalateWorkflow: FAILED to ESCALATED; steps untouched. */
  method EscalateWorkflow(w: RemediationWorkflow) returns (err: Option<FsmError>)
    modifies w
    ensures Fired(Escalate, old(w.Value()), w.Value(), err)
  {
    if w.state != Failed {
      return Some(NotInState(Escalate, w.state));
    }
    w.state := Escalated;
    StepsAfterUnique(Escalate, w.steps, w.steps);
    err := None;
  }

  /** RetryWorkflow: FAILED to IN_PROGRESS, FAILED steps back to IN_PROGRESS. */
  method RetryWorkflow(w: RemediationWorkflow) returns (err: Option<FsmError>)
    modifies w
    ensures Fired(Retry, old(w.Value()), w.Value(), err)
  {
    if w.state != Failed {
      return Some(NotInState(Retry, w.state));
    }
    w.state := InProgress;
    ghost var before := old(w.steps);
    for i := 0 to |w.steps|
      invariant w.workflowId == old(w.workflowId) && w.state == InProgress
      invariant |w.steps| == |before|
      invariant forall j :: 0 <= j < i ==> w.steps[j] == Restamp(Retry, before[j])
      invariant forall j :: i <= j < |w.steps| ==> w.steps[j] == before[j]
    {
      if w.steps[i].status == Is(Failed) {
        w.steps := w.steps[i := w.steps[i].(status := Is(InProgress))];
      }
    }
    StepsAfterUnique(Retry, before, w.steps);
    err := None;
  }
}
