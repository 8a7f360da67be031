/** Remediation workflows and their steps (internal/remediator/workflow.go). */
module Workflows {
  import opened States

  /** A named unit of work within a workflow. */
  datatype Step = Step(name: string, status: StepStatus, metadata: map<string, string>)

  /** A workflow as a value: what the remediator hands back to its callers. */
  datatype Workflow = Workflow(workflowId: string, state: State, steps: seq<Step>)

  /**
   * A workflow as a heap object: what the remediator's table points to and what
   * the state machine updates in place.
   */
  class RemediationWorkflow {
    var workflowId: string
    var state: State
    var steps: seq<Step>

    constructor (w: Workflow)
      ensures Value() == w
    {
      workflowId, state, steps := w.workflowId, w.state, w.steps;
    }

    /** A snapshot of the object's fields. */
    function Value(): Workflow
      reads this
    {
      Workflow(workflowId, state, steps)
    }
  }
}
