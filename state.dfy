/** The lifecycle states of a remediation workflow (internal/state/state.go). */
module States {

  /** The five state constants a workflow can be in. */
  datatype State = Pending | InProgress | Completed | Failed | Escalated

  /**
   * A step's status. In the source it is a string: the empty string when it has
   * never been set, otherwise one of the state constants.
   */
  datatype StepStatus = Unset | Is(state: State)
}
