/**
 * The remediation manager (internal/remediator/remediation_manager.go): it
 * decides whether a discovered record is remediated, starts a workflow for it
 * and announces the start on the event bus.
 */
module Manager {
  import opened Wrappers
  import opened States
  import opened Workflows
  import opened Remediator
  import opened Store
  import opened Event

  /** The remediation policy: a stub that accepts every record. */
  function ShouldRemediate(r: VulnerabilityRecord): (eligible: bool)
    ensures eligible
  {
    true
  }

  /** The event announcing that a workflow has started. */
  function StartedEvent(workflowId: string): Event
  {
    Event(RemediationStarted, WorkflowRef(workflowId))
  }

  /** The table after handling `r`, and the events published while doing so. */
  function AfterHandle(t: Table, r: VulnerabilityRecord): (Table, seq<Event>)
  {
    if !ShouldRemediate(r) then (t, [])
    else
      var (t', res) := AfterStart(t, r.id);
      match res
      case Err(_) => (t', [])
      case Ok(wf) => (t', [StartedEvent(wf.workflowId)])
  }

  /**
   * Handling a record starts its workflow exactly as StartRemediation does and
   * publishes exactly one REMEDIATION_STARTED event, carrying the id of the
   * workflow StartRemediation returned.
   */
  lemma HandleStartsAndAnnounces(t: Table, r: VulnerabilityRecord)
    ensures AfterHandle(t, r).0 == AfterStart(t, r.id).0
    ensures AfterStart(t, r.id).1.Ok?
    ensures AfterHandle(t, r).1 == [StartedEvent(AfterStart(t, r.id).1.value.workflowId)]
    ensures AfterHandle(t, r).1 == [StartedEvent(WorkflowIdFor(r.id))]
  {
    StartBuildsTemplate(t, r.id);
  }

  /** The source's RemediationManager. */
  class RemediationManager {
    const remediator: BasicRemediator
    const eventBus: EventBus

    /** NewRemediationManager. */
    constructor (rem: BasicRemediator, bus: EventBus)
      ensures remediator == rem && eventBus == bus
    {
      remediator, eventBus := rem, bus;
    }

    /**
     * HandleVulnerability: the events returned are exactly those this call
     * published on the bus, in order.
     */
    method HandleVulnerability(r: VulnerabilityRecord) returns (published: seq<Event>)
      requires remediator.Valid()
      modifies remediator, eventBus
      ensures remediator.Valid()
      ensures eventBus.subscribers == old(eventBus.subscribers)
      ensures eventBus.log == old(eventBus.log) + published
      ensures (remediator.Table(), published) == AfterHandle(old(remediator.Table()), r)
    {
      published := [];
      if ShouldRemediate(r) {
        var res := remediator.StartRemediation(r.id);
        match res {
          case Err(_) => return;
          case Ok(wf) =>
            var e := StartedEvent(wf.workflowId);
            var _ := eventBus.Publish(e);
            published := [e];
        }
      }
    }
  }
}
