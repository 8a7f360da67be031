/**
 * The orchestrator (internal/remediator/orchestrator.go): the bus handler that
 * routes discovery events to the remediation manager, one record at a time.
 */
module Orchestration {
  import opened Wrappers
  import opened States
  import opened Workflows
  import opened Remediator
  import opened Store
  import opened Event
  import opened Manager

  /** The table and published events after handling the records of `recs` in order. */
  function AfterHandleAll(t: Table, recs: seq<VulnerabilityRecord>): (Table, seq<Event>)
    decreases |recs|
  {
    if recs == [] then (t, [])
    else
      var (t1, p1) := AfterHandleAll(t, recs[..|recs| - 1]);
      var (t2, p2) := AfterHandle(t1, recs[|recs| - 1]);
      (t2, p1 + p2)
  }

  /** The table and published events after the orchestrator handles `e`. */
  function AfterHandleEvent(t: Table, e: Event): (Table, seq<Event>)
  {
    match e.eventType
    case VulnDiscovered =>
      (match e.data
       case Records(recs) => AfterHandleAll(t, recs)
       case _ => (t, []))
    case _ => (t, [])
  }

  /**
   * A batch publishes one REMEDIATION_STARTED event per record, in record order,
   * each carrying that record's workflow id.
   */
  lemma {:induction false} HandleAllAnnouncesEachRecord(t: Table, recs: seq<VulnerabilityRecord>)
    ensures |AfterHandleAll(t, recs).1| == |recs|
    ensures forall i :: 0 <= i < |recs| ==> AfterHandleAll(t, recs).1[i] == StartedEvent(WorkflowIdFor(recs[i].id))
    decreases |recs|
  {
    if recs != [] {
      var init := recs[..|recs| - 1];
      HandleAllAnnouncesEachRecord(t, init);
      HandleStartsAndAnnounces(AfterHandleAll(t, init).0, recs[|recs| - 1]);
    }
  }

  /**
   * After a batch, every record's workflow is in the table, IN_PROGRESS, with its
   * three steps IN_PROGRESS.
   */
  lemma {:induction false} HandleAllStartsEachRecord(t: Table, recs: seq<VulnerabilityRecord>)
    ensures forall i :: 0 <= i < |recs| ==>
      var t' := AfterHandleAll(t, recs).0;
      var id := WorkflowIdFor(recs[i].id);
      && id in t'
      && t'[id].state == InProgress
      && |t'[id].steps| == 3
      && forall j :: 0 <= j < 3 ==> t'[id].steps[j].status == Is(InProgress)
    decreases |recs|
  {
    if recs != [] {
      var init := recs[..|recs| - 1];
      var last := recs[|recs| - 1];
      HandleAllStartsEachRecord(t, init);
      var t1 := AfterHandleAll(t, init).0;
      HandleStartsAndAnnounces(t1, last);
      StartBuildsTemplate(t1, last.id);
      forall i | 0 <= i < |recs|
        ensures var t' := AfterHandleAll(t, recs).0;
          var id := WorkflowIdFor(recs[i].id);
          && id in t'
          && t'[id].state == InProgress
          && |t'[id].steps| == 3
          && forall j :: 0 <= j < 3 ==> t'[id].steps[j].status == Is(InProgress)
      {
        if i < |recs| - 1 {
          assert recs[i] == init[i];
        }
      }
    }
  }

  /**
   * Events other than a well-formed VULN_DISCOVERED (a missing or ill-typed
   * records payload, REMEDIATION_STARTED, PATCH_COMPLETE, unknown types) cause
   * no manager call: the table is unchanged and nothing is published.
   */
  lemma OtherEventsIgnored(t: Table, e: Event)
    requires !(e.eventType == VulnDiscovered && e.data.Records?)
    ensures AfterHandleEvent(t, e) == (t, [])
  {
  }

  /**
   * End to end: a discovery event carrying one record with id "V1" leaves
   * "wf-V1" IN_PROGRESS with its three steps IN_PROGRESS, and publishes exactly
   * one REMEDIATION_STARTED event carrying "wf-V1".
   */
  lemma DiscoveryOfV1(t: Table, r: VulnerabilityRecord)
    requires r.id == "V1"
    ensures var (t', published) := AfterHandleEvent(t, Event(VulnDiscovered, Records([r])));
      && "wf-V1" in t'
      && t'["wf-V1"].state == InProgress
      && |t'["wf-V1"].steps| == 3
      && (forall j :: 0 <= j < 3 ==> t'["wf-V1"].steps[j].status == Is(InProgress))
      && published == [Event(RemediationStarted, WorkflowRef("wf-V1"))]
  {
    assert WorkflowIdFor(r.id) == "wf-V1";
    HandleAllStartsEachRecord(t, [r]);
    HandleAllAnnouncesEachRecord(t, [r]);
  }

  /** The source's Orchestrator. */
  class Orchestrator {
    const remManager: RemediationManager

    /** NewOrchestrator. */
    constructor (m: RemediationManager)
      ensures remManager == m
    {
      remManager := m;
    }

    /**
     * HandleEvent: the events returned are exactly those published on the bus
     * by the manager calls this event caused, in order.
     */
    method HandleEvent(e: Event) returns (published: seq<Event>)
      requires remManager.remediator.Valid()
      modifies remManager.remediator, remManager.eventBus
      ensures remManager.remediator.Valid()
      ensures remManager.eventBus.subscribers == old(remManager.eventBus.subscribers)
      ensures remManager.eventBus.log == old(remManager.eventBus.log) + published
      ensures (remManager.remediator.Table(), published) == AfterHandleEvent(old(remManager.remediator.Table()), e)
    {
      published := [];
      match e.eventType {
        case VulnDiscovered =>
          match e.data {
            case Records(recs) =>
              for i := 0 to |recs|
                invariant remManager.remediator.Valid()
                invariant remManager.eventBus.subscribers == old(remManager.eventBus.subscribers)
                invariant remManager.eventBus.log == old(remManager.eventBus.log) + published
                invariant (remManager.remediator.Table(), published)
                  == AfterHandleAll(old(remManager.remediator.Table()), recs[..i])
              {
                assert recs[..i + 1][..i] == recs[..i];
                var p := remManager.HandleVulnerability(recs[i]);
                published := published + p;
              }
              assert recs[..|recs|] == recs;
            case _ =>
          }
        case _ =>
      }
    }
  }
}
