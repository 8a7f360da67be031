/**
 * Events and the in-process event bus (internal/event/event.go).
 *
 * Handlers are identified by number. Publishing does not run them; it returns
 * the delivery trace: which handler receives the event, in which order.
 */
module Event {
  import opened Store

  datatype EventType = VulnDiscovered | RemediationStarted | PatchComplete | OtherType(name: string)

  /**
   * The event's payload. The source keeps an untyped map; here the value under
   * the key a receiver reads is one of: absent, a batch of records, a workflow
   * id, or a value of some other type.
   */
  datatype Payload = Absent | Records(records: seq<VulnerabilityRecord>) | WorkflowRef(workflowId: string) | OtherValue

  datatype Event = Event(eventType: EventType, data: Payload)

  type HandlerId = nat

  /** One call of a handler with an event. */
  datatype Delivery = Delivery(handler: HandlerId, event: Event)

  /** The handlers of a trace, in delivery order. */
  function Recipients(ds: seq<Delivery>): seq<HandlerId>
  {
    seq(|ds|, i requires 0 <= i < |ds| => ds[i].handler)
  }

  /**
   * The source's EventBus: the subscribers in subscription order, and the
   * history of the events published on it.
   */
  class EventBus {
    var subscribers: seq<HandlerId>
    ghost var log: seq<Event>

    /** NewEventBus: no subscribers, nothing published yet. */
    constructor ()
      ensures subscribers == [] && log == []
    {
      subscribers := [];
      log := [];
    }

    /** Subscribe: append at the end; earlier subscribers keep their places. */
    method Subscribe(h: HandlerId)
      modifies this
      ensures subscribers == old(subscribers) + [h]
      ensures log == old(log)
    {
      subscribers := subscribers + [h];
    }

    /**
     * Publish: every subscription receives the event exactly once, in
     * subscription order; the subscriber list is not changed and the event
     * joins the bus's history.
     */
    method Publish(e: Event) returns (deliveries: seq<Delivery>)
      modifies this
      ensures subscribers == old(subscribers)
      ensures log == old(log) + [e]
      ensures Recipients(deliveries) == subscribers
      ensures forall i :: 0 <= i < |deliveries| ==> deliveries[i].event == e
    {
      deliveries := [];
      for i := 0 to |subscribers|
        invariant |deliveries| == i
        invariant forall j :: 0 <= j < i ==> deliveries[j] == Delivery(subscribers[j], e)
      {
        deliveries := deliveries + [Delivery(subscribers[i], e)];
      }
      log := log + [e];
    }
  }
}
