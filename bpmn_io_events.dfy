/** Raw engine events passed through to the host (src/events/bpmnio/BpmnIoEvents.ts). */
module BpmnIoEvents {
  import opened Events

  /** Wraps an engine event: source "bpmnio", name and payload unchanged. */
  function CreateBpmnIoEvent(name: string, payload: Payload): (e: Event)
    ensures IsBpmnIoEvent(e) && WellFormed(e)
    ensures e.name == name && e.data == RawData(payload)
  {
    Event(BpmnIo, name, RawData(payload))
  }

  /** Decided by the source alone, whatever the name. */
  predicate IsBpmnIoEvent(e: Event) {
    e.source == BpmnIo
  }

  /** Every well-formed bpmnio event is the wrapping of its own name and payload. */
  lemma GuardedIsCreated(e: Event)
    requires WellFormed(e) && IsBpmnIoEvent(e)
    ensures e == CreateBpmnIoEvent(e.name, e.data.payload)
  {
  }
}
