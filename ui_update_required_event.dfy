/** The "ui.update.required" event (src/events/modeler/UIUpdateRequiredEvent.ts). */
module UIUpdateRequiredEvent {
  import opened Events

  /** Tells the host that UI depending on modeler state must be refreshed. */
  function CreateUIUpdateRequiredEvent(isActive: bool): (e: Event)
    ensures IsUIUpdateRequiredEvent(e) && WellFormed(e)
    ensures e.data == UIUpdateRequiredData(isActive)
  {
    Event(Modeler, UIUpdateRequiredName, UIUpdateRequiredData(isActive))
  }

  predicate IsUIUpdateRequiredEvent(e: Event) {
    e.source == Modeler && e.name == UIUpdateRequiredName
  }

  /** A well-formed event the guard accepts is exactly the event the constructor builds from its data. */
  lemma GuardedIsCreated(e: Event)
    requires WellFormed(e) && IsUIUpdateRequiredEvent(e)
    ensures e.data.UIUpdateRequiredData?
    ensures e == CreateUIUpdateRequiredEvent(e.data.isActive)
  {
  }
}
