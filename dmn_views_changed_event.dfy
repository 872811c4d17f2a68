/** The "dmn.views.changed" event (src/events/modeler/DmnViewsChangedEvent.ts). */
module DmnViewsChangedEvent {
  import opened Wrappers
  import opened Events

  /** The list of DMN views, in the engine's order, and the active one. */
  function CreateDmnViewsChangedEvent(views: seq<DmnView>, activeView: Option<DmnView>): (e: Event)
    ensures IsDmnViewsChangedEvent(e) && WellFormed(e)
    ensures e.data.DmnViewsChangedData? && e.data.views == views && e.data.activeView == activeView
  {
    Event(Modeler, DmnViewsChangedName, DmnViewsChangedData(views, activeView))
  }

  predicate IsDmnViewsChangedEvent(e: Event) {
    e.source == Modeler && e.name == DmnViewsChangedName
  }

  /** A well-formed event the guard accepts is exactly the event the constructor builds from its data. */
  lemma GuardedIsCreated(e: Event)
    requires WellFormed(e) && IsDmnViewsChangedEvent(e)
    ensures e.data.DmnViewsChangedData?
    ensures e == CreateDmnViewsChangedEvent(e.data.views, e.data.activeView)
  {
  }
}
