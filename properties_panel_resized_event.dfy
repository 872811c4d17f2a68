/** The "properties.panel.resized" event (src/events/modeler/PropertiesPanelResizedEvent.ts). */
module PropertiesPanelResizedEvent {
  import opened Events

  /** The new width of the properties panel, in pixels. */
  function CreatePropertiesPanelResizedEvent(width: int): (e: Event)
    ensures IsPropertiesPanelResizedEvent(e) && WellFormed(e)
    ensures e.data == PropertiesPanelResizedData(width)
  {
    Event(Modeler, PropertiesPanelResizedName, PropertiesPanelResizedData(width))
  }

  predicate IsPropertiesPanelResizedEvent(e: Event) {
    e.source == Modeler && e.name == PropertiesPanelResizedName
  }

  /** A well-formed event the guard accepts is exactly the event the constructor builds from its data. */
  lemma GuardedIsCreated(e: Event)
    requires WellFormed(e) && IsPropertiesPanelResizedEvent(e)
    ensures e.data.PropertiesPanelResizedData?
    ensures e == CreatePropertiesPanelResizedEvent(e.data.width)
  {
  }
}
