/** The "content.saved" event (src/events/modeler/ContentSavedEvent.ts). */
module ContentSavedEvent {
  import opened Wrappers
  import opened Events

  /** The event that tells the host the model now has the given XML (and SVG) for `reason`. */
  function CreateContentSavedEvent(xml: string, svg: Option<string>, reason: ContentSavedReason): (e: Event)
    ensures IsContentSavedEvent(e) && WellFormed(e)
    ensures e.data.ContentSavedData? && e.data.xml == xml && e.data.svg == svg && e.data.reason == reason
  {
    Event(Modeler, ContentSavedName, ContentSavedData(xml, svg, reason))
  }

  /** The guard decides on source and name only. */
  predicate IsContentSavedEvent(e: Event) {
    e.source == Modeler && e.name == ContentSavedName
  }

  /** A well-formed event the guard accepts is exactly the event the constructor builds from its data. */
  lemma GuardedIsCreated(e: Event)
    requires WellFormed(e) && IsContentSavedEvent(e)
    ensures e.data.ContentSavedData?
    ensures e == CreateContentSavedEvent(e.data.xml, e.data.svg, e.data.reason)
  {
  }

  /** The constructor is injective: different arguments give different events. */
  lemma CreateInjective(x1: string, s1: Option<string>, r1: ContentSavedReason, x2: string, s2: Option<string>, r2: ContentSavedReason)
    requires CreateContentSavedEvent(x1, s1, r1) == CreateContentSavedEvent(x2, s2, r2)
    ensures x1 == x2 && s1 == s2 && r1 == r2
  {
  }
}
