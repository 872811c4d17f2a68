/** The "notification" event (src/events/modeler/NotificationEvent.ts). */
module NotificationEvent {
  import opened Events

  /** A message for the user with its severity. */
  function CreateNotificationEvent(message: string, severity: NotificationSeverity): (e: Event)
    ensures IsNotificationEvent(e) && WellFormed(e)
    ensures e.data.NotificationData? && e.data.message == message && e.data.severity == severity
  {
    Event(Modeler, NotificationName, NotificationData(message, severity))
  }

  predicate IsNotificationEvent(e: Event) {
    e.source == Modeler && e.name == NotificationName
  }

  /** A well-formed event the guard accepts is exactly the event the constructor builds from its data. */
  lemma GuardedIsCreated(e: Event)
    requires WellFormed(e) && IsNotificationEvent(e)
    ensures e.data.NotificationData?
    ensures e == CreateNotificationEvent(e.data.message, e.data.severity)
  {
  }
}
