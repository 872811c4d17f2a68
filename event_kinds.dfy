/**
 * How the six guards of src/events relate: they are mutually exclusive, a well-formed event
 * passes exactly one of them, and no raw engine event passes a modeler guard even when it
 * carries a modeler event's name. Also a counting function used to state how many events of
 * a kind an emission contains.
 */
module EventKinds {
  import opened Events
  import opened ContentSavedEvent
  import opened NotificationEvent
  import opened DmnViewsChangedEvent
  import opened UIUpdateRequiredEvent
  import opened PropertiesPanelResizedEvent
  import opened BpmnIoEvents

  function Indicator(b: bool): nat { if b then 1 else 0 }

  /** How many of the six guards accept `e`. */
  function GuardsPassed(e: Event): nat {
    Indicator(IsContentSavedEvent(e)) + Indicator(IsNotificationEvent(e)) + Indicator(IsDmnViewsChangedEvent(e))
    + Indicator(IsUIUpdateRequiredEvent(e)) + Indicator(IsPropertiesPanelResizedEvent(e)) + Indicator(IsBpmnIoEvent(e))
  }

  /** No event passes two guards. */
  lemma GuardsExclusive(e: Event)
    ensures GuardsPassed(e) <= 1
  {
  }

  /** A well-formed event passes exactly one guard. */
  lemma WellFormedPassesOneGuard(e: Event)
    requires WellFormed(e)
    ensures GuardsPassed(e) == 1
  {
  }

  /** A raw engine event passes no modeler guard, whatever its name. */
  lemma BpmnIoPassesNoModelerGuard(name: string, payload: Payload)
    ensures var e := CreateBpmnIoEvent(name, payload);
      && !IsContentSavedEvent(e) && !IsNotificationEvent(e) && !IsDmnViewsChangedEvent(e)
      && !IsUIUpdateRequiredEvent(e) && !IsPropertiesPanelResizedEvent(e)
  {
  }

  /** The number of events in `s` that `p` accepts. */
  function CountWhere(s: seq<Event>, p: Event -> bool): (n: nat)
    ensures n <= |s|
    ensures n == 0 <==> forall i :: 0 <= i < |s| ==> !p(s[i])
  {
    if s == [] then 0 else Indicator(p(s[0])) + CountWhere(s[1..], p)
  }

  /** Counting distributes over concatenation. */
  lemma {:induction false} CountWhereConcat(a: seq<Event>, b: seq<Event>, p: Event -> bool)
    ensures CountWhere(a + b, p) == CountWhere(a, p) + CountWhere(b, p)
    decreases |a|
  {
    if a == [] {
      assert a + b == b;
    } else {
      assert (a + b)[1..] == a[1..] + b;
      CountWhereConcat(a[1..], b, p);
    }
  }

  /** Counting over an emission made of four consecutive parts. */
  lemma CountWhereConcat4(a: seq<Event>, b: seq<Event>, c: seq<Event>, d: seq<Event>, p: Event -> bool)
    ensures CountWhere(a + b + c + d, p) == CountWhere(a, p) + CountWhere(b, p) + CountWhere(c, p) + CountWhere(d, p)
  {
    CountWhereConcat(a + b + c, d, p);
    CountWhereConcat(a + b, c, p);
    CountWhereConcat(a, b, p);
  }
}
