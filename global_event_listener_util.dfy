/**
 * The listener registry that taps an engine's event bus (src/bpmnio/GlobalEventListenerUtil.ts).
 * Listeners form a list with set semantics; the patched `fire` hands every event to each
 * listener, in list order, and then to the bus's original `fire`, whose result it returns.
 */
module GlobalEventListener {
  import opened Events

  /** A callback, known by its identity: two callbacks are the same listener iff their ids agree. */
  datatype Callback = Callback(id: nat)

  /** One call made by the patched `fire`. */
  datatype Dispatch =
    | ToListener(listener: Callback, event: string, data: Payload)
    | ToOriginalFire(event: string, data: Payload)

  predicate NoDuplicates(s: seq<Callback>) {
    forall i, j :: 0 <= i < j < |s| ==> s[i] != s[j]
  }

  /** `s` with every occurrence of `cb` dropped (the `filter` of `off`). */
  function Without(s: seq<Callback>, cb: Callback): (r: seq<Callback>)
    ensures forall x :: x in r <==> x in s && x != cb
    ensures multiset(r) == multiset(s)[cb := 0]
  {
    if s == [] then []
    else
      assert s == [s[0]] + s[1..];
      (if s[0] == cb then [] else [s[0]]) + Without(s[1..], cb)
  }

  /** Dropping a callback distributes over concatenation, so the survivors keep their relative order. */
  lemma {:induction false} WithoutConcat(a: seq<Callback>, b: seq<Callback>, cb: Callback)
    ensures Without(a + b, cb) == Without(a, cb) + Without(b, cb)
    decreases |a|
  {
    if a == [] {
      assert a + b == b;
    } else {
      assert (a + b)[1..] == a[1..] + b;
      WithoutConcat(a[1..], b, cb);
    }
  }

  /** `off` of an absent callback changes nothing. */
  lemma {:induction false} WithoutAbsent(s: seq<Callback>, cb: Callback)
    requires cb !in s
    ensures Without(s, cb) == s
    decreases |s|
  {
    if s != [] {
      WithoutAbsent(s[1..], cb);
    }
  }

  /** `off` keeps a list free of duplicates. */
  lemma {:induction false} WithoutNoDuplicates(s: seq<Callback>, cb: Callback)
    requires NoDuplicates(s)
    ensures NoDuplicates(Without(s, cb))
    decreases |s|
  {
    if s != [] {
      WithoutNoDuplicates(s[1..], cb);
      var rest := Without(s[1..], cb);
      assert s[0] !in rest by {
        assert s[0] !in s[1..];
      }
    }
  }

  /** The list after `on(cb)`. */
  function Add(s: seq<Callback>, cb: Callback): (r: seq<Callback>)
    ensures cb in s ==> r == s
    ensures cb !in s ==> r == s + [cb]
    ensures cb in r
    ensures NoDuplicates(s) ==> NoDuplicates(r)
    ensures |s| <= |r| <= |s| + 1 && r[..|s|] == s
  {
    if cb in s then s else s + [cb]
  }

  /** `on` is idempotent. */
  lemma AddIdempotent(s: seq<Callback>, cb: Callback)
    ensures Add(Add(s, cb), cb) == Add(s, cb)
  {
  }

  /** `on(cb)` then `off(cb)` restores a list that did not hold `cb`. */
  lemma AddThenWithout(s: seq<Callback>, cb: Callback)
    requires cb !in s
    ensures Without(Add(s, cb), cb) == s
  {
    WithoutConcat(s, [cb], cb);
    WithoutAbsent(s, cb);
  }

  class GlobalEventListenerUtil {
    var listeners: seq<Callback>

    ghost predicate Valid()
      reads this
    {
      NoDuplicates(listeners)
    }

    /** Installing the registry on an event bus starts with no listeners. */
    constructor ()
      ensures Valid() && listeners == []
    {
      listeners := [];
    }

    /** Registers `cb` unless it is already registered. */
    method On(cb: Callback)
      requires Valid()
      modifies this
      ensures Valid()
      ensures listeners == Add(old(listeners), cb)
    {
      if cb !in listeners {
        listeners := listeners + [cb];
      }
    }

    /** Unregisters `cb`. */
    method Off(cb: Callback)
      requires Valid()
      modifies this
      ensures Valid()
      ensures listeners == Without(old(listeners), cb)
    {
      WithoutNoDuplicates(listeners, cb);
      listeners := Without(listeners, cb);
    }

    /**
     * The patched `eventBus.fire(event, data)`: calls every listener in order with the event
     * unchanged, then the original `fire`; returns what the original `fire` returns
     * (`original`). The listeners themselves are not run by the model.
     */
    method Fire<R>(event: string, data: Payload, original: R) returns (calls: seq<Dispatch>, result: R)
      ensures |calls| == |listeners| + 1
      ensures forall i :: 0 <= i < |listeners| ==> calls[i] == ToListener(listeners[i], event, data)
      ensures calls[|listeners|] == ToOriginalFire(event, data)
      ensures Valid() ==> forall i, j :: 0 <= i < j < |calls| ==> calls[i] != calls[j]
      ensures result == original
    {
      var snapshot := listeners;
      calls := [];
      for i := 0 to |snapshot|
        invariant |calls| == i
        invariant forall k :: 0 <= k < i ==> calls[k] == ToListener(snapshot[k], event, data)
      {
        calls := calls + [ToListener(snapshot[i], event, data)];
      }
      calls := calls + [ToOriginalFire(event, data)];
      result := original;
    }
  }
}
