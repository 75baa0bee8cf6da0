/**
 * The monitor event bus (core/monitor/event_bus.py): a process-wide history of
 * the last 100 published events, oldest first, and per event type the list of
 * subscribed callbacks in subscription order.
 *
 * A callback is an opaque handle; calling it is recorded as a `Delivery` that
 * notes the history at the moment of the call.  The event id (a uuid4 in the
 * source) is drawn from a counter, and the publish time is a parameter.
 */
module Events {
  import opened JsonData
  import opened Clock

  /** MonitorEventType: the kinds of event the backend publishes. */
  datatype EventKind = ModConnected | ModDisconnected | MessageReceived | MessageSent | TokenStats

  /** The event dict built by `publish`. */
  datatype Event = Event(id: nat, kind: EventKind, timestamp: Instant, data: Fields, severity: string)

  /** A callback handle, as passed to `subscribe`. */
  type Callback = nat

  /** One call `callback(event)`, with the history as it stood when the call was made. */
  datatype Delivery = Delivery(callback: Callback, event: Event, historyAtCall: seq<Event>)

  /** `deque(maxlen=100)`. */
  const Capacity: nat := 100

  const DefaultSeverity: string := "info"

  /** The last `n` elements of `s` (all of `s` when it is shorter). */
  function Last<T>(s: seq<T>, n: nat): (r: seq<T>)
    ensures |r| == if |s| < n then |s| else n
    ensures forall i :: 0 <= i < |r| ==> r[i] == s[|s| - |r| + i]
  {
    if |s| <= n then s else s[|s| - n..]
  }

  /** Appending to a bounded deque: when it is full the oldest element is dropped first. */
  function Appended(h: seq<Event>, e: Event): seq<Event>
  {
    if |h| < Capacity then h + [e] else h[1..] + [e]
  }

  /** Appending to the window of the last `Capacity` events is the window of the extended log. */
  lemma AppendedWindow(log: seq<Event>, e: Event)
    ensures Appended(Last(log, Capacity), e) == Last(log + [e], Capacity)
  {
    var h := Last(log, Capacity);
    var r := Appended(h, e);
    var w := Last(log + [e], Capacity);
    assert |r| == |w|;
    forall i | 0 <= i < |r|
      ensures r[i] == w[i]
    {
    }
  }

  /** The bounded history never exceeds its capacity, and the newest element is the one appended. */
  lemma AppendedBounded(h: seq<Event>, e: Event)
    requires |h| <= Capacity
    ensures |Appended(h, e)| <= Capacity
    ensures |Appended(h, e)| == if |h| < Capacity then |h| + 1 else Capacity
    ensures Appended(h, e)[|Appended(h, e)| - 1] == e
    ensures |h| == Capacity ==> Appended(h, e)[..Capacity - 1] == h[1..]
    ensures |h| < Capacity ==> Appended(h, e)[..|h|] == h
  {
  }

  /** The callbacks subscribed to `kind`, in subscription order (`_subscribers.get(kind, [])`). */
  function SubscribersOf(subscribers: map<EventKind, seq<Callback>>, kind: EventKind): seq<Callback>
  {
    if kind in subscribers then subscribers[kind] else []
  }

  /** One call per subscription, in order, each seeing history `h`. */
  function Calls(subs: seq<Callback>, event: Event, h: seq<Event>): seq<Delivery>
    decreases |subs|
  {
    if subs == [] then [] else Calls(subs[..|subs| - 1], event, h) + [Delivery(subs[|subs| - 1], event, h)]
  }

  /**
   * Publishing calls every subscribed callback exactly once per subscription,
   * in subscription order, and each call sees the same history.
   */
  lemma {:induction false} CallsInOrder(subs: seq<Callback>, event: Event, h: seq<Event>)
    ensures |Calls(subs, event, h)| == |subs|
    ensures forall i :: 0 <= i < |subs| ==> Calls(subs, event, h)[i] == Delivery(subs[i], event, h)
    decreases |subs|
  {
    if subs != [] {
      CallsInOrder(subs[..|subs| - 1], event, h);
    }
  }

  class EventBus {
    /** `_event_history`: the retained events, oldest first. */
    var history: seq<Event>
    /** `_subscribers`. */
    var subscribers: map<EventKind, seq<Callback>>
    /** Every callback call made so far, in order. */
    var deliveries: seq<Delivery>
    /** Ids issued so far; the next event gets this one. */
    var issued: nat
    /** Every event published since the history was last cleared. */
    ghost var log: seq<Event>

    /** The history holds exactly the last `Capacity` events published since the last clear. */
    ghost predicate Valid()
      reads this
    {
      history == Last(log, Capacity)
    }

    constructor ()
      ensures Valid()
      ensures history == [] && subscribers == map[] && deliveries == [] && log == []
    {
      history := [];
      subscribers := map[];
      deliveries := [];
      issued := 0;
      log := [];
    }

    /**
     * `publish(kind, data, severity)`: the event is appended to the history
     * first, then each callback subscribed to `kind` is called once, in
     * subscription order; callbacks of other kinds are not called.
     */
    method Publish(kind: EventKind, data: Fields, severity: string, now: Instant) returns (event: Event)
      requires Valid()
      modifies this
      ensures Valid()
      ensures event == Event(old(issued), kind, now, data, severity)
      ensures issued == old(issued) + 1
      ensures log == old(log) + [event]
      ensures history == Appended(old(history), event)
      ensures |history| <= Capacity && history[|history| - 1] == event
      ensures subscribers == old(subscribers)
      ensures deliveries == old(deliveries) + Calls(SubscribersOf(subscribers, kind), event, history)
    {
      event := Event(issued, kind, now, data, severity);
      issued := issued + 1;
      AppendedWindow(log, event);
      AppendedBounded(history, event);
      history := Appended(history, event);
      log := log + [event];
      Notify(SubscribersOf(subscribers, kind), event, history);
    }

    /** The callback loop of `publish`: `for callback in subs: callback(event)`. */
    method Notify(subs: seq<Callback>, event: Event, seen: seq<Event>)
      modifies this`deliveries
      ensures deliveries == old(deliveries) + Calls(subs, event, seen)
    {
      for i := 0 to |subs|
        invariant deliveries == old(deliveries) + Calls(subs[..i], event, seen)
      {
        deliveries := deliveries + [Delivery(subs[i], event, seen)];
        assert subs[..i + 1][..i] == subs[..i];
      }
      assert subs[..|subs|] == subs;
    }

    /** `subscribe(kind, callback)`: appended at the end, without removing an earlier copy. */
    method Subscribe(kind: EventKind, callback: Callback)
      modifies this`subscribers
      ensures subscribers == old(subscribers)[kind := SubscribersOf(old(subscribers), kind) + [callback]]
    {
      subscribers := subscribers[kind := SubscribersOf(subscribers, kind) + [callback]];
    }

    /** `get_recent_events(limit)`: none for a limit that is not positive, else the last `limit`, oldest first. */
    method GetRecentEvents(limit: int) returns (events: seq<Event>)
      ensures limit <= 0 ==> events == []
      ensures limit > 0 ==> |events| == (if limit < |history| then limit else |history|)
      ensures events == history[|history| - |events|..]
    {
      if limit <= 0 {
        return [];
      }
      var all := history;
      events := Last(all, limit);
    }

    /** `clear_history()`: the history is emptied; subscribers and past calls are untouched. */
    method ClearHistory()
      requires Valid()
      modifies this`history, this`log
      ensures Valid() && history == [] && log == []
    {
      history := [];
      log := [];
    }
  }

  /**
   * Publishing `n` events one after another leaves the last min(n, 100) of
   * them in the history: each publish keeps the window invariant.
   */
  lemma {:induction false} HistoryIsWindow(log: seq<Event>)
    ensures Last(log, Capacity) == Replay([], log)
    decreases |log|
  {
    if log != [] {
      var init, e := log[..|log| - 1], log[|log| - 1];
      calc {
        Last(log, Capacity);
        { assert init + [e] == log; }
        Last(init + [e], Capacity);
        { AppendedWindow(init, e); }
        Appended(Last(init, Capacity), e);
        { HistoryIsWindow(init); }
        Appended(Replay([], init), e);
      }
    }
  }

  /** The history after publishing `events` in order, starting from `h`. */
  function Replay(h: seq<Event>, events: seq<Event>): seq<Event>
    decreases |events|
  {
    if events == [] then h else Appended(Replay(h, events[..|events| - 1]), events[|events| - 1])
  }
}
