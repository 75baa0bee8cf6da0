/**
 * What one connection's handlers act on: the socket (an outbound message
 * sequence), the process-wide metrics collector and event bus, the
 * `active_connections` registry and the rate limiter's per-client entries.
 *
 * Every call a handler makes on these is also appended to the ghost `trace`,
 * so the order of effects across services is part of each handler's contract.
 */
module Wire {
  import opened Outcomes
  import opened Dicts
  import opened JsonData
  import opened Clock
  import opened Events
  import opened Metrics

  /** A WebSocket as the backend uses it: `send_json` appends to what the peer receives. */
  class Socket {
    var sent: seq<Fields>

    constructor ()
      ensures sent == []
    {
      sent := [];
    }

    /** `await websocket.send_json(message)`. */
    method SendJson(message: Fields)
      modifies this
      ensures sent == old(sent) + [message]
    {
      sent := sent + [message];
    }
  }

  /** One observable step of a handler; the steps that read the clock carry the instant they read. */
  datatype Effect =
    | Sent(message: Fields)
    | Published(kind: EventKind, data: Fields, at: Instant)
    | CountedReceived(messageType: Json)
    | CountedSent(messageType: Json)
    | TouchedLastMessage(at: Instant)
    | RecordedTokens(tokens: int, at: Instant)
    | MarkedConnected(clientId: string, at: Instant)
    | MarkedDisconnected
    | Registered(clientId: string)
    | Unregistered(clientId: string)
    | LimiterCleared(clientId: string)

  /** The `data` of a MESSAGE_SENT event: who, which type, when. */
  function SentData(clientId: string, messageType: string, stamp: string): Fields
  {
    [("client_id", JStr(clientId)), ("message_type", JStr(messageType)), ("timestamp", JStr(stamp))]
  }

  /** What one effect contributes to each projection below. */
  function SentOf(x: Effect): seq<Fields>
  {
    if x.Sent? then [x.message] else []
  }

  function KindOf(x: Effect): seq<EventKind>
  {
    if x.Published? then [x.kind] else []
  }

  function ReceivedOf(x: Effect): seq<Json>
  {
    if x.CountedReceived? then [x.messageType] else []
  }

  function SentTypeOf(x: Effect): seq<Json>
  {
    if x.CountedSent? then [x.messageType] else []
  }

  /** Changes to the mod connection status the metrics hold. */
  function StatusOf(x: Effect): seq<Effect>
  {
    if x.MarkedConnected? || x.MarkedDisconnected? then [x] else []
  }

  /** What a projection keeps of a trace: each effect's part, in order. */
  function Project<T>(part: Effect -> seq<T>, effects: seq<Effect>): seq<T>
  {
    if effects == [] then [] else part(effects[0]) + Project(part, effects[1..])
  }

  /** The messages sent, in order. */
  function Outbound(effects: seq<Effect>): seq<Fields>
  {
    Project(SentOf, effects)
  }

  /** The kinds of the events published, in order. */
  function Kinds(effects: seq<Effect>): seq<EventKind>
  {
    Project(KindOf, effects)
  }

  /** The types counted as received, in order. */
  function ReceivedTypes(effects: seq<Effect>): seq<Json>
  {
    Project(ReceivedOf, effects)
  }

  /** The types counted as sent, in order. */
  function SentTypes(effects: seq<Effect>): seq<Json>
  {
    Project(SentTypeOf, effects)
  }

  /** The status changes, in order. */
  function Statuses(effects: seq<Effect>): seq<Effect>
  {
    Project(StatusOf, effects)
  }

  /**
   * What a trace amounts to for an observer: the messages sent, the kinds of
   * events published, the types counted as received and as sent, and the
   * connection-status changes, each in order.
   */
  datatype Summary = Summary(sent: seq<Fields>, kinds: seq<EventKind>, received: seq<Json>, counted: seq<Json>, status: seq<Effect>)

  function Summarize(effects: seq<Effect>): Summary
  {
    Summary(Outbound(effects), Kinds(effects), ReceivedTypes(effects), SentTypes(effects), Statuses(effects))
  }

  /** The summary of one effect. */
  function Single(x: Effect): Summary
  {
    Summary(SentOf(x), KindOf(x), ReceivedOf(x), SentTypeOf(x), StatusOf(x))
  }

  /** The summary of two traces one after the other. */
  function Then(a: Summary, b: Summary): Summary
  {
    Summary(a.sent + b.sent, a.kinds + b.kinds, a.received + b.received, a.counted + b.counted, a.status + b.status)
  }

  /** A projection distributes over concatenation. */
  lemma {:induction false} ProjectAppend<T>(part: Effect -> seq<T>, a: seq<Effect>, b: seq<Effect>)
    ensures Project(part, a + b) == Project(part, a) + Project(part, b)
  {
    if a == [] {
      assert a + b == b;
    } else {
      ProjectAppend(part, a[1..], b);
      assert (a + b)[1..] == a[1..] + b;
    }
  }

  /** The projection of a trace with one more effect in front. */
  lemma ProjectCons<T>(part: Effect -> seq<T>, x: Effect, r: seq<Effect>)
    ensures Project(part, [x] + r) == part(x) + Project(part, r)
  {
    assert ([x] + r)[1..] == r;
  }

  /** The projections of short literal traces, effect by effect. */
  lemma ProjectOne<T>(part: Effect -> seq<T>, a: Effect)
    ensures Project(part, [a]) == part(a)
  {
    assert [a][1..] == [];
  }

  lemma ProjectTwo<T>(part: Effect -> seq<T>, a: Effect, b: Effect)
    ensures Project(part, [a, b]) == part(a) + part(b)
  {
    assert [a, b] == [a] + [b];
    ProjectCons(part, a, [b]);
    ProjectOne(part, b);
  }

  lemma ProjectThree<T>(part: Effect -> seq<T>, a: Effect, b: Effect, c: Effect)
    ensures Project(part, [a, b, c]) == part(a) + part(b) + part(c)
  {
    assert [a, b, c] == [a] + [b, c];
    ProjectCons(part, a, [b, c]);
    ProjectTwo(part, b, c);
  }

  lemma ProjectFive<T>(part: Effect -> seq<T>, a: Effect, b: Effect, c: Effect, d: Effect, e: Effect)
    ensures Project(part, [a, b, c, d, e]) == part(a) + part(b) + part(c) + part(d) + part(e)
  {
    assert [a, b, c, d, e] == [a, b] + [c, d, e];
    ProjectAppend(part, [a, b], [c, d, e]);
    ProjectTwo(part, a, b);
    ProjectThree(part, c, d, e);
  }

  lemma ProjectSix<T>(part: Effect -> seq<T>, a: Effect, b: Effect, c: Effect, d: Effect, e: Effect, f: Effect)
    ensures Project(part, [a, b, c, d, e, f]) == part(a) + part(b) + part(c) + part(d) + part(e) + part(f)
  {
    assert [a, b, c, d, e, f] == [a, b, c] + [d, e, f];
    ProjectAppend(part, [a, b, c], [d, e, f]);
    ProjectThree(part, a, b, c);
    ProjectThree(part, d, e, f);
  }

  /** Regrouping a trace built in two steps. */
  lemma Associative<T>(a: seq<T>, b: seq<T>, c: seq<T>)
    ensures a + (b + c) == (a + b) + c
  {
  }

  lemma SummarizeAppend(a: seq<Effect>, b: seq<Effect>)
    ensures Summarize(a + b) == Then(Summarize(a), Summarize(b))
  {
    ProjectAppend(SentOf, a, b);
    ProjectAppend(KindOf, a, b);
    ProjectAppend(ReceivedOf, a, b);
    ProjectAppend(SentTypeOf, a, b);
    ProjectAppend(StatusOf, a, b);
  }

  lemma SummarizeOne(a: Effect)
    ensures Summarize([a]) == Single(a)
  {
    ProjectOne(SentOf, a);
    ProjectOne(KindOf, a);
    ProjectOne(ReceivedOf, a);
    ProjectOne(SentTypeOf, a);
    ProjectOne(StatusOf, a);
  }

  lemma SummarizeTwo(a: Effect, b: Effect)
    ensures Summarize([a, b]) == Then(Single(a), Single(b))
  {
    ProjectTwo(SentOf, a, b);
    ProjectTwo(KindOf, a, b);
    ProjectTwo(ReceivedOf, a, b);
    ProjectTwo(SentTypeOf, a, b);
    ProjectTwo(StatusOf, a, b);
  }

  lemma SummarizeThree(a: Effect, b: Effect, c: Effect)
    ensures Summarize([a, b, c]) == Then(Then(Single(a), Single(b)), Single(c))
  {
    ProjectThree(SentOf, a, b, c);
    ProjectThree(KindOf, a, b, c);
    ProjectThree(ReceivedOf, a, b, c);
    ProjectThree(SentTypeOf, a, b, c);
    ProjectThree(StatusOf, a, b, c);
  }

  lemma SummarizeFive(a: Effect, b: Effect, c: Effect, d: Effect, e: Effect)
    ensures Summarize([a, b, c, d, e]) == Then(Then(Then(Then(Single(a), Single(b)), Single(c)), Single(d)), Single(e))
  {
    ProjectFive(SentOf, a, b, c, d, e);
    ProjectFive(KindOf, a, b, c, d, e);
    ProjectFive(ReceivedOf, a, b, c, d, e);
    ProjectFive(SentTypeOf, a, b, c, d, e);
    ProjectFive(StatusOf, a, b, c, d, e);
  }

  lemma SummarizeSix(a: Effect, b: Effect, c: Effect, d: Effect, e: Effect, f: Effect)
    ensures Summarize([a, b, c, d, e, f])
         == Then(Then(Then(Then(Then(Single(a), Single(b)), Single(c)), Single(d)), Single(e)), Single(f))
  {
    ProjectSix(SentOf, a, b, c, d, e, f);
    ProjectSix(KindOf, a, b, c, d, e, f);
    ProjectSix(ReceivedOf, a, b, c, d, e, f);
    ProjectSix(SentTypeOf, a, b, c, d, e, f);
    ProjectSix(StatusOf, a, b, c, d, e, f);
  }

  /**
   * What the metrics collector and the event bus hold: the two totals, the
   * per-type counts, the reset time, the mod connection status, the token
   * buckets, and the bus's events since the last clear, its id counter, its
   * subscriptions and the callback calls made.
   */
  datatype Books = Books(
    received: nat, sent: nat, perType: Dict<Json, nat>, lastResetAt: Instant,
    modClientId: Option<string>, modConnectedAt: Option<Instant>, modLastMessageAt: Option<Instant>,
    tokenTrend: map<int, int>,
    log: seq<Event>, issued: nat, subscribers: map<EventKind, seq<Callback>>, deliveries: seq<Delivery>)

  /** What one effect does to the books: the MetricsCollector or EventBus call it stands for. */
  function Post(b: Books, x: Effect): Books
  {
    match x
    case Published(kind, data, at) =>
      var event := Event(b.issued, kind, at, data, DefaultSeverity);
      b.(log := b.log + [event], issued := b.issued + 1,
         deliveries := b.deliveries + Calls(SubscribersOf(b.subscribers, kind), event, Last(b.log + [event], Capacity)))
    case CountedReceived(t) =>
      b.(received := b.received + 1, perType := if Hashable(t) then Bumped(b.perType, t) else b.perType)
    case CountedSent(t) =>
      b.(sent := b.sent + 1, perType := if Hashable(t) then Bumped(b.perType, t) else b.perType)
    case TouchedLastMessage(at) => b.(modLastMessageAt := Some(at))
    case RecordedTokens(tokens, at) => b.(tokenTrend := Recorded(b.tokenTrend, at, tokens))
    case MarkedConnected(clientId, at) => b.(modClientId := Some(clientId), modConnectedAt := Some(at))
    case MarkedDisconnected => b.(modClientId := None, modConnectedAt := None)
    case Sent(_) => b
    case Registered(_) => b
    case Unregistered(_) => b
    case LimiterCleared(_) => b
  }

  /** The books after the effects of a trace, one after the other, starting from `b`. */
  function PostAll(b: Books, effects: seq<Effect>): Books
  {
    if effects == [] then b else Post(PostAll(b, effects[..|effects| - 1]), effects[|effects| - 1])
  }

  lemma PostAllStep(b: Books, t: seq<Effect>, x: Effect)
    ensures PostAll(b, t + [x]) == Post(PostAll(b, t), x)
  {
    assert (t + [x])[..|t|] == t;
  }

  /** Posting short literal traces, effect by effect. */
  lemma PostAllOne(b: Books, x: Effect)
    ensures PostAll(b, [x]) == Post(b, x)
  {
    assert [x][..0] == [];
  }

  lemma PostAllTwo(b: Books, x: Effect, y: Effect)
    ensures PostAll(b, [x, y]) == Post(Post(b, x), y)
  {
    assert [] + [x] == [x];
    assert [x] + [y] == [x, y];
    PostAllStep(b, [], x);
    PostAllStep(b, [x], y);
  }

  lemma PostAllThree(b: Books, x: Effect, y: Effect, z: Effect)
    ensures PostAll(b, [x, y, z]) == Post(Post(Post(b, x), y), z)
  {
    assert [x, y] + [z] == [x, y, z];
    PostAllStep(b, [x, y], z);
    PostAllTwo(b, x, y);
  }

  /** Books reached in two legs are the books of the two traces joined. */
  lemma PostAllThen(b0: Books, first: seq<Effect>, b1: Books, second: seq<Effect>, b2: Books)
    requires b1 == PostAll(b0, first) && b2 == PostAll(b1, second)
    ensures b2 == PostAll(b0, first + second)
  {
    PostAllAppend(b0, first, second);
  }

  /** Posting a trace in two parts is posting it whole. */
  lemma {:induction false} PostAllAppend(b: Books, t: seq<Effect>, e: seq<Effect>)
    ensures PostAll(b, t + e) == PostAll(PostAll(b, t), e)
  {
    if e == [] {
      assert t + e == t;
    } else {
      var init := e[..|e| - 1];
      PostAllAppend(b, t, init);
      assert (t + e)[..|t + e| - 1] == t + init;
    }
  }

  /**
   * A trace adds one to the received total per received count, one to the
   * sent total per sent count, and one event per publish; the reset time and
   * the subscriptions stay.
   */
  lemma {:induction false} PostAllCounts(b: Books, e: seq<Effect>)
    ensures PostAll(b, e).received == b.received + |ReceivedTypes(e)|
    ensures PostAll(b, e).sent == b.sent + |SentTypes(e)|
    ensures PostAll(b, e).issued == b.issued + |Kinds(e)|
    ensures |PostAll(b, e).log| == |b.log| + |Kinds(e)|
    ensures PostAll(b, e).lastResetAt == b.lastResetAt && PostAll(b, e).subscribers == b.subscribers
  {
    if e != [] {
      var init, x := e[..|e| - 1], e[|e| - 1];
      PostAllCounts(b, init);
      assert e == init + [x];
      assert PostAll(b, e) == Post(PostAll(b, init), x);
      ProjectAppend(ReceivedOf, init, [x]);
      ProjectAppend(SentTypeOf, init, [x]);
      ProjectAppend(KindOf, init, [x]);
      PostCounts(PostAll(b, init), x);
    }
  }

  /** One effect's share of the counters. */
  lemma PostCounts(b: Books, x: Effect)
    ensures Post(b, x).received == b.received + |ReceivedTypes([x])|
    ensures Post(b, x).sent == b.sent + |SentTypes([x])|
    ensures Post(b, x).issued == b.issued + |Kinds([x])|
    ensures |Post(b, x).log| == |b.log| + |Kinds([x])|
    ensures Post(b, x).lastResetAt == b.lastResetAt && Post(b, x).subscribers == b.subscribers
  {
    ProjectOne(ReceivedOf, x);
    ProjectOne(SentTypeOf, x);
    ProjectOne(KindOf, x);
  }

  /** The events a trace publishes are appended to the log in order, with the kinds the trace gives them. */
  lemma {:induction false} PostAllEvents(b: Books, e: seq<Effect>)
    ensures |PostAll(b, e).log| == |b.log| + |Kinds(e)|
    ensures forall i :: 0 <= i < |b.log| ==> PostAll(b, e).log[i] == b.log[i]
    ensures forall i :: 0 <= i < |Kinds(e)| ==> PostAll(b, e).log[|b.log| + i].kind == Kinds(e)[i]
  {
    PostAllCounts(b, e);
    if e != [] {
      var init, x := e[..|e| - 1], e[|e| - 1];
      var p := PostAll(b, init);
      PostAllEvents(b, init);
      PostAllCounts(b, init);
      assert e == init + [x];
      ProjectAppend(KindOf, init, [x]);
      ProjectOne(KindOf, x);
      assert PostAll(b, e) == Post(p, x);
      if x.Published? {
        assert Post(p, x).log == p.log + [Event(p.issued, x.kind, x.at, x.data, DefaultSeverity)];
        assert Kinds(e) == Kinds(init) + [x.kind];
      } else {
        assert Post(p, x).log == p.log;
        assert Kinds(e) == Kinds(init);
      }
    }
  }

  /** A trace that changes no connection status leaves the mod's status as it was. */
  lemma {:induction false} PostAllKeepsStatus(b: Books, e: seq<Effect>)
    requires Statuses(e) == []
    ensures PostAll(b, e).modClientId == b.modClientId && PostAll(b, e).modConnectedAt == b.modConnectedAt
  {
    if e != [] {
      var init, x := e[..|e| - 1], e[|e| - 1];
      assert e == init + [x];
      ProjectAppend(StatusOf, init, [x]);
      ProjectOne(StatusOf, x);
      PostAllKeepsStatus(b, init);
    }
  }

  /**
   * The services one handler call may touch: MetricsCollector and EventBus
   * (class-level singletons in the source), `active_connections` and the
   * rate limiter.  Each method below appends its effect to the trace and
   * moves the metrics and the bus exactly as `Post` says for that effect.
   */
  class Services {
    const metrics: MetricsCollector
    const bus: EventBus
    /** The module-level `active_connections` dict of api/websocket.py. */
    var activeConnections: Dict<string, Socket>
    /** The client ids the rate limiter may hold a window for; the admissions themselves are not modelled. */
    var limited: set<string>
    /** Every effect so far, in order. */
    ghost var trace: seq<Effect>

    /** The metrics and the bus as they stand. */
    ghost function Snapshot(): Books
      reads metrics, bus
    {
      Books(metrics.totalReceived, metrics.totalSent, metrics.perType, metrics.lastResetAt,
            metrics.modClientId, metrics.modConnectedAt, metrics.modLastMessageAt, metrics.tokenTrend,
            bus.log, bus.issued, bus.subscribers, bus.deliveries)
    }

    ghost predicate Valid()
      reads this, metrics, bus
    {
      metrics.Valid() && bus.Valid() && IsDict(activeConnections)
    }

    constructor (metrics: MetricsCollector, bus: EventBus)
      requires metrics.Valid() && bus.Valid()
      ensures Valid() && this.metrics == metrics && this.bus == bus
      ensures activeConnections == [] && limited == {} && trace == []
    {
      this.metrics := metrics;
      this.bus := bus;
      activeConnections := [];
      limited := {};
      trace := [];
    }

    /** `await websocket.send_json(message)`. */
    method Send(socket: Socket, message: Fields)
      requires Valid()
      modifies socket, this`trace
      ensures Valid()
      ensures socket.sent == old(socket.sent) + [message]
      ensures Snapshot() == Post(old(Snapshot()), Sent(message))
      ensures trace == old(trace) + [Sent(message)]
    {
      socket.SendJson(message);
      trace := trace + [Sent(message)];
    }

    /** `EventBus.publish(kind, data)` at `now`, with the default severity. */
    method Publish(kind: EventKind, data: Fields, now: Instant)
      requires Valid()
      modifies bus, this`trace
      ensures Valid()
      ensures bus.log == old(bus.log) + [Event(old(bus.issued), kind, now, data, DefaultSeverity)]
      ensures bus.history == Appended(old(bus.history), Event(old(bus.issued), kind, now, data, DefaultSeverity))
      ensures Snapshot() == Post(old(Snapshot()), Published(kind, data, now))
      ensures trace == old(trace) + [Published(kind, data, now)]
    {
      var _ := bus.Publish(kind, data, DefaultSeverity, now);
      trace := trace + [Published(kind, data, now)];
    }

    /** `MetricsCollector.record_message_received(t)`; false when it raised. */
    method CountReceived(t: Json) returns (ok: bool)
      requires Valid()
      modifies metrics, this`trace
      ensures Valid() && ok == Hashable(t)
      ensures metrics.totalReceived == old(metrics.totalReceived) + 1
      ensures metrics.totalSent == old(metrics.totalSent)
      ensures metrics.perType == if ok then Bumped(old(metrics.perType), t) else old(metrics.perType)
      ensures Snapshot() == Post(old(Snapshot()), CountedReceived(t))
      ensures trace == old(trace) + [CountedReceived(t)]
    {
      ok := metrics.RecordReceived(t);
      trace := trace + [CountedReceived(t)];
    }

    /** `MetricsCollector.record_message_sent(t)` for a string type, which never raises. */
    method CountSent(t: string)
      requires Valid()
      modifies metrics, this`trace
      ensures Valid()
      ensures metrics.totalSent == old(metrics.totalSent) + 1
      ensures metrics.totalReceived == old(metrics.totalReceived)
      ensures metrics.perType == Bumped(old(metrics.perType), JStr(t))
      ensures Snapshot() == Post(old(Snapshot()), CountedSent(JStr(t)))
      ensures trace == old(trace) + [CountedSent(JStr(t))]
    {
      var _ := metrics.RecordSent(JStr(t));
      trace := trace + [CountedSent(JStr(t))];
    }

    /** `MetricsCollector.update_mod_last_message()` at `now`. */
    method TouchLastMessage(now: Instant)
      requires Valid()
      modifies metrics, this`trace
      ensures Valid() && metrics.modLastMessageAt == Some(now)
      ensures Snapshot() == Post(old(Snapshot()), TouchedLastMessage(now))
      ensures trace == old(trace) + [TouchedLastMessage(now)]
    {
      metrics.UpdateModLastMessage(now);
      trace := trace + [TouchedLastMessage(now)];
    }

    /** `MetricsCollector.record_token_usage(tokens)` at `now`. */
    method RecordTokens(tokens: int, now: Instant)
      requires Valid()
      modifies metrics, this`trace
      ensures Valid() && metrics.tokenTrend == Recorded(old(metrics.tokenTrend), now, tokens)
      ensures Snapshot() == Post(old(Snapshot()), RecordedTokens(tokens, now))
      ensures trace == old(trace) + [RecordedTokens(tokens, now)]
    {
      metrics.RecordTokenUsage(tokens, now);
      trace := trace + [RecordedTokens(tokens, now)];
    }

    /** `MetricsCollector.set_mod_connected(client_id)` at `now`. */
    method MarkConnected(clientId: string, now: Instant)
      requires Valid()
      modifies metrics, this`trace
      ensures Valid() && metrics.modClientId == Some(clientId) && metrics.modConnectedAt == Some(now)
      ensures Snapshot() == Post(old(Snapshot()), MarkedConnected(clientId, now))
      ensures trace == old(trace) + [MarkedConnected(clientId, now)]
    {
      metrics.SetModConnected(clientId, now);
      trace := trace + [MarkedConnected(clientId, now)];
    }

    /** `MetricsCollector.set_mod_disconnected()`. */
    method MarkDisconnected()
      requires Valid()
      modifies metrics, this`trace
      ensures Valid() && metrics.modClientId == None && metrics.modConnectedAt == None
      ensures metrics.modLastMessageAt == old(metrics.modLastMessageAt)
      ensures Snapshot() == Post(old(Snapshot()), MarkedDisconnected)
      ensures trace == old(trace) + [MarkedDisconnected]
    {
      metrics.SetModDisconnected();
      trace := trace + [MarkedDisconnected];
    }

    /** `active_connections[client_id] = websocket`. */
    method Register(clientId: string, socket: Socket)
      requires Valid()
      modifies this`activeConnections, this`trace
      ensures Valid() && activeConnections == Put(old(activeConnections), clientId, socket)
      ensures Snapshot() == Post(old(Snapshot()), Registered(clientId))
      ensures trace == old(trace) + [Registered(clientId)]
    {
      PutEntries(activeConnections, clientId, socket);
      activeConnections := Put(activeConnections, clientId, socket);
      trace := trace + [Registered(clientId)];
    }

    /** `active_connections.pop(client_id, None)`. */
    method Unregister(clientId: string)
      requires Valid()
      modifies this`activeConnections, this`trace
      ensures Valid() && activeConnections == Remove(old(activeConnections), clientId)
      ensures clientId !in Keys(activeConnections)
      ensures Snapshot() == Post(old(Snapshot()), Unregistered(clientId))
      ensures trace == old(trace) + [Unregistered(clientId)]
    {
      RemoveGone(activeConnections, clientId);
      activeConnections := Remove(activeConnections, clientId);
      trace := trace + [Unregistered(clientId)];
    }

    /** `mod_rate_limiter.clear(client_id)`. */
    method ClearLimiter(clientId: string)
      requires Valid()
      modifies this`limited, this`trace
      ensures Valid()
      ensures limited == old(limited) - {clientId}
      ensures Snapshot() == Post(old(Snapshot()), LimiterCleared(clientId))
      ensures trace == old(trace) + [LimiterCleared(clientId)]
    {
      limited := limited - {clientId};
      trace := trace + [LimiterCleared(clientId)];
    }
  }
}
