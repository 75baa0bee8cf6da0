/**
 * The metrics collector (core/monitor/metrics_collector.py): message
 * counters, one shared per-type count map, the mod connection status and an
 * hour-bucketed token map.
 *
 * The per-type map is keyed by whatever message type the gateway passes: the
 * normalised `type` value, which may be any JSON value.  Lists and dicts are
 * unhashable, so counting one raises after `total_received` (or
 * `total_sent`) has already been incremented; the ghost counter `unkeyed`
 * keeps the tally of those.  Token buckets are keyed by hour index rather than
 * by their `"%Y-%m-%d %H:00"` text.
 */
module Metrics {
  import opened Outcomes
  import opened Dicts
  import opened JsonData
  import opened Clock

  /** A `defaultdict(int)` lookup: the stored count, or 0. */
  function Count(d: Dict<Json, nat>, k: Json): nat
  {
    match Get(d, k)
    case Some(n) => n
    case None => 0
  }

  /** The sum of all per-type counts. */
  function Total(d: Dict<Json, nat>): nat
  {
    if d == [] then 0 else d[0].1 + Total(d[1..])
  }

  /** Replacing one count changes the sum by exactly the difference. */
  lemma {:induction false} TotalPut(d: Dict<Json, nat>, k: Json, v: nat)
    ensures Total(Put<Json, nat>(d, k, v)) == Total(d) - Count(d, k) + v
  {
    if d != [] && d[0].0 != k {
      TotalPut(d[1..], k, v);
      assert Put<Json, nat>(d, k, v)[1..] == Put<Json, nat>(d[1..], k, v);
    }
  }

  /** Counting one message of type `k` adds one to that type's count and one to the sum. */
  function Bumped(d: Dict<Json, nat>, k: Json): (r: Dict<Json, nat>)
    ensures Count(r, k) == Count(d, k) + 1
    ensures forall k' :: k' != k ==> Count(r, k') == Count(d, k')
    ensures Total(r) == Total(d) + 1
  {
    TotalPut(d, k, Count(d, k) + 1);
    Put<Json, nat>(d, k, Count(d, k) + 1)
  }

  /** One point of the token trend: hour of day, tokens in that hour, and the hour's start. */
  datatype TrendPoint = TrendPoint(hour: int, tokens: int, timestamp: Instant)

  /** TokenTrendStats. */
  datatype TrendStats = TrendStats(trend: seq<TrendPoint>, totalTokens: int, lastUpdated: Instant)

  /** The number of hourly points `get_token_trend` returns. */
  const TrendHours: nat := 24

  /** `_token_trend.get(h, 0)`. */
  function TokensAt(trend: map<int, int>, h: int): int
  {
    if h in trend then trend[h] else 0
  }

  /** A bucket survives pruning at `now` unless its hour starts more than 24 hours before `now`. */
  predicate Fresh(h: int, now: Instant)
  {
    HourStart(h) >= now - TrendHours * Hour
  }

  /**
   * `record_token_usage(tokens)` at `now`: the current hour's bucket gains
   * `tokens`, then every bucket starting before `now - 24h` is dropped.
   */
  function Recorded(trend: map<int, int>, now: Instant, tokens: int): (r: map<int, int>)
    ensures HourOf(now) in r && r[HourOf(now)] == TokensAt(trend, HourOf(now)) + tokens
    ensures forall h :: h in r && h != HourOf(now) ==> h in trend && r[h] == trend[h]
    ensures forall h :: h in r ==> Fresh(h, now)
    ensures forall h :: h in trend && Fresh(h, now) ==> h in r
  {
    var added := trend[HourOf(now) := TokensAt(trend, HourOf(now)) + tokens];
    map h | h in added && Fresh(h, now) :: added[h]
  }

  /** The hour index of the `i`-th trend point at `now`, oldest first, the last being the current hour. */
  function TrendHour(now: Instant, i: int): int
  {
    HourOf(now) - (TrendHours - 1) + i
  }

  function TrendPointAt(trend: map<int, int>, h: int): TrendPoint
  {
    TrendPoint(h % 24, TokensAt(trend, h), HourStart(h))
  }

  /** The sum of the points' tokens. */
  function SumTokens(points: seq<TrendPoint>): int
  {
    if points == [] then 0 else SumTokens(points[..|points| - 1]) + points[|points| - 1].tokens
  }

  class MetricsCollector {
    var totalReceived: nat
    var totalSent: nat
    /** `messages_per_type`, in insertion order. */
    var perType: Dict<Json, nat>
    var lastResetAt: Instant
    /** Messages counted in a total whose type could not be used as a key. */
    ghost var unkeyed: nat
    var modClientId: Option<string>
    var modConnectedAt: Option<Instant>
    var modLastMessageAt: Option<Instant>
    /** `_token_trend`, by hour index. */
    var tokenTrend: map<int, int>

    /** Since the last reset, the per-type counts add up to the two totals. */
    ghost predicate Valid()
      reads this
    {
      IsDict(perType) && Total(perType) + unkeyed == totalReceived + totalSent
    }

    /** The first instantiation: `reset_stats()`, an empty connection status and token map. */
    constructor (now: Instant)
      ensures Valid()
      ensures totalReceived == 0 && totalSent == 0 && perType == [] && lastResetAt == now
      ensures modClientId == None && modConnectedAt == None && modLastMessageAt == None
      ensures tokenTrend == map[]
    {
      totalReceived := 0;
      totalSent := 0;
      perType := [];
      lastResetAt := now;
      unkeyed := 0;
      modClientId := None;
      modConnectedAt := None;
      modLastMessageAt := None;
      tokenTrend := map[];
    }

    /**
     * `record_message_received(t)`: one more received message, and one more
     * of type `t`.  `ok` is false when `t` is unhashable: the total has been
     * incremented and then the map update raised.
     */
    method RecordReceived(t: Json) returns (ok: bool)
      requires Valid()
      modifies this`totalReceived, this`perType, this`unkeyed
      ensures Valid()
      ensures ok == Hashable(t)
      ensures totalReceived == old(totalReceived) + 1
      ensures perType == if ok then Bumped(old(perType), t) else old(perType)
    {
      totalReceived := totalReceived + 1;
      if !Hashable(t) {
        unkeyed := unkeyed + 1;
        return false;
      }
      PutEntries<Json, nat>(perType, t, Count(perType, t) + 1);
      perType := Bumped(perType, t);
      ok := true;
    }

    /** `record_message_sent(t)`: one more sent message, and one more of type `t`. */
    method RecordSent(t: Json) returns (ok: bool)
      requires Valid()
      modifies this`totalSent, this`perType, this`unkeyed
      ensures Valid()
      ensures ok == Hashable(t)
      ensures totalSent == old(totalSent) + 1
      ensures perType == if ok then Bumped(old(perType), t) else old(perType)
    {
      totalSent := totalSent + 1;
      if !Hashable(t) {
        unkeyed := unkeyed + 1;
        return false;
      }
      PutEntries<Json, nat>(perType, t, Count(perType, t) + 1);
      perType := Bumped(perType, t);
      ok := true;
    }

    /** `set_mod_connected(client_id)` at `now`. */
    method SetModConnected(clientId: string, now: Instant)
      modifies this`modClientId, this`modConnectedAt
      ensures modClientId == Some(clientId) && modConnectedAt == Some(now)
    {
      modClientId := Some(clientId);
      modConnectedAt := Some(now);
    }

    /** `set_mod_disconnected()`: the last-message time is kept. */
    method SetModDisconnected()
      modifies this`modClientId, this`modConnectedAt
      ensures modClientId == None && modConnectedAt == None
    {
      modClientId := None;
      modConnectedAt := None;
    }

    /** `update_mod_last_message()` at `now`. */
    method UpdateModLastMessage(now: Instant)
      modifies this`modLastMessageAt
      ensures modLastMessageAt == Some(now)
    {
      modLastMessageAt := Some(now);
    }

    /** `record_token_usage(tokens)` at `now`: add to the current bucket, then delete the stale ones one by one. */
    method RecordTokenUsage(tokens: int, now: Instant)
      modifies this`tokenTrend
      ensures tokenTrend == Recorded(old(tokenTrend), now, tokens)
    {
      var hourKey := HourOf(now);
      tokenTrend := tokenTrend[hourKey := TokensAt(tokenTrend, hourKey) + tokens];
      ghost var added := tokenTrend;
      var outdated := set h | h in tokenTrend && !Fresh(h, now);
      assert tokenTrend == map h | h in added && (Fresh(h, now) || h in outdated) :: added[h];
      while outdated != {}
        invariant outdated <= added.Keys
        invariant forall x :: x in outdated ==> !Fresh(x, now)
        invariant tokenTrend == map h | h in added && (Fresh(h, now) || h in outdated) :: added[h]
        decreases |outdated|
      {
        var h :| h in outdated;
        var rest := outdated - {h};
        assert tokenTrend - {h} == map x | x in added && (Fresh(x, now) || x in rest) :: added[x];
        tokenTrend := tokenTrend - {h};
        outdated := rest;
      }
    }

    /**
     * `get_token_trend()` at `now`: one point per hour for the 24 hours
     * ending with the current one, oldest first, a missing bucket counting 0,
     * and the sum of their tokens.
     */
    method GetTokenTrend(now: Instant) returns (stats: TrendStats)
      ensures |stats.trend| == TrendHours
      ensures forall i :: 0 <= i < TrendHours ==> stats.trend[i] == TrendPointAt(tokenTrend, TrendHour(now, i))
      ensures stats.totalTokens == SumTokens(stats.trend)
      ensures stats.lastUpdated == HourStart(HourOf(now))
    {
      var current := HourOf(now);
      var points: seq<TrendPoint> := [];
      var total := 0;
      var offset := TrendHours - 1;
      while offset >= 0
        invariant -1 <= offset <= TrendHours - 1
        invariant |points| == TrendHours - 1 - offset
        invariant forall i :: 0 <= i < |points| ==> points[i] == TrendPointAt(tokenTrend, TrendHour(now, i))
        invariant total == SumTokens(points)
      {
        var h := current - offset;
        var tokens := TokensAt(tokenTrend, h);
        total := total + tokens;
        var point := TrendPoint(h % 24, tokens, HourStart(h));
        assert (points + [point])[..|points|] == points;
        points := points + [point];
        offset := offset - 1;
      }
      stats := TrendStats(points, total, HourStart(current));
    }

    /** `reset_stats()` at `now`: totals and per-type counts start again; tokens and status are untouched. */
    method ResetStats(now: Instant)
      modifies this`totalReceived, this`totalSent, this`perType, this`lastResetAt, this`unkeyed
      ensures Valid()
      ensures totalReceived == 0 && totalSent == 0 && perType == [] && lastResetAt == now
    {
      totalReceived := 0;
      totalSent := 0;
      perType := [];
      lastResetAt := now;
      unkeyed := 0;
    }
  }

  /** Tokens recorded at `now` show up in the last point of the trend read in the same hour. */
  lemma RecordedThenTrend(trend: map<int, int>, now: Instant, later: Instant, tokens: int)
    requires HourOf(later) == HourOf(now)
    ensures TrendPointAt(Recorded(trend, now, tokens), TrendHour(later, TrendHours - 1)).tokens
            == TokensAt(trend, HourOf(now)) + tokens
  {
  }

  /** Every hour the trend shows survives pruning, so recording never hides a bucket the trend reads. */
  lemma TrendHoursAreFresh(now: Instant, i: int)
    requires 0 <= i < TrendHours
    ensures Fresh(TrendHour(now, i), now)
  {
    var h := HourOf(now);
    assert HourStart(h) <= now;
    assert HourStart(h - 23 + i) >= HourStart(h) - 23 * Hour;
  }
}
