/**
 * ConversationHandler (api/handlers/conversation.py): answers a
 * conversation request with a fixed-shape echo response, records the sent
 * message and the token usage of the response's compact form, and publishes a
 * TOKEN_STATS and a MESSAGE_SENT event, all before sending the response.
 *
 * `TokenTracker.compare` is a parameter: any function of the standard and
 * compact forms giving the three token figures.
 */
module Conversation {
  import opened Outcomes
  import opened Dicts
  import opened JsonData
  import opened Clock
  import opened Protocol
  import opened Events
  import opened Wire

  const EchoPrefix: string := "[Echo] 收到："
  const CompanionName: string := "AICompanion"
  const ResponseType: string := "conversation_response"
  const StatsType: string := "conversation"

  /** The figures `TokenTracker.compare(standard, compact)` reports. */
  datatype TokenComparison = TokenComparison(standardTokens: int, compactTokens: int, savedPercent: int)

  /** The `data` of the TOKEN_STATS event: compare's figures plus `client_id` and `message_type`. */
  function StatsData(c: TokenComparison, clientId: string): Fields
  {
    [("standard_tokens", JNum(c.standardTokens)), ("compact_tokens", JNum(c.compactTokens)),
     ("saved_percent", JNum(c.savedPercent)), ("client_id", JStr(clientId)),
     ("message_type", JStr(StatsType))]
  }

  /** `standard.get(key, default)`. */
  function GetOr(d: Fields, key: string, default: Json): Json
  {
    match Get(d, key)
    case Some(v) => v
    case None => default
  }

  /**
   * The echo response to a normalised request: its `id` (or `defaultId`),
   * the constant type and companion, and the request's message after the echo
   * prefix (nothing after it when the request has none).
   */
  function EchoResponse(standard: Fields, defaultId: Json): Fields
  {
    var said := if HasKey(standard, "message") then Str(Get(standard, "message").value) else "";
    [("id", GetOr(standard, "id", defaultId)), ("type", JStr(ResponseType)),
     ("companionName", JStr(CompanionName)), ("message", JStr(EchoPrefix + said))]
  }

  /**
   * The response has exactly the keys id, type, companionName and message, in
   * that order; the type and companion are constant, the id is the request's
   * (or the default), and the message is the echo of the request's message.
   */
  lemma EchoResponseShape(standard: Fields, defaultId: Json)
    ensures Keys(EchoResponse(standard, defaultId)) == ["id", "type", "companionName", "message"]
    ensures IsDict(EchoResponse(standard, defaultId))
    ensures Get(EchoResponse(standard, defaultId), "type") == Some(JStr(ResponseType))
    ensures Get(EchoResponse(standard, defaultId), "companionName") == Some(JStr(CompanionName))
    ensures Get(EchoResponse(standard, defaultId), "id") ==
      Some(if HasKey(standard, "id") then Get(standard, "id").value else defaultId)
    ensures Get(EchoResponse(standard, defaultId), "message") ==
      Some(JStr(EchoPrefix + if HasKey(standard, "message") then Str(Get(standard, "message").value) else ""))
  {
    var r := EchoResponse(standard, defaultId);
    assert IsDict(r);
    KeyAt(r, 0); KeyAt(r, 1); KeyAt(r, 2); KeyAt(r, 3);
    GetAt(r, 0); GetAt(r, 1); GetAt(r, 2); GetAt(r, 3);
  }

  /** The response is in standard form, so compacting it for the token count loses nothing. */
  lemma EchoResponseRoundTrip(standard: Fields, defaultId: Json)
    ensures Standard(EchoResponse(standard, defaultId))
    ensures Normalized(JObj(Compacted(JObj(EchoResponse(standard, defaultId))).value)) == Ok(EchoResponse(standard, defaultId))
  {
    EchoResponseStandard(standard, defaultId);
    RoundTrip(EchoResponse(standard, defaultId));
  }

  /** Every key of the response is a long name and its type is a long type name. */
  lemma EchoResponseStandard(standard: Fields, defaultId: Json)
    ensures Standard(EchoResponse(standard, defaultId))
  {
    ResponseKeysAreLong();
    ResponseTypeIsLong();
    EchoResponseShape(standard, defaultId);
  }

  lemma ResponseKeysAreLong()
    ensures "id" !in FieldNames && "type" !in FieldNames
    ensures "companionName" !in FieldNames && "message" !in FieldNames
  {
    FieldNamesShort();
  }

  lemma ResponseTypeIsLong()
    ensures !IsShortTypeCode(JStr(ResponseType))
  {
    TypeTablesDisjoint();
    assert ResponseType in TypeCodes;
  }

  /** The response depends on the request only through its normalised `id` and `message`. */
  lemma EchoResponseDependsOnIdAndMessage(a: Fields, b: Fields, defaultId: Json)
    requires Get(a, "id") == Get(b, "id") && Get(a, "message") == Get(b, "message")
    ensures EchoResponse(a, defaultId) == EchoResponse(b, defaultId)
  {
  }

  /** A conversation request in compact form: `{"i": id, "t": "cr", "m": text}`. */
  function CompactRequest(id: Json, text: Json): Json
  {
    JObj([("i", id), ("t", JStr("cr")), ("m", text)])
  }

  /** The same request in standard form. */
  function LongRequest(id: Json, text: Json): Json
  {
    JObj([("id", id), ("type", JStr("conversation_request")), ("message", text)])
  }

  /** The same request in the legacy shape, the message nested under `data` as `msg`. */
  function LegacyRequest(id: Json, text: Json): Json
  {
    JObj([("id", id), ("type", JStr("conversation_request")), ("data", JObj([("msg", text)]))])
  }

  lemma CompactRequestFields(id: Json, text: Json)
    ensures Get(Normalized(CompactRequest(id, text)).value, "id") == Some(id)
    ensures Get(Normalized(CompactRequest(id, text)).value, "message") == Some(text)
  {
    var m := CompactRequest(id, text);
    assert Get(m.fields, "data") == None;
    assert RenameEntry("i", id) == Some(("id", id));
    assert RenameEntry("m", text) == Some(("message", text));
    NormalizedLastWriter(m, 0);
    NormalizedLastWriter(m, 2);
  }

  lemma LongRequestFields(id: Json, text: Json)
    ensures Get(Normalized(LongRequest(id, text)).value, "id") == Some(id)
    ensures Get(Normalized(LongRequest(id, text)).value, "message") == Some(text)
  {
    var m := LongRequest(id, text);
    assert Get(m.fields, "data") == None;
    ResponseKeysAreLong();
    RenameLongKey("id", id);
    RenameLongKey("message", text);
    NormalizedLastWriter(m, 0);
    NormalizedLastWriter(m, 2);
  }

  lemma LegacyRequestId(id: Json, text: Json)
    ensures Get(Normalized(LegacyRequest(id, text)).value, "id") == Some(id)
  {
    var m := LegacyRequest(id, text);
    LegacyRequestData(id, text);
    LegacyMessageAlias(text);
    ResponseKeysAreLong();
    RenameLongKey("id", id);
    RenameTypeKey(JStr("conversation_request"));
    RenameDataKey(JObj([("msg", text)]));
    NormalizedLastWriter(m, 0);
  }

  lemma LegacyRequestMessage(id: Json, text: Json)
    ensures Get(Normalized(LegacyRequest(id, text)).value, "message") == Some(text)
  {
    LegacyRequestData(id, text);
    LegacyMessageAlias(text);
    NormalizedLegacy(LegacyRequest(id, text), "message");
  }

  /** The legacy request carries `data` as its nested object. */
  lemma LegacyRequestData(id: Json, text: Json)
    ensures LegacyData(LegacyRequest(id, text).fields) == Some([("msg", text)])
  {
    var m := LegacyRequest(id, text);
    var d := [("msg", text)];
    var tail := m.fields[1..];
    assert tail[1..] == [("data", JObj(d))];
    assert Get(tail[1..], "data") == Some(JObj(d));
    assert Get(tail, "data") == Some(JObj(d));
  }

  /** `msg` is an alias of `message`, and nothing in the nested object names an id. */
  lemma LegacyMessageAlias(text: Json)
    ensures LegacyValue([("msg", text)], "id") == None
    ensures LegacyValue([("msg", text)], "message") == Some(text)
  {
    FirstPresentUnfold([("msg", text)], Aliases("message"));
  }

  /**
   * The request is normalised first, so its compact, long and legacy-`data`
   * shapes give the same response.
   */
  lemma ShapesGiveSameResponse(id: Json, text: Json, defaultId: Json)
    ensures EchoResponse(Normalized(CompactRequest(id, text)).value, defaultId)
         == EchoResponse(Normalized(LongRequest(id, text)).value, defaultId)
    ensures EchoResponse(Normalized(LegacyRequest(id, text)).value, defaultId)
         == EchoResponse(Normalized(LongRequest(id, text)).value, defaultId)
  {
    CompactRequestFields(id, text);
    LongRequestFields(id, text);
    LegacyRequestId(id, text);
    LegacyRequestMessage(id, text);
    EchoResponseDependsOnIdAndMessage(Normalized(CompactRequest(id, text)).value, Normalized(LongRequest(id, text)).value, defaultId);
    EchoResponseDependsOnIdAndMessage(Normalized(LegacyRequest(id, text)).value, Normalized(LongRequest(id, text)).value, defaultId);
  }

  /** The effects of `handle` on a dict request, in order. */
  function HandleEffects(message: Json, clientId: string, compare: (Fields, Fields) -> TokenComparison, now: Instant, stamp: string): seq<Effect>
  {
    match Normalized(message)
    case Fail(_) => []
    case Ok(standard) =>
      var response := EchoResponse(standard, JStr(""));
      var stats := compare(response, Compacted(JObj(response)).value);
      [CountedSent(JStr(ResponseType)), RecordedTokens(stats.compactTokens, now),
       Published(TokenStats, StatsData(stats, clientId), now),
       Published(MessageSent, SentData(clientId, ResponseType, stamp), now),
       Sent(response)]
  }

  /**
   * One sent count for the response type, one token record of the compact
   * figure, TOKEN_STATS published before MESSAGE_SENT, and the response sent
   * last, after both events.
   */
  lemma HandleEffectsOrder(message: Json, clientId: string, compare: (Fields, Fields) -> TokenComparison, now: Instant, stamp: string)
    requires message.JObj?
    ensures var e := HandleEffects(message, clientId, compare, now, stamp);
      && Kinds(e) == [TokenStats, MessageSent]
      && SentTypes(e) == [JStr(ResponseType)]
      && ReceivedTypes(e) == []
      && Outbound(e) == [EchoResponse(Normalized(message).value, JStr(""))]
      && e[|e| - 1] == Sent(EchoResponse(Normalized(message).value, JStr("")))
      && e[0] == CountedSent(JStr(ResponseType))
      && e[1] == RecordedTokens(compare(EchoResponse(Normalized(message).value, JStr("")),
                                        Compacted(JObj(EchoResponse(Normalized(message).value, JStr("")))).value).compactTokens, now)
  {
    var e := HandleEffects(message, clientId, compare, now, stamp);
    var response := EchoResponse(Normalized(message).value, JStr(""));
    var stats := compare(response, Compacted(JObj(response)).value);
    var e1, e2, e3, e4, e5 := CountedSent(JStr(ResponseType)), RecordedTokens(stats.compactTokens, now),
      Published(TokenStats, StatsData(stats, clientId), now), Published(MessageSent, SentData(clientId, ResponseType, stamp), now),
      Sent(response);
    ProjectFive(KindOf, e1, e2, e3, e4, e5);
    ProjectFive(SentTypeOf, e1, e2, e3, e4, e5);
    ProjectFive(ReceivedOf, e1, e2, e3, e4, e5);
    ProjectFive(SentOf, e1, e2, e3, e4, e5);
  }

  /**
   * `ConversationHandler.handle(websocket, message, context)`: a request that
   * is not a dict makes `parse` raise before anything happens.
   */
  method Handle(socket: Socket, message: Json, context: Services, clientId: string,
                compare: (Fields, Fields) -> TokenComparison, now: Instant, stamp: string)
    returns (r: Result<Fields>)
    requires context.Valid()
    modifies socket, context`trace, context.metrics, context.bus
    ensures context.Valid()
    ensures context.activeConnections == old(context.activeConnections) && context.limited == old(context.limited)
    ensures context.Snapshot() == PostAll(old(context.Snapshot()), HandleEffects(message, clientId, compare, now, stamp))
    ensures r.Fail? <==> !message.JObj?
    ensures r.Ok? ==> r.value == EchoResponse(Normalized(message).value, JStr(""))
    ensures context.trace == old(context.trace) + HandleEffects(message, clientId, compare, now, stamp)
    ensures socket.sent == old(socket.sent) + (if r.Ok? then [r.value] else [])
  {
    var parsed := Parse(message);
    if parsed.Fail? {
      assert context.trace + [] == context.trace;
      return Fail(parsed.error);
    }
    var standard := parsed.value;
    var response := EchoResponse(standard, JStr(""));
    var compacted := Compact(JObj(response));
    var stats := compare(response, compacted.value);
    Record(socket, context, clientId, response, stats, now, stamp);
    return Ok(response);
  }

  /** Steps 41-54 of `handle`: count, record tokens, publish both events, then send. */
  method Record(socket: Socket, context: Services, clientId: string, response: Fields,
                stats: TokenComparison, now: Instant, stamp: string)
    requires context.Valid()
    modifies socket, context`trace, context.metrics, context.bus
    ensures context.Valid()
    ensures context.trace == old(context.trace) +
      [CountedSent(JStr(ResponseType)), RecordedTokens(stats.compactTokens, now),
       Published(TokenStats, StatsData(stats, clientId), now),
       Published(MessageSent, SentData(clientId, ResponseType, stamp), now),
       Sent(response)]
    ensures context.Snapshot() == PostAll(old(context.Snapshot()),
      [CountedSent(JStr(ResponseType)), RecordedTokens(stats.compactTokens, now),
       Published(TokenStats, StatsData(stats, clientId), now),
       Published(MessageSent, SentData(clientId, ResponseType, stamp), now),
       Sent(response)])
    ensures socket.sent == old(socket.sent) + [response]
  {
    ghost var t0, b0 := context.trace, context.Snapshot();
    CountAndRecord(context, stats, now);
    ghost var b1 := context.Snapshot();
    PublishAndSend(socket, context, clientId, response, stats, now, stamp);
    Associative(t0, [CountedSent(JStr(ResponseType)), RecordedTokens(stats.compactTokens, now)],
                [Published(TokenStats, StatsData(stats, clientId), now),
                 Published(MessageSent, SentData(clientId, ResponseType, stamp), now), Sent(response)]);
    PostAllThen(b0, [CountedSent(JStr(ResponseType)), RecordedTokens(stats.compactTokens, now)], b1,
                [Published(TokenStats, StatsData(stats, clientId), now),
                 Published(MessageSent, SentData(clientId, ResponseType, stamp), now), Sent(response)], context.Snapshot());
    assert [CountedSent(JStr(ResponseType)), RecordedTokens(stats.compactTokens, now)]
      + [Published(TokenStats, StatsData(stats, clientId), now),
         Published(MessageSent, SentData(clientId, ResponseType, stamp), now), Sent(response)]
      == [CountedSent(JStr(ResponseType)), RecordedTokens(stats.compactTokens, now),
          Published(TokenStats, StatsData(stats, clientId), now),
          Published(MessageSent, SentData(clientId, ResponseType, stamp), now), Sent(response)];
  }

  /** Lines 41-42: the sent counter and the token tracker. */
  method CountAndRecord(context: Services, stats: TokenComparison, now: Instant)
    requires context.Valid()
    modifies context`trace, context.metrics, context.bus
    ensures context.Valid()
    ensures context.trace == old(context.trace) + [CountedSent(JStr(ResponseType)), RecordedTokens(stats.compactTokens, now)]
    ensures context.Snapshot() == PostAll(old(context.Snapshot()), [CountedSent(JStr(ResponseType)), RecordedTokens(stats.compactTokens, now)])
  {
    ghost var t0, b0 := context.trace, context.Snapshot();
    context.CountSent(ResponseType);
    context.RecordTokens(stats.compactTokens, now);
    PostAllTwo(b0, CountedSent(JStr(ResponseType)), RecordedTokens(stats.compactTokens, now));
    assert context.trace == t0 + [CountedSent(JStr(ResponseType))] + [RecordedTokens(stats.compactTokens, now)];
  }

  /** Lines 44-55: the TOKEN_STATS and MESSAGE_SENT events, then the reply itself. */
  method PublishAndSend(socket: Socket, context: Services, clientId: string, response: Fields,
                        stats: TokenComparison, now: Instant, stamp: string)
    requires context.Valid()
    modifies socket, context`trace, context.metrics, context.bus
    ensures context.Valid()
    ensures context.trace == old(context.trace) +
      [Published(TokenStats, StatsData(stats, clientId), now),
       Published(MessageSent, SentData(clientId, ResponseType, stamp), now), Sent(response)]
    ensures context.Snapshot() == PostAll(old(context.Snapshot()),
      [Published(TokenStats, StatsData(stats, clientId), now),
       Published(MessageSent, SentData(clientId, ResponseType, stamp), now), Sent(response)])
    ensures socket.sent == old(socket.sent) + [response]
  {
    ghost var t0, b0 := context.trace, context.Snapshot();
    context.Publish(TokenStats, StatsData(stats, clientId), now);
    context.Publish(MessageSent, SentData(clientId, ResponseType, stamp), now);
    context.Send(socket, response);
    PostAllThree(b0, Published(TokenStats, StatsData(stats, clientId), now),
                 Published(MessageSent, SentData(clientId, ResponseType, stamp), now), Sent(response));
    assert context.trace == t0 + [Published(TokenStats, StatsData(stats, clientId), now)]
      + [Published(MessageSent, SentData(clientId, ResponseType, stamp), now)] + [Sent(response)];
  }
}
