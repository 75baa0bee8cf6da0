/**
 * The mod-facing WebSocket gateway (api/websocket.py): what one incoming
 * frame does, the set-up and clean-up around a connection's receive loop,
 * the three inlined message handlers, and the target selection of the
 * "send JSON to mod" route.
 *
 * Each frame arrives with the oracles the source consults: whether the rate
 * limiter admits it, what `json.loads` makes of its text (None when it
 * raises), the clock read (as an instant and as its ISO text) and a fresh
 * uuid for the conversation handler's default id.
 */
module Gateway {
  import opened Outcomes
  import opened Dicts
  import opened JsonData
  import opened Clock
  import opened Protocol
  import opened Events
  import opened Metrics
  import opened Wire
  import opened Conversation

  const RateLimitText: string := "消息发送过快，请稍后再试（限制：100条/分钟）"
  const InvalidJsonText: string := "无法解析 JSON 数据"
  const ProtocolErrorText: string := "无法解析协议字段"
  const UnknownTypePrefix: string := "未知消息类型: "
  const NoConnectionText: string := "当前没有任何模组通过 WebSocket 连接"
  const NoTargetText: string := "找不到可用的模组连接"
  /** How much of a frame's text goes into a MESSAGE_RECEIVED event. */
  const PreviewLength: nat := 100

  /** The message types the gateway dispatches to a handler (the keys of api/handlers/registry.py too). */
  const HandledTypes: set<string> := {"connection_init", "game_state_update", "conversation_request"}

  /** One received text frame and the oracles consulted while handling it. */
  datatype Frame = Frame(
    text: string,
    admitted: bool,
    decoded: Option<Json>,
    now: Instant,
    stamp: string,
    freshId: string)

  /** How a frame left the receive loop: on to the next frame, or out through `except Exception`. */
  datatype Step = Continue | Crashed

  /** What ended the receive loop when no frame crashed it. */
  datatype Ending = ClientClosed | Failed

  /** `{"type": "error", "data": {"message": text}}`. */
  function ErrorReply(text: string): Fields
  {
    [("type", JStr("error")), ("data", JObj([("message", JStr(text))]))]
  }

  /** The reply to a type no handler takes, naming the type and the client. */
  function UnknownTypeReply(t: Json, clientId: string): Fields
  {
    [("type", JStr("error")),
     ("data", JObj([("message", JStr(UnknownTypePrefix + Str(t))), ("client_id", JStr(clientId))]))]
  }

  /** `data[:100]`: the first hundred characters, or the whole text when it is shorter. */
  function Preview(text: string): (p: string)
    ensures |p| == if |text| < PreviewLength then |text| else PreviewLength
    ensures p <= text
  {
    if |text| <= PreviewLength then text else text[..PreviewLength]
  }

  /** The `data` of a MESSAGE_RECEIVED event. */
  function ReceivedData(clientId: string, t: Json, stamp: string, text: string): Fields
  {
    [("client_id", JStr(clientId)), ("message_type", t), ("timestamp", JStr(stamp)), ("preview", JStr(Preview(text)))]
  }

  /** The `data` of MOD_CONNECTED and MOD_DISCONNECTED events. */
  function PresenceData(clientId: string, stamp: string): Fields
  {
    [("client_id", JStr(clientId)), ("timestamp", JStr(stamp))]
  }

  /** `normalized_msg.get("type", "unknown")`. */
  function MessageType(normalized: Fields): Json
  {
    GetOr(normalized, "type", JStr("unknown"))
  }

  function ConnectionAck(clientId: string, stamp: string): Fields
  {
    [("type", JStr("connection_ack")), ("timestamp", JStr(stamp)), ("data", JObj([("client_id", JStr(clientId))]))]
  }

  function GameStateAck(player: Json, stamp: string): Fields
  {
    [("type", JStr("game_state_ack")), ("timestamp", JStr(stamp)),
     ("data", JObj([("status", JStr("received")), ("player", player)]))]
  }

  /** handle_connection_init: send the ack, publish MESSAGE_SENT, count the ack. */
  function ConnectionInitEffects(clientId: string, now: Instant, stamp: string): seq<Effect>
  {
    [Sent(ConnectionAck(clientId, stamp)),
     Published(MessageSent, SentData(clientId, "connection_ack", stamp), now),
     CountedSent(JStr("connection_ack"))]
  }

  /**
   * handle_game_state_update: the player comes from the RAW message's
   * `data.player_name`.  When `data` is present but not a dict, `.get`
   * raises, the handler swallows it, and nothing happens.
   */
  function GameStateEffects(message: Fields, clientId: string, now: Instant, stamp: string): seq<Effect>
  {
    var state := GetOr(message, "data", JObj([]));
    if !state.JObj? then []
    else
      var player := GetOr(state.fields, "player_name", JStr("Unknown"));
      CountedEffects(GameStateAck(player, stamp), "game_state_ack", clientId, now, stamp)
  }

  /**
   * handle_conversation_request: the inlined variant of the conversation
   * handler; its default id is a fresh uuid and it sends before it counts.
   */
  function ConversationRequestEffects(message: Fields, clientId: string, compare: (Fields, Fields) -> TokenComparison,
                                      now: Instant, stamp: string, freshId: string): seq<Effect>
  {
    var response := EchoResponse(Normalized(JObj(message)).value, JStr(freshId));
    ReplyEffects(response, compare(response, Compacted(JObj(response)).value), clientId, now, stamp)
  }

  /** What the conversation branch does once the echo and its token comparison are built. */
  function ReplyEffects(response: Fields, stats: TokenComparison, clientId: string, now: Instant, stamp: string): seq<Effect>
  {
    [Sent(response),
     CountedSent(JStr(ResponseType)),
     RecordedTokens(stats.compactTokens, now),
     Published(TokenStats, StatsData(stats, clientId), now),
     Published(MessageSent, SentData(clientId, ResponseType, stamp), now)]
  }

  /** Send `reply`, count it as `replyType`, publish MESSAGE_SENT naming `clientId`. */
  function CountedEffects(reply: Fields, replyType: string, clientId: string, now: Instant, stamp: string): seq<Effect>
  {
    [Sent(reply), CountedSent(JStr(replyType)), Published(MessageSent, SentData(clientId, replyType, stamp), now)]
  }

  function UnknownTypeEffects(t: Json, clientId: string, now: Instant, stamp: string): seq<Effect>
  {
    CountedEffects(UnknownTypeReply(t, clientId), "error", clientId, now, stamp)
  }

  /** The dispatch on the normalised type: exactly one of the four branches. */
  function DispatchEffects(t: Json, message: Fields, clientId: string, compare: (Fields, Fields) -> TokenComparison, f: Frame): seq<Effect>
  {
    if t == JStr("connection_init") then ConnectionInitEffects(clientId, f.now, f.stamp)
    else if t == JStr("game_state_update") then GameStateEffects(message, clientId, f.now, f.stamp)
    else if t == JStr("conversation_request") then ConversationRequestEffects(message, clientId, compare, f.now, f.stamp, f.freshId)
    else UnknownTypeEffects(t, clientId, f.now, f.stamp)
  }

  /** A frame `json.loads` rejects: error reply, MESSAGE_RECEIVED, both counts, MESSAGE_SENT. */
  function InvalidJsonEffects(clientId: string, text: string, now: Instant, stamp: string): seq<Effect>
  {
    [Sent(ErrorReply(InvalidJsonText)),
     Published(MessageReceived, ReceivedData(clientId, JStr("invalid_json"), stamp, text), now),
     CountedReceived(JStr("invalid_json")),
     TouchedLastMessage(now),
     CountedSent(JStr("error")),
     Published(MessageSent, SentData(clientId, "error", stamp), now)]
  }

  /** JSON that `parse` refuses (anything but an object): error reply, count, MESSAGE_SENT; no received record. */
  function ProtocolErrorEffects(clientId: string, now: Instant, stamp: string): seq<Effect>
  {
    CountedEffects(ErrorReply(ProtocolErrorText), "error", clientId, now, stamp)
  }

  /** Everything one frame does, in order. */
  function FrameEffects(clientId: string, compare: (Fields, Fields) -> TokenComparison, f: Frame): seq<Effect>
  {
    if !f.admitted then [Sent(ErrorReply(RateLimitText))]
    else if f.decoded.None? then InvalidJsonEffects(clientId, f.text, f.now, f.stamp)
    else if !f.decoded.value.JObj? then ProtocolErrorEffects(clientId, f.now, f.stamp)
    else
      var message := f.decoded.value.fields;
      AcceptedEffects(clientId, compare, f, message, MessageType(Normalized(JObj(message)).value))
  }

  /**
   * A frame holding a JSON object whose normalised type is `t`: the received
   * record and count for `t`, then (when the count did not raise) the
   * dispatch on the raw message.
   */
  function AcceptedEffects(clientId: string, compare: (Fields, Fields) -> TokenComparison, f: Frame, message: Fields, t: Json): seq<Effect>
  {
    [Published(MessageReceived, ReceivedData(clientId, t, f.stamp, f.text), f.now), CountedReceived(t)]
    + (if !Hashable(t) then []
       else [TouchedLastMessage(f.now)] + DispatchEffects(t, message, clientId, compare, f))
  }

  /** A frame crashes the loop exactly when its normalised type cannot be counted. */
  function FrameStep(f: Frame): Step
  {
    if f.admitted && f.decoded.Some? && f.decoded.value.JObj?
       && !Hashable(MessageType(Normalized(f.decoded.value).value))
    then Crashed else Continue
  }

  /** The frames the loop handles: all of them, or up to and including the first that crashes it. */
  function RunEffects(clientId: string, compare: (Fields, Fields) -> TokenComparison, frames: seq<Frame>): seq<Effect>
  {
    if frames == [] then []
    else
      var rest := if FrameStep(frames[0]).Crashed? then [] else RunEffects(clientId, compare, frames[1..]);
      FrameEffects(clientId, compare, frames[0]) + rest
  }

  /** Some frame crashes the loop. */
  predicate SomeFrameCrashes(frames: seq<Frame>)
  {
    frames != [] && (FrameStep(frames[0]).Crashed? || SomeFrameCrashes(frames[1..]))
  }

  /** Set-up before the loop: register, publish MOD_CONNECTED, mark the mod connected. */
  function ConnectEffects(clientId: string, now: Instant, stamp: string): seq<Effect>
  {
    [Registered(clientId), Published(ModConnected, PresenceData(clientId, stamp), now), MarkedConnected(clientId, now)]
  }

  /**
   * Leaving the loop: only a client disconnect publishes MOD_DISCONNECTED and
   * marks the mod disconnected; the `finally` block always runs.
   */
  function CloseEffects(clientId: string, disconnected: bool, now: Instant, stamp: string): seq<Effect>
  {
    (if disconnected then [Published(ModDisconnected, PresenceData(clientId, stamp), now), MarkedDisconnected] else [])
    + [LimiterCleared(clientId), Unregistered(clientId)]
  }

  /** A whole connection, from accept to clean-up. */
  function SessionEffects(clientId: string, compare: (Fields, Fields) -> TokenComparison, frames: seq<Frame>,
                          ending: Ending, connectNow: Instant, connectStamp: string, closeNow: Instant, closeStamp: string): seq<Effect>
  {
    ConnectEffects(clientId, connectNow, connectStamp)
    + RunEffects(clientId, compare, frames)
    + CloseEffects(clientId, !SomeFrameCrashes(frames) && ending == ClientClosed, closeNow, closeStamp)
  }

  /** handle_connection_init. */
  method HandleConnectionInit(socket: Socket, clientId: string, s: Services, now: Instant, stamp: string)
    requires s.Valid()
    modifies socket, s`trace, s.metrics, s.bus
    ensures s.Valid() && s.activeConnections == old(s.activeConnections) && s.limited == old(s.limited)
    ensures s.trace == old(s.trace) + ConnectionInitEffects(clientId, now, stamp)
    ensures s.Snapshot() == PostAll(old(s.Snapshot()), ConnectionInitEffects(clientId, now, stamp))
    ensures socket.sent == old(socket.sent) + Outbound(ConnectionInitEffects(clientId, now, stamp))
  {
    ConnectionInitSummary(clientId, now, stamp);
    ghost var t0, b0 := s.trace, s.Snapshot();
    var response := ConnectionAck(clientId, stamp);
    s.Send(socket, response);
    s.Publish(MessageSent, SentData(clientId, "connection_ack", stamp), now);
    s.CountSent("connection_ack");
    assert s.trace == t0 + [Sent(response)] + [Published(MessageSent, SentData(clientId, "connection_ack", stamp), now)]
      + [CountedSent(JStr("connection_ack"))];
    PostAllThree(b0, Sent(response), Published(MessageSent, SentData(clientId, "connection_ack", stamp), now),
                 CountedSent(JStr("connection_ack")));
  }

  /** handle_game_state_update, on the raw (not normalised) message. */
  method HandleGameStateUpdate(socket: Socket, message: Fields, clientId: string, s: Services, now: Instant, stamp: string)
    requires s.Valid()
    modifies socket, s`trace, s.metrics, s.bus
    ensures s.Valid() && s.activeConnections == old(s.activeConnections) && s.limited == old(s.limited)
    ensures s.trace == old(s.trace) + GameStateEffects(message, clientId, now, stamp)
    ensures s.Snapshot() == PostAll(old(s.Snapshot()), GameStateEffects(message, clientId, now, stamp))
    ensures socket.sent == old(socket.sent) + Outbound(GameStateEffects(message, clientId, now, stamp))
  {
    GameStateSummary(message, clientId, now, stamp);
    var state := GetOr(message, "data", JObj([]));
    if !state.JObj? {
      return;
    }
    var player := GetOr(state.fields, "player_name", JStr("Unknown"));
    SendCounted(socket, GameStateAck(player, stamp), "game_state_ack", clientId, s, now, stamp);
  }

  /** handle_conversation_request. */
  method HandleConversationRequest(socket: Socket, message: Fields, clientId: string, s: Services,
                                   compare: (Fields, Fields) -> TokenComparison, now: Instant, stamp: string, freshId: string)
    requires s.Valid()
    modifies socket, s`trace, s.metrics, s.bus
    ensures s.Valid() && s.activeConnections == old(s.activeConnections) && s.limited == old(s.limited)
    ensures s.trace == old(s.trace) + ConversationRequestEffects(message, clientId, compare, now, stamp, freshId)
    ensures s.Snapshot() == PostAll(old(s.Snapshot()), ConversationRequestEffects(message, clientId, compare, now, stamp, freshId))
    ensures socket.sent == old(socket.sent) + Outbound(ConversationRequestEffects(message, clientId, compare, now, stamp, freshId))
  {
    ConversationRequestSummary(message, clientId, compare, now, stamp, freshId);
    var parsed := Parse(JObj(message));
    var response := EchoResponse(parsed.value, JStr(freshId));
    var compacted := Compact(JObj(response));
    var stats := compare(response, compacted.value);
    Reply(socket, response, stats, clientId, s, now, stamp);
  }

  /** Steps 7 and 8 of handle_conversation_request: send, count, record tokens, publish. */
  method Reply(socket: Socket, response: Fields, stats: TokenComparison, clientId: string, s: Services,
               now: Instant, stamp: string)
    requires s.Valid()
    modifies socket, s`trace, s.metrics, s.bus
    ensures s.Valid() && s.activeConnections == old(s.activeConnections) && s.limited == old(s.limited)
    ensures s.trace == old(s.trace) + ReplyEffects(response, stats, clientId, now, stamp)
    ensures s.Snapshot() == PostAll(old(s.Snapshot()), ReplyEffects(response, stats, clientId, now, stamp))
    ensures socket.sent == old(socket.sent) + [response]
  {
    ghost var t0, b0 := s.trace, s.Snapshot();
    ghost var first := [Sent(response), CountedSent(JStr(ResponseType)), RecordedTokens(stats.compactTokens, now)];
    ghost var second := [Published(TokenStats, StatsData(stats, clientId), now),
                         Published(MessageSent, SentData(clientId, ResponseType, stamp), now)];
    s.Send(socket, response);
    s.CountSent(ResponseType);
    s.RecordTokens(stats.compactTokens, now);
    PostAllThree(b0, first[0], first[1], first[2]);
    ghost var t1, b1 := s.trace, s.Snapshot();
    assert t1 == t0 + first;
    s.Publish(TokenStats, StatsData(stats, clientId), now);
    s.Publish(MessageSent, SentData(clientId, ResponseType, stamp), now);
    PostAllTwo(b1, second[0], second[1]);
    assert s.trace == t1 + second;
    assert first + second == ReplyEffects(response, stats, clientId, now, stamp);
    Associative(t0, first, second);
    PostAllThen(b0, first, b1, second, s.Snapshot());
  }

  /** The reply to a type no handler takes. */
  method ReplyUnknownType(socket: Socket, t: Json, clientId: string, s: Services, now: Instant, stamp: string)
    requires s.Valid()
    modifies socket, s`trace, s.metrics, s.bus
    ensures s.Valid() && s.activeConnections == old(s.activeConnections) && s.limited == old(s.limited)
    ensures s.trace == old(s.trace) + UnknownTypeEffects(t, clientId, now, stamp)
    ensures s.Snapshot() == PostAll(old(s.Snapshot()), UnknownTypeEffects(t, clientId, now, stamp))
    ensures socket.sent == old(socket.sent) + [UnknownTypeReply(t, clientId)]
  {
    SendCounted(socket, UnknownTypeReply(t, clientId), "error", clientId, s, now, stamp);
  }

  /**
   * Send `reply` to `socket`, count one sent message of type `replyType`,
   * publish MESSAGE_SENT naming `clientId`: the tail of the error answers,
   * the game-state ack and send_json_to_mod.
   */
  method SendCounted(socket: Socket, reply: Fields, replyType: string, clientId: string, s: Services, now: Instant, stamp: string)
    requires s.Valid()
    modifies socket, s`trace, s.metrics, s.bus
    ensures s.Valid() && s.activeConnections == old(s.activeConnections) && s.limited == old(s.limited)
    ensures s.trace == old(s.trace) + CountedEffects(reply, replyType, clientId, now, stamp)
    ensures s.Snapshot() == PostAll(old(s.Snapshot()), CountedEffects(reply, replyType, clientId, now, stamp))
    ensures socket.sent == old(socket.sent) + [reply]
  {
    ghost var t0, b0 := s.trace, s.Snapshot();
    s.Send(socket, reply);
    s.CountSent(replyType);
    s.Publish(MessageSent, SentData(clientId, replyType, stamp), now);
    assert s.trace == t0 + [Sent(reply)] + [CountedSent(JStr(replyType))]
      + [Published(MessageSent, SentData(clientId, replyType, stamp), now)];
    PostAllThree(b0, Sent(reply), CountedSent(JStr(replyType)), Published(MessageSent, SentData(clientId, replyType, stamp), now));
  }

  /** The `if`/`elif` dispatch on the normalised type. */
  method Dispatch(socket: Socket, t: Json, message: Fields, clientId: string, s: Services,
                  compare: (Fields, Fields) -> TokenComparison, f: Frame)
    requires s.Valid()
    modifies socket, s`trace, s.metrics, s.bus
    ensures s.Valid() && s.activeConnections == old(s.activeConnections) && s.limited == old(s.limited)
    ensures s.trace == old(s.trace) + DispatchEffects(t, message, clientId, compare, f)
    ensures s.Snapshot() == PostAll(old(s.Snapshot()), DispatchEffects(t, message, clientId, compare, f))
    ensures socket.sent == old(socket.sent) + Outbound(DispatchEffects(t, message, clientId, compare, f))
  {
    if t == JStr("connection_init") {
      HandleConnectionInit(socket, clientId, s, f.now, f.stamp);
    } else if t == JStr("game_state_update") {
      HandleGameStateUpdate(socket, message, clientId, s, f.now, f.stamp);
    } else if t == JStr("conversation_request") {
      HandleConversationRequest(socket, message, clientId, s, compare, f.now, f.stamp, f.freshId);
    } else {
      UnknownTypeSummary(t, clientId, f.now, f.stamp);
      ReplyUnknownType(socket, t, clientId, s, f.now, f.stamp);
    }
  }

  /** A non-JSON frame. */
  method RejectInvalidJson(socket: Socket, clientId: string, s: Services, text: string, now: Instant, stamp: string)
    requires s.Valid()
    modifies socket, s`trace, s.metrics, s.bus
    ensures s.Valid() && s.activeConnections == old(s.activeConnections) && s.limited == old(s.limited)
    ensures s.trace == old(s.trace) + InvalidJsonEffects(clientId, text, now, stamp)
    ensures s.Snapshot() == PostAll(old(s.Snapshot()), InvalidJsonEffects(clientId, text, now, stamp))
    ensures socket.sent == old(socket.sent) + [ErrorReply(InvalidJsonText)]
  {
    ghost var t0, b0 := s.trace, s.Snapshot();
    ghost var first := [Sent(ErrorReply(InvalidJsonText)),
                        Published(MessageReceived, ReceivedData(clientId, JStr("invalid_json"), stamp, text), now),
                        CountedReceived(JStr("invalid_json"))];
    ghost var second := [TouchedLastMessage(now), CountedSent(JStr("error")), Published(MessageSent, SentData(clientId, "error", stamp), now)];
    NoteInvalidJson(socket, clientId, s, text, now, stamp);
    ghost var b1 := s.Snapshot();
    AnswerInvalidJson(clientId, s, now, stamp);
    assert first + second == InvalidJsonEffects(clientId, text, now, stamp);
    Associative(t0, first, second);
    PostAllThen(b0, first, b1, second, s.Snapshot());
  }

  /** Lines 62-80: the error reply, then MESSAGE_RECEIVED and the received count for "invalid_json". */
  method NoteInvalidJson(socket: Socket, clientId: string, s: Services, text: string, now: Instant, stamp: string)
    requires s.Valid()
    modifies socket, s`trace, s.metrics, s.bus
    ensures s.Valid()
    ensures s.trace == old(s.trace) + [Sent(ErrorReply(InvalidJsonText)),
                                       Published(MessageReceived, ReceivedData(clientId, JStr("invalid_json"), stamp, text), now),
                                       CountedReceived(JStr("invalid_json"))]
    ensures s.Snapshot() == PostAll(old(s.Snapshot()), [Sent(ErrorReply(InvalidJsonText)),
                                       Published(MessageReceived, ReceivedData(clientId, JStr("invalid_json"), stamp, text), now),
                                       CountedReceived(JStr("invalid_json"))])
    ensures socket.sent == old(socket.sent) + [ErrorReply(InvalidJsonText)]
  {
    ghost var t0, b0 := s.trace, s.Snapshot();
    var reply := ErrorReply(InvalidJsonText);
    s.Send(socket, reply);
    s.Publish(MessageReceived, ReceivedData(clientId, JStr("invalid_json"), stamp, text), now);
    var _ := s.CountReceived(JStr("invalid_json"));
    assert s.trace == t0 + [Sent(reply)] + [Published(MessageReceived, ReceivedData(clientId, JStr("invalid_json"), stamp, text), now)]
      + [CountedReceived(JStr("invalid_json"))];
    PostAllThree(b0, Sent(reply), Published(MessageReceived, ReceivedData(clientId, JStr("invalid_json"), stamp, text), now),
                 CountedReceived(JStr("invalid_json")));
  }

  /** Lines 81-90: note the mod's last message, count the error reply, publish MESSAGE_SENT. */
  method AnswerInvalidJson(clientId: string, s: Services, now: Instant, stamp: string)
    requires s.Valid()
    modifies s`trace, s.metrics, s.bus
    ensures s.Valid()
    ensures s.trace == old(s.trace) + [TouchedLastMessage(now), CountedSent(JStr("error")),
                                       Published(MessageSent, SentData(clientId, "error", stamp), now)]
    ensures s.Snapshot() == PostAll(old(s.Snapshot()), [TouchedLastMessage(now), CountedSent(JStr("error")),
                                                        Published(MessageSent, SentData(clientId, "error", stamp), now)])
  {
    ghost var t0, b0 := s.trace, s.Snapshot();
    s.TouchLastMessage(now);
    s.CountSent("error");
    s.Publish(MessageSent, SentData(clientId, "error", stamp), now);
    assert s.trace == t0 + [TouchedLastMessage(now)] + [CountedSent(JStr("error"))]
      + [Published(MessageSent, SentData(clientId, "error", stamp), now)];
    PostAllThree(b0, TouchedLastMessage(now), CountedSent(JStr("error")), Published(MessageSent, SentData(clientId, "error", stamp), now));
  }

  /** JSON that is not an object: `parse` raises. */
  method RejectUnparsable(socket: Socket, clientId: string, s: Services, now: Instant, stamp: string)
    requires s.Valid()
    modifies socket, s`trace, s.metrics, s.bus
    ensures s.Valid() && s.activeConnections == old(s.activeConnections) && s.limited == old(s.limited)
    ensures s.trace == old(s.trace) + ProtocolErrorEffects(clientId, now, stamp)
    ensures s.Snapshot() == PostAll(old(s.Snapshot()), ProtocolErrorEffects(clientId, now, stamp))
    ensures socket.sent == old(socket.sent) + [ErrorReply(ProtocolErrorText)]
  {
    SendCounted(socket, ErrorReply(ProtocolErrorText), "error", clientId, s, now, stamp);
  }

  /** One pass of the receive loop's body, after `receive_text` returned `f.text`. */
  method HandleFrame(socket: Socket, clientId: string, s: Services, compare: (Fields, Fields) -> TokenComparison, f: Frame)
    returns (step: Step)
    requires s.Valid()
    modifies socket, s`trace, s.metrics, s.bus
    ensures s.Valid() && s.activeConnections == old(s.activeConnections) && s.limited == old(s.limited)
    ensures step == FrameStep(f)
    ensures s.trace == old(s.trace) + FrameEffects(clientId, compare, f)
    ensures socket.sent == old(socket.sent) + Outbound(FrameEffects(clientId, compare, f))
    ensures s.Snapshot() == PostAll(old(s.Snapshot()), FrameEffects(clientId, compare, f))
  {
    ghost var b0 := s.Snapshot();
    step := Continue;
    if !f.admitted {
      RateLimitedFrame(clientId, compare, f);
      s.Send(socket, ErrorReply(RateLimitText));
      PostAllOne(b0, Sent(ErrorReply(RateLimitText)));
    } else if f.decoded.None? {
      InvalidJsonFrame(clientId, compare, f);
      RejectInvalidJson(socket, clientId, s, f.text, f.now, f.stamp);
    } else if !f.decoded.value.JObj? {
      UnparsableFrame(clientId, compare, f);
      RejectUnparsable(socket, clientId, s, f.now, f.stamp);
    } else {
      var message := f.decoded.value.fields;
      AcceptedOutbound(clientId, compare, f, message, MessageType(Normalized(JObj(message)).value));
      step := Accept(socket, clientId, s, compare, f, message);
    }
  }

  /** A frame holding a JSON object: record it as received, then dispatch. */
  method Accept(socket: Socket, clientId: string, s: Services, compare: (Fields, Fields) -> TokenComparison,
                f: Frame, message: Fields)
    returns (step: Step)
    requires s.Valid()
    modifies socket, s`trace, s.metrics, s.bus
    ensures s.Valid() && s.activeConnections == old(s.activeConnections) && s.limited == old(s.limited)
    ensures step == if Hashable(MessageType(Normalized(JObj(message)).value)) then Continue else Crashed
    ensures s.trace == old(s.trace) + AcceptedEffects(clientId, compare, f, message, MessageType(Normalized(JObj(message)).value))
    ensures s.Snapshot() == PostAll(old(s.Snapshot()), AcceptedEffects(clientId, compare, f, message, MessageType(Normalized(JObj(message)).value)))
    ensures socket.sent == old(socket.sent)
      + (if step == Continue then Outbound(DispatchEffects(MessageType(Normalized(JObj(message)).value), message, clientId, compare, f)) else [])
  {
    var normalized := Parse(JObj(message));
    var t := MessageType(normalized.value);
    ghost var t0, b0 := s.trace, s.Snapshot();
    ghost var head := [Published(MessageReceived, ReceivedData(clientId, t, f.stamp, f.text), f.now), CountedReceived(t)];
    var counted := Announce(clientId, s, t, f);
    if !counted {
      assert head + [] == head;
      return Crashed;
    }
    ghost var b1 := s.Snapshot();
    Route(socket, t, message, clientId, s, compare, f);
    Associative(t0, head, [TouchedLastMessage(f.now)] + DispatchEffects(t, message, clientId, compare, f));
    PostAllAppend(b0, head, [TouchedLastMessage(f.now)] + DispatchEffects(t, message, clientId, compare, f));
    return Continue;
  }

  /** Lines 126-159: note the mod's last message, then dispatch on the type. */
  method Route(socket: Socket, t: Json, message: Fields, clientId: string, s: Services,
               compare: (Fields, Fields) -> TokenComparison, f: Frame)
    requires s.Valid()
    modifies socket, s`trace, s.metrics, s.bus
    ensures s.Valid() && s.activeConnections == old(s.activeConnections) && s.limited == old(s.limited)
    ensures s.trace == old(s.trace) + ([TouchedLastMessage(f.now)] + DispatchEffects(t, message, clientId, compare, f))
    ensures s.Snapshot() == PostAll(old(s.Snapshot()), [TouchedLastMessage(f.now)] + DispatchEffects(t, message, clientId, compare, f))
    ensures socket.sent == old(socket.sent) + Outbound(DispatchEffects(t, message, clientId, compare, f))
  {
    ghost var t0, b0 := s.trace, s.Snapshot();
    s.TouchLastMessage(f.now);
    PostAllOne(b0, TouchedLastMessage(f.now));
    Dispatch(socket, t, message, clientId, s, compare, f);
    Associative(t0, [TouchedLastMessage(f.now)], DispatchEffects(t, message, clientId, compare, f));
    PostAllAppend(b0, [TouchedLastMessage(f.now)], DispatchEffects(t, message, clientId, compare, f));
    ProjectCons(SentOf, TouchedLastMessage(f.now), DispatchEffects(t, message, clientId, compare, f));
  }

  /** Lines 113-125: publish MESSAGE_RECEIVED for the normalised type, then count it. */
  method Announce(clientId: string, s: Services, t: Json, f: Frame) returns (counted: bool)
    requires s.Valid()
    modifies s`trace, s.metrics, s.bus
    ensures s.Valid() && s.activeConnections == old(s.activeConnections) && s.limited == old(s.limited)
    ensures counted == Hashable(t)
    ensures s.trace == old(s.trace) + [Published(MessageReceived, ReceivedData(clientId, t, f.stamp, f.text), f.now), CountedReceived(t)]
    ensures s.Snapshot() == PostAll(old(s.Snapshot()), [Published(MessageReceived, ReceivedData(clientId, t, f.stamp, f.text), f.now), CountedReceived(t)])
  {
    ghost var t0, b0 := s.trace, s.Snapshot();
    s.Publish(MessageReceived, ReceivedData(clientId, t, f.stamp, f.text), f.now);
    counted := s.CountReceived(t);
    PostAllTwo(b0, Published(MessageReceived, ReceivedData(clientId, t, f.stamp, f.text), f.now), CountedReceived(t));
    assert s.trace == t0 + [Published(MessageReceived, ReceivedData(clientId, t, f.stamp, f.text), f.now)] + [CountedReceived(t)];
  }

  /**
   * websocket_endpoint: register the connection, announce it, run the
   * receive loop over `frames` until one crashes it or they run out, then
   * end as `ending` says and clean up.
   */
  method Serve(socket: Socket, clientId: string, s: Services, compare: (Fields, Fields) -> TokenComparison,
               frames: seq<Frame>, ending: Ending, connectNow: Instant, connectStamp: string,
               closeNow: Instant, closeStamp: string)
    requires s.Valid()
    modifies socket, s`activeConnections, s`limited, s`trace, s.metrics, s.bus
    ensures s.Valid()
    ensures s.trace == old(s.trace) + SessionEffects(clientId, compare, frames, ending, connectNow, connectStamp, closeNow, closeStamp)
    ensures s.Snapshot() == PostAll(old(s.Snapshot()), SessionEffects(clientId, compare, frames, ending, connectNow, connectStamp, closeNow, closeStamp))
    ensures socket.sent == old(socket.sent) + Outbound(SessionEffects(clientId, compare, frames, ending, connectNow, connectStamp, closeNow, closeStamp))
    ensures s.activeConnections == Remove(Put(old(s.activeConnections), clientId, socket), clientId)
    ensures clientId !in Keys(s.activeConnections)
    ensures s.limited == old(s.limited) - {clientId}
  {
    ghost var t0, b0 := s.trace, s.Snapshot();
    Connect(socket, clientId, s, connectNow, connectStamp);
    var crashed := RunFrames(socket, clientId, s, compare, frames);
    Close(clientId, s, !crashed && ending == ClientClosed, closeNow, closeStamp);
    ghost var a := ConnectEffects(clientId, connectNow, connectStamp);
    ghost var b := RunEffects(clientId, compare, frames);
    ghost var c := CloseEffects(clientId, !crashed && ending == ClientClosed, closeNow, closeStamp);
    Associative(t0, a, b);
    Associative(t0, a + b, c);
    PostAllAppend(b0, a, b);
    PostAllAppend(b0, a + b, c);
    SessionOutbound(clientId, compare, frames, ending, connectNow, connectStamp, closeNow, closeStamp);
  }

  /** Lines 32-41: register the socket, publish MOD_CONNECTED, mark the mod connected. */
  method Connect(socket: Socket, clientId: string, s: Services, now: Instant, stamp: string)
    requires s.Valid()
    modifies s`activeConnections, s`trace, s.metrics, s.bus
    ensures s.Valid() && s.limited == old(s.limited)
    ensures s.activeConnections == Put(old(s.activeConnections), clientId, socket)
    ensures s.trace == old(s.trace) + ConnectEffects(clientId, now, stamp)
    ensures s.Snapshot() == PostAll(old(s.Snapshot()), ConnectEffects(clientId, now, stamp))
    ensures s.metrics.modClientId == Some(clientId) && s.metrics.modConnectedAt == Some(now)
    ensures s.bus.log == old(s.bus.log) + [Event(old(s.bus.issued), ModConnected, now, PresenceData(clientId, stamp), DefaultSeverity)]
  {
    ghost var t0, b0 := s.trace, s.Snapshot();
    s.Register(clientId, socket);
    s.Publish(ModConnected, PresenceData(clientId, stamp), now);
    s.MarkConnected(clientId, now);
    assert s.trace == t0 + [Registered(clientId)] + [Published(ModConnected, PresenceData(clientId, stamp), now)]
      + [MarkedConnected(clientId, now)];
    PostAllThree(b0, Registered(clientId), Published(ModConnected, PresenceData(clientId, stamp), now), MarkedConnected(clientId, now));
  }

  /**
   * Lines 164-175: after a client disconnect, publish MOD_DISCONNECTED and
   * mark the mod disconnected; then, in every case, drop the limiter's
   * window and the connection.
   */
  method Close(clientId: string, s: Services, disconnected: bool, now: Instant, stamp: string)
    requires s.Valid()
    modifies s`activeConnections, s`limited, s`trace, s.metrics, s.bus
    ensures s.Valid()
    ensures s.activeConnections == Remove(old(s.activeConnections), clientId)
    ensures clientId !in Keys(s.activeConnections)
    ensures s.limited == old(s.limited) - {clientId}
    ensures s.trace == old(s.trace) + CloseEffects(clientId, disconnected, now, stamp)
    ensures s.Snapshot() == PostAll(old(s.Snapshot()), CloseEffects(clientId, disconnected, now, stamp))
    ensures disconnected ==>
      && s.metrics.modClientId == None && s.metrics.modConnectedAt == None
      && s.bus.log == old(s.bus.log) + [Event(old(s.bus.issued), ModDisconnected, now, PresenceData(clientId, stamp), DefaultSeverity)]
    ensures !disconnected ==>
      && s.metrics.modClientId == old(s.metrics.modClientId) && s.metrics.modConnectedAt == old(s.metrics.modConnectedAt)
      && s.bus.log == old(s.bus.log)
  {
    ghost var t0, b0 := s.trace, s.Snapshot();
    ghost var head: seq<Effect> := if disconnected then [Published(ModDisconnected, PresenceData(clientId, stamp), now), MarkedDisconnected] else [];
    if disconnected {
      s.Publish(ModDisconnected, PresenceData(clientId, stamp), now);
      s.MarkDisconnected();
      PostAllTwo(b0, Published(ModDisconnected, PresenceData(clientId, stamp), now), MarkedDisconnected);
      assert s.trace == t0 + head;
    } else {
      assert t0 + head == t0;
    }
    ghost var t1, b1 := s.trace, s.Snapshot();
    s.ClearLimiter(clientId);
    s.Unregister(clientId);
    assert s.trace == t1 + [LimiterCleared(clientId)] + [Unregistered(clientId)];
    PostAllTwo(b1, LimiterCleared(clientId), Unregistered(clientId));
    PostAllAppend(b0, head, [LimiterCleared(clientId), Unregistered(clientId)]);
  }

  /** The `while True` loop, over the frames the client sends before the connection ends. */
  method RunFrames(socket: Socket, clientId: string, s: Services, compare: (Fields, Fields) -> TokenComparison,
                   frames: seq<Frame>)
    returns (crashed: bool)
    requires s.Valid()
    modifies socket, s`trace, s.metrics, s.bus
    ensures s.Valid() && s.activeConnections == old(s.activeConnections) && s.limited == old(s.limited)
    ensures crashed == SomeFrameCrashes(frames)
    ensures s.trace == old(s.trace) + RunEffects(clientId, compare, frames)
    ensures s.Snapshot() == PostAll(old(s.Snapshot()), RunEffects(clientId, compare, frames))
    ensures socket.sent == old(socket.sent) + Outbound(RunEffects(clientId, compare, frames))
  {
    var rest := frames;
    crashed := false;
    ghost var pending := RunEffects(clientId, compare, frames);
    while rest != [] && !crashed
      invariant s.Valid() && s.activeConnections == old(s.activeConnections) && s.limited == old(s.limited)
      invariant SomeFrameCrashes(frames) <==> crashed || SomeFrameCrashes(rest)
      invariant pending == if crashed then [] else RunEffects(clientId, compare, rest)
      invariant s.trace + pending == old(s.trace) + RunEffects(clientId, compare, frames)
      invariant socket.sent + Outbound(pending) == old(socket.sent) + Outbound(RunEffects(clientId, compare, frames))
      invariant PostAll(s.Snapshot(), pending) == PostAll(old(s.Snapshot()), RunEffects(clientId, compare, frames))
      decreases |rest|
    {
      ghost var before, sentBefore, booksBefore := s.trace, socket.sent, s.Snapshot();
      ghost var here := FrameEffects(clientId, compare, rest[0]);
      ghost var next := if FrameStep(rest[0]).Crashed? then [] else RunEffects(clientId, compare, rest[1..]);
      RunStep(clientId, compare, rest);
      assert pending == here + next && Outbound(pending) == Outbound(here) + Outbound(next) by {
        if FrameStep(rest[0]).Crashed? {
          assert here + [] == here;
          assert Outbound(here) + [] == Outbound(here);
        }
      }
      var step := HandleFrame(socket, clientId, s, compare, rest[0]);
      Associative(before, here, next);
      Associative(sentBefore, Outbound(here), Outbound(next));
      PostAllAppend(booksBefore, here, next);
      crashed := step.Crashed?;
      rest := rest[1..];
      pending := next;
    }
  }

  /** The loop's first frame, then the rest unless the first crashed it. */
  lemma RunStep(clientId: string, compare: (Fields, Fields) -> TokenComparison, frames: seq<Frame>)
    requires frames != []
    ensures var here := FrameEffects(clientId, compare, frames[0]);
      var rest := RunEffects(clientId, compare, frames[1..]);
      && (FrameStep(frames[0]).Crashed? ==>
            RunEffects(clientId, compare, frames) == here && Outbound(RunEffects(clientId, compare, frames)) == Outbound(here))
      && (!FrameStep(frames[0]).Crashed? ==>
            RunEffects(clientId, compare, frames) == here + rest
            && Outbound(RunEffects(clientId, compare, frames)) == Outbound(here) + Outbound(rest))
  {
    var here := FrameEffects(clientId, compare, frames[0]);
    if FrameStep(frames[0]).Crashed? {
      assert here + [] == here;
    } else {
      ProjectAppend(SentOf, here, RunEffects(clientId, compare, frames[1..]));
    }
  }

  /** The `{"status": "ok", ...}` body send_json_to_mod returns. */
  function SendReport(target: string, messageType: string): Fields
  {
    [("status", JStr("ok")), ("target", JStr(target)), ("type", JStr(messageType))]
  }

  /**
   * send_json_to_mod's choice of connection, over the ids of
   * `active_connections` in insertion order: the mod the metrics name when
   * that id is non-empty and still live, else the first live one.
   */
  function SelectTarget(ids: seq<string>, preferred: Option<string>): (r: Result<string>)
    ensures r.Ok? ==> r.value in ids && r.value != ""
    ensures ids == [] ==> r == Fail(NoConnectionText)
    ensures preferred.Some? && preferred.value != "" && preferred.value in ids ==> r == Ok(preferred.value)
    ensures !(preferred.Some? && preferred.value != "" && preferred.value in ids) && ids != [] ==>
              r == if ids[0] == "" then Fail(NoTargetText) else Ok(ids[0])
  {
    if ids == [] then Fail(NoConnectionText)
    else
      var target := if preferred.Some? && preferred.value != "" && preferred.value in ids then preferred.value else ids[0];
      if target == "" then Fail(NoTargetText) else Ok(target)
  }

  /** What a successful forward does: send to the target, count, publish MESSAGE_SENT for the target. */
  function ForwardEffects(target: string, message: Fields, messageType: string, now: Instant, stamp: string): seq<Effect>
  {
    CountedEffects(message, messageType, target, now, stamp)
  }

  /** The sockets of the live connections. */
  function Live(active: Dict<string, Socket>): set<Socket>
  {
    set e | e in active :: e.1
  }

  /**
   * send_json_to_mod, with `message` the already-dumped body and
   * `messageType` its `type`.  A failure is the 503 the route raises.
   */
  method SendJsonToMod(s: Services, message: Fields, messageType: string, now: Instant, stamp: string)
    returns (r: Result<Fields>)
    requires s.Valid()
    modifies Live(s.activeConnections), s`trace, s.metrics, s.bus
    ensures s.Valid() && s.activeConnections == old(s.activeConnections) && s.limited == old(s.limited)
    ensures var choice := SelectTarget(Keys(old(s.activeConnections)), old(s.metrics.modClientId));
      && (choice.Fail? ==> r == Fail(choice.error) && s.trace == old(s.trace) && s.Snapshot() == old(s.Snapshot()))
      && (choice.Ok? ==>
            && r == Ok(SendReport(choice.value, messageType))
            && s.trace == old(s.trace) + ForwardEffects(choice.value, message, messageType, now, stamp)
            && s.Snapshot() == PostAll(old(s.Snapshot()), ForwardEffects(choice.value, message, messageType, now, stamp))
            && Get(s.activeConnections, choice.value).value.sent
               == old(Get(s.activeConnections, choice.value).value.sent) + [message])
      && (forall c :: c in Live(old(s.activeConnections)) && (choice.Fail? || c != Get(old(s.activeConnections), choice.value).value)
            ==> c.sent == old(c.sent))
  {
    var choice := SelectTarget(Keys(s.activeConnections), s.metrics.modClientId);
    if choice.Fail? {
      return Fail(choice.error);
    }
    var socket := Get(s.activeConnections, choice.value).value;
    assert socket in Live(s.activeConnections) by {
      var i := IndexOf(s.activeConnections, choice.value);
      GetAt(s.activeConnections, i);
    }
    SendCounted(socket, message, messageType, choice.value, s, now, stamp);
    r := Ok(SendReport(choice.value, messageType));
  }

  /** A frame over the limit gets one error reply and nothing else, and the loop goes on. */
  lemma RateLimitedFrame(clientId: string, compare: (Fields, Fields) -> TokenComparison, f: Frame)
    requires !f.admitted
    ensures FrameStep(f) == Continue
    ensures Summarize(FrameEffects(clientId, compare, f)) == Summary([ErrorReply(RateLimitText)], [], [], [], [])
  {
    SummarizeOne(Sent(ErrorReply(RateLimitText)));
  }

  /**
   * A frame that is not JSON: one error reply, one received count for
   * "invalid_json", one sent count for "error", MESSAGE_RECEIVED then
   * MESSAGE_SENT, and the loop goes on.
   */
  lemma InvalidJsonFrame(clientId: string, compare: (Fields, Fields) -> TokenComparison, f: Frame)
    requires f.admitted && f.decoded.None?
    ensures FrameStep(f) == Continue
    ensures Summarize(FrameEffects(clientId, compare, f))
         == Summary([ErrorReply(InvalidJsonText)], [MessageReceived, MessageSent], [JStr("invalid_json")], [JStr("error")], [])
  {
    SummarizeSix(Sent(ErrorReply(InvalidJsonText)),
                 Published(MessageReceived, ReceivedData(clientId, JStr("invalid_json"), f.stamp, f.text), f.now),
                 CountedReceived(JStr("invalid_json")), TouchedLastMessage(f.now), CountedSent(JStr("error")),
                 Published(MessageSent, SentData(clientId, "error", f.stamp), f.now));
  }

  /**
   * JSON that is not an object: one error reply, one sent count for "error",
   * only MESSAGE_SENT, no received count, and the loop goes on.
   */
  lemma UnparsableFrame(clientId: string, compare: (Fields, Fields) -> TokenComparison, f: Frame)
    requires f.admitted && f.decoded.Some? && !f.decoded.value.JObj?
    ensures FrameStep(f) == Continue
    ensures Summarize(FrameEffects(clientId, compare, f))
         == Summary([ErrorReply(ProtocolErrorText)], [MessageSent], [], [JStr("error")], [])
  {
    SummarizeThree(Sent(ErrorReply(ProtocolErrorText)), CountedSent(JStr("error")),
                   Published(MessageSent, SentData(clientId, "error", f.stamp), f.now));
  }

  /** The summary of each dispatch branch. */
  lemma ConnectionInitSummary(clientId: string, now: Instant, stamp: string)
    ensures Summarize(ConnectionInitEffects(clientId, now, stamp))
         == Summary([ConnectionAck(clientId, stamp)], [MessageSent], [], [JStr("connection_ack")], [])
  {
    SummarizeThree(Sent(ConnectionAck(clientId, stamp)), Published(MessageSent, SentData(clientId, "connection_ack", stamp), now),
                   CountedSent(JStr("connection_ack")));
  }

  lemma GameStateSummary(message: Fields, clientId: string, now: Instant, stamp: string)
    ensures var state := GetOr(message, "data", JObj([]));
      Summarize(GameStateEffects(message, clientId, now, stamp))
      == if state.JObj?
         then Summary([GameStateAck(GetOr(state.fields, "player_name", JStr("Unknown")), stamp)], [MessageSent], [],
                      [JStr("game_state_ack")], [])
         else Summary([], [], [], [], [])
  {
    var state := GetOr(message, "data", JObj([]));
    if state.JObj? {
      var player := GetOr(state.fields, "player_name", JStr("Unknown"));
      SummarizeThree(Sent(GameStateAck(player, stamp)), CountedSent(JStr("game_state_ack")),
                     Published(MessageSent, SentData(clientId, "game_state_ack", stamp), now));
    }
  }

  lemma ConversationRequestSummary(message: Fields, clientId: string, compare: (Fields, Fields) -> TokenComparison,
                                   now: Instant, stamp: string, freshId: string)
    ensures Summarize(ConversationRequestEffects(message, clientId, compare, now, stamp, freshId))
         == Summary([EchoResponse(Normalized(JObj(message)).value, JStr(freshId))], [TokenStats, MessageSent], [],
                    [JStr(ResponseType)], [])
  {
    var response := EchoResponse(Normalized(JObj(message)).value, JStr(freshId));
    var stats := compare(response, Compacted(JObj(response)).value);
    SummarizeFive(Sent(response), CountedSent(JStr(ResponseType)), RecordedTokens(stats.compactTokens, now),
                  Published(TokenStats, StatsData(stats, clientId), now), Published(MessageSent, SentData(clientId, ResponseType, stamp), now));
  }

  lemma UnknownTypeSummary(t: Json, clientId: string, now: Instant, stamp: string)
    ensures Summarize(UnknownTypeEffects(t, clientId, now, stamp))
         == Summary([UnknownTypeReply(t, clientId)], [MessageSent], [], [JStr("error")], [])
  {
    SummarizeThree(Sent(UnknownTypeReply(t, clientId)), CountedSent(JStr("error")),
                   Published(MessageSent, SentData(clientId, "error", stamp), now));
  }

  /**
   * Dispatch takes exactly one branch: each handled type gets its handler's
   * reply and sent count, every other type the error naming it; no branch
   * counts a received message or touches the connection status.
   */
  lemma DispatchSummary(t: Json, message: Fields, clientId: string, compare: (Fields, Fields) -> TokenComparison, f: Frame)
    ensures var d := Summarize(DispatchEffects(t, message, clientId, compare, f));
      && d.received == [] && d.status == [] && |d.sent| <= 1 && (d.sent == [] <==> d.counted == [])
      && (t == JStr("connection_init") ==>
            d.sent == [ConnectionAck(clientId, f.stamp)] && d.counted == [JStr("connection_ack")])
      && (t == JStr("game_state_update") ==>
            (d.sent == [] <==> !GetOr(message, "data", JObj([])).JObj?)
            && (d.sent != [] ==> d.counted == [JStr("game_state_ack")]))
      && (t == JStr("conversation_request") ==>
            d.sent == [EchoResponse(Normalized(JObj(message)).value, JStr(f.freshId))] && d.counted == [JStr(ResponseType)])
      && (!(t.JStr? && t.s in HandledTypes) ==>
            d.sent == [UnknownTypeReply(t, clientId)] && d.counted == [JStr("error")] && d.kinds == [MessageSent])
  {
    if t == JStr("connection_init") {
      ConnectionInitSummary(clientId, f.now, f.stamp);
    } else if t == JStr("game_state_update") {
      GameStateSummary(message, clientId, f.now, f.stamp);
    } else if t == JStr("conversation_request") {
      ConversationRequestSummary(message, clientId, compare, f.now, f.stamp, f.freshId);
    } else {
      UnknownTypeSummary(t, clientId, f.now, f.stamp);
    }
  }

  /**
   * The type a frame is routed on is never a short code: it is the
   * normalised message's (expanded) `type`, or "unknown" when there is none.
   */
  lemma RoutedTypeIsLong(message: Fields)
    ensures var n := Normalized(JObj(message)).value;
      && MessageType(n) == (if HasKey(n, "type") then Get(n, "type").value else JStr("unknown"))
      && !IsShortTypeCode(MessageType(n))
  {
    var n := Normalized(JObj(message)).value;
    NormalizedIsStandard(JObj(message));
    if HasKey(n, "type") {
      KeyIn(n, "type");
      var i :| 0 <= i < |n| && n[i].0 == "type";
      GetAt(n, i);
      assert StandardEntry(n[i].0, n[i].1);
    }
  }

  /**
   * A frame holding a JSON object is recorded as received exactly once,
   * first, under its normalised type; when that type cannot be a dict key
   * the count raises, nothing is sent and the loop ends.
   */
  lemma AcceptedFrame(clientId: string, compare: (Fields, Fields) -> TokenComparison, f: Frame, message: Fields)
    requires f.admitted && f.decoded == Some(JObj(message))
    ensures var t := MessageType(Normalized(JObj(message)).value);
      var e := FrameEffects(clientId, compare, f);
      && e[0] == Published(MessageReceived, ReceivedData(clientId, t, f.stamp, f.text), f.now)
      && Summarize(e).received == [t]
      && (FrameStep(f) == Crashed <==> !Hashable(t))
      && (!Hashable(t) ==> Summarize(e) == Summary([], [MessageReceived], [t], [], []))
  {
    AcceptedSummary(clientId, compare, f, message, MessageType(Normalized(JObj(message)).value));
  }

  /** The summary of a frame holding an object, for whatever its normalised type `t`. */
  lemma AcceptedSummary(clientId: string, compare: (Fields, Fields) -> TokenComparison, f: Frame, message: Fields, t: Json)
    ensures var e := AcceptedEffects(clientId, compare, f, message, t);
      && e[0] == Published(MessageReceived, ReceivedData(clientId, t, f.stamp, f.text), f.now)
      && Summarize(e).received == [t]
      && Summarize(e).status == []
      && ModConnected !in Summarize(e).kinds && ModDisconnected !in Summarize(e).kinds
      && (!Hashable(t) ==> Summarize(e) == Summary([], [MessageReceived], [t], [], []))
  {
    var d := DispatchEffects(t, message, clientId, compare, f);
    DispatchSummary(t, message, clientId, compare, f);
    DispatchKinds(t, message, clientId, compare, f);
    AroundDispatch(clientId, t, f, d);
  }

  /** A frame holding an object sends what its dispatch sends, and nothing when its type cannot be counted. */
  lemma AcceptedOutbound(clientId: string, compare: (Fields, Fields) -> TokenComparison, f: Frame, message: Fields, t: Json)
    ensures Outbound(AcceptedEffects(clientId, compare, f, message, t))
         == if Hashable(t) then Outbound(DispatchEffects(t, message, clientId, compare, f)) else []
  {
    var head := [Published(MessageReceived, ReceivedData(clientId, t, f.stamp, f.text), f.now), CountedReceived(t)];
    var d := DispatchEffects(t, message, clientId, compare, f);
    ProjectTwo(SentOf, head[0], head[1]);
    if Hashable(t) {
      ProjectAppend(SentOf, head, [TouchedLastMessage(f.now)] + d);
      ProjectCons(SentOf, TouchedLastMessage(f.now), d);
    } else {
      assert head + [] == head;
    }
  }

  /** The received record and count in front of any dispatch that counts nothing received. */
  lemma AroundDispatch(clientId: string, t: Json, f: Frame, d: seq<Effect>)
    requires Summarize(d).received == [] && Summarize(d).status == []
    requires forall k :: k in Summarize(d).kinds ==> k == MessageSent || k == TokenStats
    ensures var e := [Published(MessageReceived, ReceivedData(clientId, t, f.stamp, f.text), f.now), CountedReceived(t)]
                     + (if !Hashable(t) then [] else [TouchedLastMessage(f.now)] + d);
      && Summarize(e).received == [t]
      && Summarize(e).status == []
      && ModConnected !in Summarize(e).kinds && ModDisconnected !in Summarize(e).kinds
      && (!Hashable(t) ==> Summarize(e) == Summary([], [MessageReceived], [t], [], []))
  {
    var head := [Published(MessageReceived, ReceivedData(clientId, t, f.stamp, f.text), f.now), CountedReceived(t)];
    var e := head + (if !Hashable(t) then [] else [TouchedLastMessage(f.now)] + d);
    AnnouncedSummary(head, clientId, t, f);
    if Hashable(t) {
      assert e == head + ([TouchedLastMessage(f.now)] + d);
      ThenDispatch(head, t, f.now, d);
      assert Summarize(e).kinds == [MessageReceived] + Summarize(d).kinds;
    } else {
      assert e == head;
    }
  }

  /** What the announcement of a received message records. */
  lemma AnnouncedSummary(head: seq<Effect>, clientId: string, t: Json, f: Frame)
    requires head == [Published(MessageReceived, ReceivedData(clientId, t, f.stamp, f.text), f.now), CountedReceived(t)]
    ensures Summarize(head) == Summary([], [MessageReceived], [t], [], [])
  {
    SummarizeTwo(head[0], head[1]);
  }

  /** After the announcement, a hashable type touches the clock and dispatches. */
  lemma ThenDispatch(head: seq<Effect>, t: Json, now: Instant, d: seq<Effect>)
    requires Summarize(head) == Summary([], [MessageReceived], [t], [], [])
    requires Summarize(d).received == [] && Summarize(d).status == []
    requires forall k :: k in Summarize(d).kinds ==> k == MessageSent || k == TokenStats
    ensures Summarize(head + ([TouchedLastMessage(now)] + d)).received == [t]
    ensures Summarize(head + ([TouchedLastMessage(now)] + d)).status == []
    ensures Summarize(head + ([TouchedLastMessage(now)] + d)).kinds == [MessageReceived] + Summarize(d).kinds
  {
    SummarizeAppend([TouchedLastMessage(now)], d);
    SummarizeOne(TouchedLastMessage(now));
    SummarizeAppend(head, [TouchedLastMessage(now)] + d);
  }

  /** No frame announces or changes the mod's connection. */
  lemma FrameLeavesPresence(clientId: string, compare: (Fields, Fields) -> TokenComparison, f: Frame)
    ensures Summarize(FrameEffects(clientId, compare, f)).status == []
    ensures ModConnected !in Summarize(FrameEffects(clientId, compare, f)).kinds
    ensures ModDisconnected !in Summarize(FrameEffects(clientId, compare, f)).kinds
  {
    if !f.admitted {
      RateLimitedFrame(clientId, compare, f);
    } else if f.decoded.None? {
      InvalidJsonFrame(clientId, compare, f);
    } else if !f.decoded.value.JObj? {
      UnparsableFrame(clientId, compare, f);
    } else {
      var message := f.decoded.value.fields;
      AcceptedSummary(clientId, compare, f, message, MessageType(Normalized(JObj(message)).value));
    }
  }

  /** Dispatch publishes only MESSAGE_SENT and TOKEN_STATS events. */
  lemma DispatchKinds(t: Json, message: Fields, clientId: string, compare: (Fields, Fields) -> TokenComparison, f: Frame)
    ensures forall k :: k in Summarize(DispatchEffects(t, message, clientId, compare, f)).kinds ==> k == MessageSent || k == TokenStats
  {
    if t == JStr("connection_init") {
      ConnectionInitSummary(clientId, f.now, f.stamp);
    } else if t == JStr("game_state_update") {
      GameStateSummary(message, clientId, f.now, f.stamp);
    } else if t == JStr("conversation_request") {
      ConversationRequestSummary(message, clientId, compare, f.now, f.stamp, f.freshId);
    } else {
      UnknownTypeSummary(t, clientId, f.now, f.stamp);
    }
  }

  /** The receive loop never announces or changes the mod's connection. */
  lemma {:induction false} RunLeavesPresence(clientId: string, compare: (Fields, Fields) -> TokenComparison, frames: seq<Frame>)
    ensures Summarize(RunEffects(clientId, compare, frames)).status == []
    ensures ModConnected !in Summarize(RunEffects(clientId, compare, frames)).kinds
    ensures ModDisconnected !in Summarize(RunEffects(clientId, compare, frames)).kinds
  {
    if frames != [] {
      var rest := if FrameStep(frames[0]).Crashed? then [] else RunEffects(clientId, compare, frames[1..]);
      FrameLeavesPresence(clientId, compare, frames[0]);
      if !FrameStep(frames[0]).Crashed? {
        RunLeavesPresence(clientId, compare, frames[1..]);
      }
      SummarizeAppend(FrameEffects(clientId, compare, frames[0]), rest);
    }
  }

  /** Accepting a connection marks the mod connected at `now` and logs one MOD_CONNECTED event. */
  lemma ConnectBooks(b: Books, clientId: string, now: Instant, stamp: string)
    ensures PostAll(b, ConnectEffects(clientId, now, stamp)).modClientId == Some(clientId)
    ensures PostAll(b, ConnectEffects(clientId, now, stamp)).modConnectedAt == Some(now)
    ensures PostAll(b, ConnectEffects(clientId, now, stamp)).log
         == b.log + [Event(b.issued, ModConnected, now, PresenceData(clientId, stamp), DefaultSeverity)]
  {
    var b1 := Post(b, Registered(clientId));
    var b2 := Post(b1, Published(ModConnected, PresenceData(clientId, stamp), now));
    assert b1 == b;
    assert b2.log == b.log + [Event(b.issued, ModConnected, now, PresenceData(clientId, stamp), DefaultSeverity)];
    PostAllThree(b, Registered(clientId), Published(ModConnected, PresenceData(clientId, stamp), now), MarkedConnected(clientId, now));
  }

  /**
   * Clean-up after a client disconnect marks the mod disconnected and logs
   * one MOD_DISCONNECTED event; any other clean-up leaves the metrics and the
   * bus as they were.
   */
  lemma CloseBooks(b: Books, clientId: string, disconnected: bool, now: Instant, stamp: string)
    ensures disconnected ==>
      && PostAll(b, CloseEffects(clientId, disconnected, now, stamp)).modClientId == None
      && PostAll(b, CloseEffects(clientId, disconnected, now, stamp)).modConnectedAt == None
      && PostAll(b, CloseEffects(clientId, disconnected, now, stamp)).log
         == b.log + [Event(b.issued, ModDisconnected, now, PresenceData(clientId, stamp), DefaultSeverity)]
    ensures !disconnected ==> PostAll(b, CloseEffects(clientId, disconnected, now, stamp)) == b
  {
    var cleanup := [LimiterCleared(clientId), Unregistered(clientId)];
    if disconnected {
      var presence := [Published(ModDisconnected, PresenceData(clientId, stamp), now), MarkedDisconnected];
      PostAllAppend(b, presence, cleanup);
      PostAllTwo(b, presence[0], presence[1]);
      PostAllTwo(PostAll(b, presence), cleanup[0], cleanup[1]);
    } else {
      assert CloseEffects(clientId, disconnected, now, stamp) == cleanup;
      PostAllTwo(b, cleanup[0], cleanup[1]);
    }
  }

  /**
   * What a whole connection leaves in the metrics and the bus: the mod stays
   * marked connected, at the instant of the accept, unless the client closed
   * the connection and no frame crashed the loop, in which case it ends
   * disconnected; the first event the connection logs is its MOD_CONNECTED.
   */
  lemma SessionBooks(b: Books, clientId: string, compare: (Fields, Fields) -> TokenComparison, frames: seq<Frame>,
                     ending: Ending, connectNow: Instant, connectStamp: string, closeNow: Instant, closeStamp: string)
    ensures var after := PostAll(b, SessionEffects(clientId, compare, frames, ending, connectNow, connectStamp, closeNow, closeStamp));
      var disconnected := !SomeFrameCrashes(frames) && ending == ClientClosed;
      && after.modClientId == (if disconnected then None else Some(clientId))
      && after.modConnectedAt == (if disconnected then None else Some(connectNow))
      && |after.log| > |b.log|
      && after.log[|b.log|] == Event(b.issued, ModConnected, connectNow, PresenceData(clientId, connectStamp), DefaultSeverity)
  {
    var disconnected := !SomeFrameCrashes(frames) && ending == ClientClosed;
    var a := ConnectEffects(clientId, connectNow, connectStamp);
    var r := RunEffects(clientId, compare, frames);
    var c := CloseEffects(clientId, disconnected, closeNow, closeStamp);
    PostAllAppend(b, a + r, c);
    PostAllAppend(b, a, r);
    var ba := PostAll(b, a);
    var br := PostAll(ba, r);
    ConnectBooks(b, clientId, connectNow, connectStamp);
    RunLeavesPresence(clientId, compare, frames);
    PostAllKeepsStatus(ba, r);
    PostAllEvents(ba, r);
    CloseBooks(br, clientId, disconnected, closeNow, closeStamp);
    assert |ba.log| == |b.log| + 1;
  }

  /** Set-up and clean-up send nothing: a connection sends exactly what its receive loop sends. */
  lemma SessionOutbound(clientId: string, compare: (Fields, Fields) -> TokenComparison, frames: seq<Frame>,
                        ending: Ending, connectNow: Instant, connectStamp: string, closeNow: Instant, closeStamp: string)
    ensures Outbound(SessionEffects(clientId, compare, frames, ending, connectNow, connectStamp, closeNow, closeStamp))
         == Outbound(RunEffects(clientId, compare, frames))
  {
    var a := ConnectEffects(clientId, connectNow, connectStamp);
    var r := RunEffects(clientId, compare, frames);
    var c := CloseEffects(clientId, !SomeFrameCrashes(frames) && ending == ClientClosed, closeNow, closeStamp);
    ConnectSummary(clientId, connectNow, connectStamp);
    CloseSummary(clientId, !SomeFrameCrashes(frames) && ending == ClientClosed, closeNow, closeStamp);
    ProjectAppend(SentOf, a, r);
    ProjectAppend(SentOf, a + r, c);
  }

  /**
   * A connection is announced once at the start; MOD_DISCONNECTED is
   * published and the mod marked disconnected only when the client closed
   * the connection and no frame crashed the loop; and in every case the last
   * two steps drop the limiter's window and the connection.
   */
  lemma SessionPresence(clientId: string, compare: (Fields, Fields) -> TokenComparison, frames: seq<Frame>,
                        ending: Ending, connectNow: Instant, connectStamp: string, closeNow: Instant, closeStamp: string)
    ensures var e := SessionEffects(clientId, compare, frames, ending, connectNow, connectStamp, closeNow, closeStamp);
      var disconnected := !SomeFrameCrashes(frames) && ending == ClientClosed;
      && Summarize(e).status == [MarkedConnected(clientId, connectNow)] + (if disconnected then [MarkedDisconnected] else [])
      && (ModDisconnected in Summarize(e).kinds <==> disconnected)
      && Summarize(e).kinds != [] && Summarize(e).kinds[0] == ModConnected
      && |e| >= 2 && e[|e| - 2] == LimiterCleared(clientId) && e[|e| - 1] == Unregistered(clientId)
  {
    RunLeavesPresence(clientId, compare, frames);
    Bracketed(clientId, RunEffects(clientId, compare, frames), !SomeFrameCrashes(frames) && ending == ClientClosed,
              connectNow, connectStamp, closeNow, closeStamp);
  }

  /** Set-up and clean-up around any trace that leaves the connection status alone. */
  lemma Bracketed(clientId: string, run: seq<Effect>, disconnected: bool, connectNow: Instant, connectStamp: string, closeNow: Instant, closeStamp: string)
    requires Summarize(run).status == [] && ModDisconnected !in Summarize(run).kinds
    ensures var e := ConnectEffects(clientId, connectNow, connectStamp) + run + CloseEffects(clientId, disconnected, closeNow, closeStamp);
      && Summarize(e).status == [MarkedConnected(clientId, connectNow)] + (if disconnected then [MarkedDisconnected] else [])
      && (ModDisconnected in Summarize(e).kinds <==> disconnected)
      && Summarize(e).kinds != [] && Summarize(e).kinds[0] == ModConnected
      && |e| >= 2 && e[|e| - 2] == LimiterCleared(clientId) && e[|e| - 1] == Unregistered(clientId)
  {
    BracketedStatus(clientId, run, disconnected, connectNow, connectStamp, closeNow, closeStamp);
    BracketedKinds(clientId, run, disconnected, connectNow, connectStamp, closeNow, closeStamp);
    BracketedTail(clientId, run, disconnected, connectNow, connectStamp, closeNow, closeStamp);
  }

  lemma BracketedStatus(clientId: string, run: seq<Effect>, disconnected: bool, connectNow: Instant, connectStamp: string, closeNow: Instant, closeStamp: string)
    requires Summarize(run).status == []
    ensures var e := ConnectEffects(clientId, connectNow, connectStamp) + run + CloseEffects(clientId, disconnected, closeNow, closeStamp);
      Summarize(e).status == [MarkedConnected(clientId, connectNow)] + (if disconnected then [MarkedDisconnected] else [])
  {
    var a := ConnectEffects(clientId, connectNow, connectStamp);
    var c := CloseEffects(clientId, disconnected, closeNow, closeStamp);
    ConnectSummary(clientId, connectNow, connectStamp);
    CloseSummary(clientId, disconnected, closeNow, closeStamp);
    SummarizeAppend(a, run);
    SummarizeAppend(a + run, c);
  }

  lemma BracketedKinds(clientId: string, run: seq<Effect>, disconnected: bool, connectNow: Instant, connectStamp: string, closeNow: Instant, closeStamp: string)
    requires ModDisconnected !in Kinds(run)
    ensures var e := ConnectEffects(clientId, connectNow, connectStamp) + run + CloseEffects(clientId, disconnected, closeNow, closeStamp);
      && (ModDisconnected in Kinds(e) <==> disconnected)
      && Kinds(e) != [] && Kinds(e)[0] == ModConnected
  {
    var a := ConnectEffects(clientId, connectNow, connectStamp);
    var c := CloseEffects(clientId, disconnected, closeNow, closeStamp);
    ProjectThree(KindOf, a[0], a[1], a[2]);
    CloseKinds(clientId, disconnected, closeNow, closeStamp);
    ProjectAppend(KindOf, a, run);
    ProjectAppend(KindOf, a + run, c);
    FramedBy(ModConnected, Kinds(run), Kinds(c), ModDisconnected);
  }

  /** In `[first] + mid + last`, an element that is neither `first` nor in `mid` is found only in `last`. */
  lemma FramedBy<T>(first: T, mid: seq<T>, last: seq<T>, x: T)
    requires x != first && x !in mid
    ensures x in [first] + mid + last <==> x in last
    ensures ([first] + mid + last)[0] == first
  {
  }

  /** The clean-up publishes MOD_DISCONNECTED only when asked to. */
  lemma CloseKinds(clientId: string, disconnected: bool, now: Instant, stamp: string)
    ensures Kinds(CloseEffects(clientId, disconnected, now, stamp)) == if disconnected then [ModDisconnected] else []
  {
    var cleanup := [LimiterCleared(clientId), Unregistered(clientId)];
    ProjectTwo(KindOf, cleanup[0], cleanup[1]);
    if disconnected {
      var presence := [Published(ModDisconnected, PresenceData(clientId, stamp), now), MarkedDisconnected];
      ProjectTwo(KindOf, presence[0], presence[1]);
      ProjectAppend(KindOf, presence, cleanup);
    } else {
      assert CloseEffects(clientId, disconnected, now, stamp) == cleanup;
    }
  }

  lemma BracketedTail(clientId: string, run: seq<Effect>, disconnected: bool, connectNow: Instant, connectStamp: string, closeNow: Instant, closeStamp: string)
    ensures var e := ConnectEffects(clientId, connectNow, connectStamp) + run + CloseEffects(clientId, disconnected, closeNow, closeStamp);
      |e| >= 2 && e[|e| - 2] == LimiterCleared(clientId) && e[|e| - 1] == Unregistered(clientId)
  {
    var presence := if disconnected then [Published(ModDisconnected, PresenceData(clientId, closeStamp), closeNow), MarkedDisconnected] else [];
    var e := ConnectEffects(clientId, connectNow, connectStamp) + run + presence + [LimiterCleared(clientId), Unregistered(clientId)];
    assert e[|e| - 2] == LimiterCleared(clientId) && e[|e| - 1] == Unregistered(clientId);
  }

  /** Accepting a connection publishes MOD_CONNECTED and marks the mod connected. */
  lemma ConnectSummary(clientId: string, now: Instant, stamp: string)
    ensures Summarize(ConnectEffects(clientId, now, stamp)) == Summary([], [ModConnected], [], [], [MarkedConnected(clientId, now)])
  {
    SummarizeThree(Registered(clientId), Published(ModConnected, PresenceData(clientId, stamp), now), MarkedConnected(clientId, now));
  }

  /** Clean-up publishes MOD_DISCONNECTED and marks the mod disconnected only when asked to. */
  lemma CloseSummary(clientId: string, disconnected: bool, now: Instant, stamp: string)
    ensures Summarize(CloseEffects(clientId, disconnected, now, stamp)) ==
      if disconnected then Summary([], [ModDisconnected], [], [], [MarkedDisconnected]) else Summary([], [], [], [], [])
  {
    var cleanup := [LimiterCleared(clientId), Unregistered(clientId)];
    SummarizeTwo(LimiterCleared(clientId), Unregistered(clientId));
    if disconnected {
      var presence := [Published(ModDisconnected, PresenceData(clientId, stamp), now), MarkedDisconnected];
      SummarizeTwo(presence[0], presence[1]);
      SummarizeAppend(presence, cleanup);
    } else {
      assert CloseEffects(clientId, disconnected, now, stamp) == cleanup;
    }
  }
}
