# MineCompanion WebUI backend: protocol, monitor and gateway in Dafny

This project models the core of the MineCompanion WebUI backend. The backend is a
FastAPI service that a Minecraft mod connects to over a WebSocket. The model
covers:

- **CompactProtocol** (`api/protocol.py`, module `Protocol`): the two-way codec.
  One side has short field codes (`i`, `t`, `m`, ...) and short type codes (`cr`,
  `gs`, ...). The other side has the standard long names. `parse` also reads the
  legacy shape, whose fields are nested under `data`. Python dicts are modelled
  as insertion-ordered association lists (module `Dicts`). Both directions
  rebuild a fresh dict item by item. The functions `Normalized` and `Compacted`
  specify the result, and the methods `Parse` and `Compact` are the loops.
- **EventBus** (`core/monitor/event_bus.py`, module `Events`): publishing into a
  history bounded at 100 events, subscriptions per event kind with callbacks
  called in subscription order, recent events, and clearing.
- **MetricsCollector** (`core/monitor/metrics_collector.py`, module `Metrics`):
  the received and sent totals and the shared per-type counts. It also keeps the
  mod connection status and the hourly token buckets, which are pruned after
  24 hours and read back as a 24-point trend.
- **ConnectionManager** (`core/monitor/connection_manager.py`, module
  `Connections`): a registry from client id to connection.
- **WebSocket gateway** (`api/websocket.py`, modules `Wire` and `Gateway`): what
  one frame does (rate limit, invalid JSON, protocol error, received record,
  dispatch on the normalised type), the set-up and the `except`/`finally`
  clean-up around the receive loop, the three inlined handlers, and the
  "send JSON to mod" route's choice of target.
- **ConversationHandler** (`api/handlers/conversation.py`, module
  `Conversation`): the echo response, token accounting and the event order.

Handlers act on a `Services` object, which holds the metrics, the event bus,
`active_connections` and the rate-limiter entries. Each call a handler makes is
appended to a ghost `trace`, so the contracts state which effects happen and in
what order. The `Summary` projections of a trace give what was sent, which event
kinds were published, what was counted and the connection-status changes.
`Post` says what one effect does to the metrics and the bus, and `PostAll`
applies a trace's effects one after the other. Every `Services` call moves the
metrics and the bus exactly as `Post` says for its effect. Every handler's
contract states the metrics and the bus it leaves as `PostAll` of its effects,
applied to the state it started from. So a handler's contract fixes the totals,
the per-type counts, the event log, the callback calls and the mod status it
leaves, and each socket-taking method also states what its socket was sent.

## Model

| member | source | states |
|---|---|---|
| Dicts.Put | api/protocol.py:86-87 | Assigning `d[k] = v` makes `k` map to `v` and leaves every other key's lookup unchanged |
| Dicts.PutKeys | api/protocol.py:86-87 | Assigning an existing key keeps the key order; assigning a new key appends it at the end |
| Dicts.RemoveShape | core/monitor/connection_manager.py:23-24 | `pop(k, None)` deletes exactly the entry for `k` and keeps the others in order |
| Dicts.RemoveGone | api/websocket.py:175 | After `pop(k, None)` the key is absent, whether or not it was present |
| Protocol.FieldTablesInvert | api/protocol.py:18-40 | `_LONG_TO_SHORT` is exactly the inverse of `SHORT_TO_LONG`, in both directions |
| Protocol.TypeTablesInvert | api/protocol.py:31-40 | `_TYPE_LONG_TO_SHORT` is exactly the inverse of `TYPE_MAP`, in both directions |
| Protocol.FieldTablesDisjoint | api/protocol.py:18-40 | No short field code is also a long field name |
| Protocol.TypeTablesDisjoint | api/protocol.py:31-40 | No short type code is also a long type name |
| Protocol.TablesInvert | api/protocol.py:18-40 | Both tables invert, the code sets and name sets are disjoint, and `data` is neither |
| Protocol.ExpandType | api/protocol.py:43-47 | `_expand_type` never yields a short type code, and leaves any value that is not one untouched |
| Protocol.CompactType | api/protocol.py:50-54 | `_compact_type` never yields a long type name, and leaves any value that is not one untouched |
| Protocol.ExpandCompactType | api/protocol.py:43-54 | Expanding a compacted type gives back any type that was not a short code |
| Protocol.CompactExpandType | api/protocol.py:43-54 | Compacting an expanded type gives back any type that was not a long name |
| Protocol.RefillEntrywise | api/protocol.py:75-87 | When every item is kept and the target keys are distinct, the loop keeps length, order and each renamed item |
| Protocol.RefillGetLast | api/protocol.py:75-87 | The last item written to a key wins (later items overwrite earlier ones) |
| Protocol.RefillGetNone | api/protocol.py:75-87 | A key that no item writes is absent from the result |
| Protocol.ExpandedIsStandard | api/protocol.py:75-87 | After the rename loop, every key is a long name, `type` is expanded and `data` is gone |
| Protocol.FirstPresent | api/protocol.py:89-122 | The legacy alias lookup finds a value exactly when some alias is present, and takes the first present alias |
| Protocol.ApplyLegacyGet | api/protocol.py:89-122 | A legacy value found under any alias overrides the top-level value; otherwise the top-level value stays |
| Protocol.ApplyLegacyStandard | api/protocol.py:89-122 | Merging the legacy `data` fields keeps the message in standard form |
| Protocol.Normalized | api/protocol.py:57-68 | `parse` fails with its error message exactly when the input is not a dict |
| Protocol.Compacted | api/protocol.py:131-138 | `compact` fails with its error message exactly when the input is not a dict |
| Protocol.MergedGet | api/protocol.py:75-122 | After the first two steps of `parse`, each key holds its legacy value if it has one, else the renamed top-level value |
| Protocol.MergedIsStandard | api/protocol.py:75-126 | The merged message is in standard form, so the final re-expansion of `type` changes nothing |
| Protocol.NormalizedIsStandard | api/protocol.py:57-128 | `parse` output has only long keys, an expanded `type` and no `data` |
| Protocol.NormalizedFixedPoint | api/protocol.py:57-128 | `parse` returns a standard message unchanged |
| Protocol.NormalizeIdempotent | api/protocol.py:57-128 | `parse(parse(m)) == parse(m)` |
| Protocol.NormalizedKeepsUnknownKey | api/protocol.py:75-87 | A key that is neither a code, a long name nor `data` passes through `parse` with its value |
| Protocol.NormalizedRenamesShortKey | api/protocol.py:75-87 | A short code's value appears under its long name (its type expanded), unless a later item or a legacy value overrides it |
| Protocol.NormalizedLastWriter | api/protocol.py:75-87 | The last item renamed onto a key decides that key's value, unless a legacy value overrides it |
| Protocol.NormalizedLegacy | api/protocol.py:89-122 | A value found in the legacy `data` object wins over any top-level value |
| Protocol.CompactEntryRoundTrip | api/protocol.py:75-152 | Compacting a standard entry and renaming it back gives the entry |
| Protocol.CompactedEntrywise | api/protocol.py:141-152 | Compacting a standard message keeps its length and order, entry by entry |
| Protocol.RoundTrip | api/protocol.py:57-154 | `parse(compact(m)) == m` for every standard message `m` |
| Protocol.RenameEntryRoundTrip | api/protocol.py:75-152 | Renaming a compact-form entry and compacting it again gives the entry |
| Protocol.RoundTripFromCompact | api/protocol.py:57-154 | `compact(parse(c)) == c` for every compact-form message: distinct keys, no long field names, no `data`, and a `t` that is not a long type name |
| Protocol.Parse | api/protocol.py:57-128 | The loop, the legacy merge and the re-expansion compute `Normalized` |
| Protocol.RenameAll | api/protocol.py:75-87 | The rename loop computes `Refill(src, RenameEntry)` |
| Protocol.MergeLegacy | api/protocol.py:89-122 | The six legacy assignments compute `ApplyLegacy` |
| Protocol.Compact | api/protocol.py:131-154 | The compact loop computes `Compacted` |
| Events.Last | core/monitor/event_bus.py:22 | The window holds the last min(len(s), n) elements, in order |
| Events.AppendedWindow | core/monitor/event_bus.py:22-45 | Appending to the bounded deque is taking the last 100 events of the extended log |
| Events.AppendedBounded | core/monitor/event_bus.py:22-45 | The deque never exceeds 100; a full deque drops its oldest element; the newest event is last |
| Events.CallsInOrder | core/monitor/event_bus.py:47-48 | Every subscription gets exactly one call, in subscription order, all seeing the same history |
| Events.HistoryIsWindow | core/monitor/event_bus.py:22-45 | Publishing a sequence of events one by one leaves exactly the last 100 in the history |
| Events.EventBus.Publish | core/monitor/event_bus.py:25-48 | The event gets the next id and the given fields; the history stays the 100-event window of the log; each subscriber of the kind is called once, in order, after the append |
| Events.EventBus.Notify | core/monitor/event_bus.py:47-48 | The loop calls each callback exactly once, in list order, each call seeing the event and the history it is given (the history after the append, when called from `publish`), and changes nothing but the calls made |
| Events.EventBus.Subscribe | core/monitor/event_bus.py:50-56 | The callback is appended to that kind's list; other kinds are untouched |
| Events.EventBus.GetRecentEvents | core/monitor/event_bus.py:58-67 | A non-positive limit gives nothing; otherwise the newest min(limit, len(history)) events, oldest first |
| Events.EventBus.ClearHistory | core/monitor/event_bus.py:69-75 | The history is empty and the window invariant restarts |
| Metrics.TotalPut | core/monitor/metrics_collector.py:43-59 | Replacing one per-type count changes the sum by exactly the difference |
| Metrics.Bumped | core/monitor/metrics_collector.py:43-59 | Counting a type adds one to that type's count and to the sum, and leaves every other type's count alone |
| Metrics.Recorded | core/monitor/metrics_collector.py:100-115 | The current hour gains the tokens; every surviving bucket is fresh; every fresh old bucket survives unchanged |
| Metrics.RecordedThenTrend | core/monitor/metrics_collector.py:100-143 | Tokens recorded now show up in the last trend point read in the same hour |
| Metrics.TrendHoursAreFresh | core/monitor/metrics_collector.py:108-129 | Pruning never drops an hour that the 24-point trend reads |
| Metrics.MetricsCollector.constructor | core/monitor/metrics_collector.py:20-27 | Zero totals, empty per-type counts, no mod connected and no token buckets |
| Metrics.MetricsCollector.RecordReceived | core/monitor/metrics_collector.py:43-50 | The total always goes up by one; the type's count goes up unless the type is unhashable, which raises; the counts still add up to the totals |
| Metrics.MetricsCollector.RecordSent | core/monitor/metrics_collector.py:52-59 | As for received, on the sent total |
| Metrics.MetricsCollector.SetModConnected | core/monitor/metrics_collector.py:61-66 | The mod id and the connect time are set |
| Metrics.MetricsCollector.SetModDisconnected | core/monitor/metrics_collector.py:68-73 | The mod id and the connect time are cleared |
| Metrics.MetricsCollector.UpdateModLastMessage | core/monitor/metrics_collector.py:75-79 | The last-message time is the current time |
| Metrics.MetricsCollector.RecordTokenUsage | core/monitor/metrics_collector.py:100-115 | The add-then-delete loop leaves exactly `Recorded` |
| Metrics.MetricsCollector.GetTokenTrend | core/monitor/metrics_collector.py:117-143 | 24 points for the hours up to the current one, oldest first, missing buckets as 0, and a total equal to their sum |
| Metrics.MetricsCollector.ResetStats | core/monitor/metrics_collector.py:145-154 | The totals and the per-type counts restart; status and tokens are untouched |
| Connections.ConnectionManager.Add | core/monitor/connection_manager.py:20-21 | The id maps to the new connection, other ids are unchanged, and the ids stay distinct |
| Connections.ConnectionManager.Remove | core/monitor/connection_manager.py:23-24 | The id's entry is removed, if it was present |
| Connections.ConnectionManager.Get | core/monitor/connection_manager.py:26-27 | A connection is found exactly when the id is registered, and it is the registered one |
| Connections.ConnectionManager.GetAllIds | core/monitor/connection_manager.py:29-30 | Every registered id in insertion order, with no duplicates |
| Connections.ConnectionManager.Count | core/monitor/connection_manager.py:32-33 | The number of registered ids |
| Connections.AddCount | core/monitor/connection_manager.py:20-33 | Re-adding an id keeps the count and the order; a new id adds one at the end |
| Connections.RemoveCount | core/monitor/connection_manager.py:23-33 | After a remove the id is not found, and the count drops by one exactly when it was registered |
| Conversation.EchoResponseShape | api/handlers/conversation.py:22-33 | The response has exactly the keys id, type, companionName and message in that order, with the constants, the request's id or the default, and the echo of its message |
| Conversation.EchoResponseStandard | api/handlers/conversation.py:28-33 | The response is in standard form |
| Conversation.EchoResponseRoundTrip | api/handlers/conversation.py:28-37 | Compacting the response for the token count loses nothing: parsing it back gives the response |
| Conversation.EchoResponseDependsOnIdAndMessage | api/handlers/conversation.py:22-33 | The response depends on the request only through its normalised `id` and `message` |
| Conversation.CompactRequestFields | api/handlers/conversation.py:20-24 | A compact request's `i` and `m` reach the handler as `id` and `message` |
| Conversation.LongRequestFields | api/handlers/conversation.py:20-24 | A standard request's `id` and `message` reach the handler unchanged |
| Conversation.LegacyRequestMessage | api/handlers/conversation.py:20-24 | A legacy request's nested `msg` reaches the handler as `message` |
| Conversation.ShapesGiveSameResponse | api/handlers/conversation.py:20-33 | The compact, standard and legacy shapes of one request get the same response |
| Conversation.HandleEffectsOrder | api/handlers/conversation.py:41-55 | The sent count for the response type comes first, then the token record of the compact form's figure, then TOKEN_STATS before MESSAGE_SENT, and the response is sent last |
| Conversation.Handle | api/handlers/conversation.py:19-55 | A non-dict request fails before any effect; otherwise the echo response is returned, the effects happen in source order, the socket gets the response once, the metrics and the bus move exactly by those effects, and the connections and the limiter are untouched |
| Gateway.Preview | api/websocket.py:115 | The preview is the first 100 characters of the frame text, or the whole text when it is shorter |
| Gateway.SelectTarget | api/websocket.py:302-314 | No connection gives the "no connection" error; the mod that metrics name wins when it is live and non-empty; otherwise the first live id, or the "no target" error if that id is empty; any target is live |
| Gateway.SendJsonToMod | api/websocket.py:296-334 | On failure nothing happens: no socket gets anything and the metrics and the bus are unchanged; otherwise only the target's socket gets the message, the metrics and the bus move by the sent count and the MESSAGE_SENT for the target, and the report names the target |
| Gateway.RateLimitedFrame | api/websocket.py:49-55 | A frame over the limit gets one error reply and nothing else, and the loop goes on |
| Gateway.InvalidJsonFrame | api/websocket.py:58-91 | Non-JSON text is recorded as received "invalid_json", answered with one error, counted as sent "error", and the loop goes on |
| Gateway.UnparsableFrame | api/websocket.py:94-111 | JSON that is not an object gets one error reply and a sent count, with no received record, and the loop goes on |
| Gateway.DispatchSummary | api/websocket.py:128-159 | Exactly one branch runs: each handled type gets its handler's reply and sent count, any other type the error naming it; no branch counts a received message or changes the connection status |
| Gateway.ConnectionInitSummary | api/websocket.py:178-197 | connection_init sends one acknowledgement, counts it, and publishes MESSAGE_SENT |
| Gateway.GameStateSummary | api/websocket.py:200-229 | A game state whose `data` is a dict gets an acknowledgement naming the player (default "Unknown"); any other gets nothing |
| Gateway.ConversationRequestSummary | api/websocket.py:232-293 | A conversation request gets the echo response, counted once, with TOKEN_STATS before MESSAGE_SENT |
| Gateway.UnknownTypeSummary | api/websocket.py:141-159 | An unknown type gets one error naming it, counted as sent "error" |
| Gateway.HandleConnectionInit | api/websocket.py:178-197 | The socket gets exactly the connection ack naming the client; the trace gains the send, MESSAGE_SENT and the "connection_ack" count, in that order; the metrics and the bus move by exactly those effects; the connections and the limiter are untouched |
| Gateway.HandleGameStateUpdate | api/websocket.py:200-229 | A dict `data` gets the ack naming `player_name` (default "Unknown") sent, counted and announced, in that order; any other `data` changes nothing; the metrics and the bus move by exactly those effects |
| Gateway.HandleConversationRequest | api/websocket.py:232-288 | The socket gets exactly the echo of the normalised request with the fresh id; the trace gains send, count, token record, TOKEN_STATS and MESSAGE_SENT in that order; the metrics and the bus move by exactly those effects |
| Gateway.Reply | api/websocket.py:266-286 | The response is sent once, counted as "conversation_response", the compact figure recorded, then TOKEN_STATS and MESSAGE_SENT published; the metrics and the bus move by exactly those effects |
| Gateway.ReplyUnknownType | api/websocket.py:141-159 | The socket gets exactly the error naming the type and the client; one sent "error" count and one MESSAGE_SENT follow; the metrics and the bus move by exactly those effects |
| Gateway.Dispatch | api/websocket.py:128-159 | Exactly the branch for the normalised type runs: the trace gains that branch's effects, the socket gets that branch's replies, and the metrics and the bus move by exactly those effects |
| Gateway.RoutedTypeIsLong | api/websocket.py:113 | The type a frame is routed on is the normalised `type` or "unknown", and never a short code |
| Gateway.AcceptedFrame | api/websocket.py:113-159 | An object frame is recorded as received once, first, under its normalised type; an unhashable type crashes the loop with nothing sent |
| Gateway.FrameLeavesPresence | api/websocket.py:46-161 | No frame changes the connection status or publishes MOD_CONNECTED or MOD_DISCONNECTED |
| Gateway.RunLeavesPresence | api/websocket.py:43-161 | Neither does any run of frames |
| Gateway.SessionPresence | api/websocket.py:32-175 | MOD_CONNECTED comes first; MOD_DISCONNECTED and the disconnected mark happen exactly when the client closed and no frame crashed; the last two steps always clear the limiter and drop the connection |
| Gateway.Bracketed | api/websocket.py:32-175 | Set-up and clean-up around any run that leaves the status alone give that presence pattern |
| Gateway.HandleFrame | api/websocket.py:46-161 | One frame's effects in order, whether it crashed the loop, the replies its socket got, and the metrics and the bus after exactly those effects |
| Gateway.RunFrames | api/websocket.py:43-161 | Frames are handled in order until the first one that crashes; the socket gets those frames' replies, and the metrics and the bus move by exactly their effects |
| Gateway.Serve | api/websocket.py:26-175 | A whole connection's effects, replies, metrics and bus; afterwards the id is gone from `active_connections` and from the limiter |
| Gateway.Connect | api/websocket.py:32-41 | Register, publish MOD_CONNECTED, then mark the mod connected: the mod id and connect time are set and the bus log gains exactly the MOD_CONNECTED event |
| Gateway.Close | api/websocket.py:164-175 | On a client disconnect the bus log gains exactly MOD_DISCONNECTED and the mod id and connect time are cleared; otherwise the log and the status are unchanged; the limiter entry and the connection are always dropped |
| Gateway.AcceptedOutbound | api/websocket.py:113-159 | An object frame sends what its dispatch sends, and nothing when its type cannot be counted |
| Gateway.SessionOutbound | api/websocket.py:26-175 | Set-up and clean-up send nothing: a connection sends exactly what its receive loop sends |
| Gateway.ConnectBooks | api/websocket.py:32-41 | The set-up leaves the mod marked connected at the accept instant and logs one MOD_CONNECTED event |
| Gateway.CloseBooks | api/websocket.py:164-175 | Clean-up after a client disconnect clears the mod and logs one MOD_DISCONNECTED event; any other clean-up leaves the metrics and the bus as they were |
| Gateway.SessionBooks | api/websocket.py:26-175 | After a whole connection the mod is still marked connected, at the accept instant, unless the client closed without a crash, in which case it is cleared; the connection's first logged event is its MOD_CONNECTED |
| Wire.PostAllCounts | core/monitor/metrics_collector.py:43-59 | Applying a trace adds one to the received total per received count and one to the sent total per sent count, logs one event per publish, and keeps the reset time and the subscriptions |
| Wire.PostAllEvents | core/monitor/event_bus.py:25-45 | The events a trace publishes are appended to the log in order, with the kinds the trace gives them, and earlier entries stay |
| Wire.PostAllKeepsStatus | core/monitor/metrics_collector.py:61-73 | A trace that neither connects nor disconnects the mod leaves its id and connect time as they were |
| Wire.PostAllAppend | core/monitor/metrics_collector.py:43-79 | Applying a trace in two parts is applying it whole |

## Left out

- I/O is left out. The socket is an outbound message sequence. `receive_text`, the clock, `uuid4` and the rate limiter's decision are per-frame inputs (`Frame.text`, `now`/`stamp`, `freshId`, `admitted`). `json.loads` is an input too: `decoded` is None when it raises.
- `print` lines and the `response_preview` strings (`json.dumps` output) are left out. They are only printed.
- async scheduling and concurrency between connections are left out. Each handler runs to completion with nothing interleaved.
- JSON numbers are integers. Floats are only passed through by this code.
- `True == 1` as dict keys is not modelled. Two keys are equal when their Json values are equal.
- Timestamps are integer microseconds (`Instant`). The ISO text in event data is a separate `stamp` input. It is not derived from `Instant`.
- Metrics.MetricsCollector.RecordTokenUsage: buckets are keyed by hour index, not by the `"%Y-%m-%d %H:00"` text.
- Metrics.MetricsCollector.GetTokenTrend: a point's `hour` is the hour of day as an int (`h % 24`), not the `"%H:00"` text.
- `set_llm_status`, `get_stats`, `get_connection_status` and `_ensure_messages_dict` are field reads and writes outside the core. They are not modelled. The singleton `__new__` is the constructor.
- `TokenTracker.compare` is a parameter. It is any function of the standard and compact forms, and its figures are not modelled.
- Event callbacks are opaque handles, and a delivery is recorded rather than run. A callback that raises (which stops the remaining callbacks) is not modelled.
- Exceptions raised by `send_json`, by `compare` or inside the handlers (the `except Exception` at api/websocket.py:289-293 and elsewhere) are not modelled. The one exception modelled is an unhashable message type raising in `record_message_received`, which ends the loop.
- The rate limiter is modelled only by `Services.limited`, the ids it may hold a window for. Its admission decision is the frame input `admitted`, so in this model the set only loses ids (on clean-up).
- `Services` offers no subscribe, clear-history, reset or LLM-status call. Those are modelled on `EventBus` and `MetricsCollector` directly, so the bus's subscriptions do not change during a handler call.
- Gateway.Serve: how the loop ends is an input (`Ending`). `ClientClosed` is `WebSocketDisconnect`; `Failed` is any other exception.
- Gateway.SendJsonToMod: the `websocket is None` branch (api/websocket.py:316-318) cannot be reached after the target check, so the model has no such failure. `message.model_dump(exclude_none=True)` is given as `Fields`, and the HTTP 503 is a `Fail` with its detail text.
- `repr` of containers follows Python's layout but not its string escaping.
- The registry-based handler dispatch (api/handlers/registry.py) and the LLM route are not part of this model. The registry only maps type names to handlers. The LLM route's `compact` then `parse` (api/routes/llm.py:69-70) is covered by `Protocol.RoundTrip`.
- The conversation handler in api/handlers/conversation.py defaults the response id to `""`, while the inlined handler in api/websocket.py defaults it to a fresh uuid. The model follows each file: `Conversation.Handle` passes `""` and `Gateway` passes `Frame.freshId`.
