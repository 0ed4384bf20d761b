# Websocket bridge and credit-score skill, modelled in Dafny

This project models the logic of three parts of an autonomous-agent repository.

The **websockets protocol** (`eightballer/websockets:0.1.0`) covers:
- the seven performatives and the consistency check of a message;
- the dialogue reply table;
- the codec between messages and their protobuf records.

The **websocket server connection** covers the channel that bridges HTTP
upgrades and Socket.IO sessions to the agent's inbox, and the connection
facade the agent talks to.

The **UI skill and the aggregation skill** cover:
- how the UI skill's HTTP handler derives the name of the handler method from
  a request, and the validation its analyze endpoint does before the search;
- the credit-score aggregation application's round table and its synchronized
  data keys.

Modules:
- `Wrappers`: `Option` and `Result`.
- `Strings`: the Python string operations the handler uses.
- `WsMessage`: performatives, messages, `_is_consistent`.
- `WsDialogues`: the reply table, end states and roles.
- `Utf8`: Python's strict UTF-8 codec, which protobuf applies when a string
  field is given bytes.
- `WsSerialization`: `encode`/`decode` over abstract protobuf records.
- `WsChannel`: the channel as a state machine.
  - The channel is an immutable record: stopped flag, inbox, the
    `open_connections` and `pending_requests` tables, server flag, dialogue
    table and a log of transport effects.
  - Every handler is a function from a channel to a `Step`.
  - A Python exception is a `Raised` step that keeps the state reached when
    it was raised, as Python does.
- `WsServerConnection`: the facade's `send` and `receive`.
- `WsChannelRuns`: the following, over runs of channel events:
  - the channel invariant;
  - the whole initial HTTP leg as one loop;
  - the channel's quirks as concrete runs.
- `ApiHandlers`: handler naming, dispatch and the analyze pre-check.
- `CreditScoreRounds`: the round table and the synchronized-data keys.

The channel is modelled as written, quirks included:
- The HTTP path stores every leg's dialogue under the one `None` sid, so a
  second leg overwrites the first (`WsChannelRuns.NoneSidOverwritten`).
- `open_connections` holds futures under request ids and dialogues under sids.
- A Socket.IO connect, and a catch-all frame from an unknown sid, put the
  CONNECT in the inbox twice.
- `send` pops `pending_requests` under the dialogue's label before
  `send_message_to_client` looks the dialogue up. The keys of that table are
  HTTP request ids and Socket.IO session ids. A request id is also a dialogue
  label, but of an HTTP dialogue with its own random nonce, so the pop never
  finds anything.
- An HTTP reply sent through the channel while a leg waits removes the leg's
  future. The next pass of the wait loop then fails its lookup, and the leg
  ends with NotImplementedError without `close_session`
  (`WsChannelRuns.HttpReplyAbortsLeg`).
- Reconnecting clears `pending_requests` but not `open_connections`
  (`WsChannelRuns.ReconnectForgetsPending`).
- `disconnect` keeps both tables.
- A dialogue opened by the catch-all handler has no transport, so a SEND reply
  on it raises AttributeError (`WsChannelRuns.CatchAllDialogueCannotBeAnswered`).

The code also behaves as follows:
- Only DISCONNECT_ACK is a terminal performative. DISCONNECT is only among the
  end states.
- A duplicate key overwrites the entry instead of failing.
- `disconnect` releases the inbox but not the correlation tables.
- The wait loop of the HTTP leg is never ended by the agent's reply. An HTTP
  reply sent through the connection raises AttributeError before it reaches
  the channel, and one that reaches the channel makes the loop raise.
- An outbound CONNECTION_ACK writes nothing, so it does not complete the
  HTTP leg.
- An invalid upgrade request is not answered with a 404. The handler calls
  the HTTP dialogues class with response keywords it does not take, which
  raises TypeError.
- A SEND whose data is not a string makes an aiohttp websocket's `send_str`
  raise TypeError. Only a reset connection is caught there. A Socket.IO
  dialogue's `send_str` emits the data whatever its type.
- The encoder does not check the content types itself. Protobuf's setters
  coerce what they can: a bool field stores the truth value of an integer,
  and a string field decodes bytes as strict UTF-8. So CONNECTION_ACK with
  `success=1` and SEND with `data=b"hi"` both encode.

## Model

| member | source | states |
|---|---|---|
| WsMessage.ParsePerformative | packages/eightballer/protocols/websockets/message.py:49-72 | the performative lookup succeeds exactly on the seven valid names, and the performative found is named by the input |
| WsMessage.PerformativeNames | packages/eightballer/protocols/websockets/message.py:52-72 | every performative's name is valid and looks up to that performative, and every valid name is some performative's name |
| WsMessage.NewMessage | packages/eightballer/protocols/websockets/message.py:89-112 | a message built with the constructor defaults (id 1, target 0) obeys the header rule |
| WsMessage.TypedContent | packages/eightballer/protocols/websockets/message.py:221-296 | a typed content of the performative exists exactly when the field checks pass and the content count matches, and its fields are exactly the message contents |
| WsMessage.ConsistentIffTyped | packages/eightballer/protocols/websockets/message.py:178-310 | `_is_consistent` holds exactly when the header rule holds and the contents are the fields of some typed content of the message's performative |
| WsMessage.FieldsFitSchema | packages/eightballer/protocols/websockets/message.py:224-296 | the fields of every typed content pass its performative's type checks with exactly the expected count |
| WsMessage.ConsistentKeys | packages/eightballer/protocols/websockets/message.py:224-296 | a consistent message carries exactly its performative's required keys; a DISCONNECT carries no key or only `reason` |
| WsMessage.MissingRequiredKeyInconsistent | packages/eightballer/protocols/websockets/message.py:240-255 | leaving out a required content makes a message inconsistent |
| WsMessage.FirstMessageTargetsZero | packages/eightballer/protocols/websockets/message.py:298-305 | a message with id 1 and a non-zero target is inconsistent |
| WsMessage.SkippedContentInconsistent | packages/eightballer/protocols/websockets/tests/test_websockets_messages.py:70-98 | an ERROR with only its code is inconsistent, and so is every other performative without contents except DISCONNECT |
| WsMessage.ExampleMessagesConsistent | packages/eightballer/protocols/websockets/tests/test_websockets_messages.py:36-68 | the seven example messages of the protocol tests are consistent |
| WsDialogues.ReplyTableTotal | packages/eightballer/protocols/websockets/dialogues.py:44-83 | the reply table has an entry for each of the seven performatives and lists only performatives |
| WsDialogues.TerminalIffNoReplies | packages/eightballer/protocols/websockets/dialogues.py:43-83 | DISCONNECT_ACK is the only terminal performative, and the terminal ones are exactly those with no legal reply |
| WsDialogues.RepliesAfterConnectDisconnectError | packages/eightballer/protocols/websockets/dialogues.py:45-66 | CONNECT is answered only by CONNECTION_ACK or ERROR, DISCONNECT only by DISCONNECT_ACK or ERROR, ERROR only by SEND |
| WsDialogues.OnlyAfter | packages/eightballer/protocols/websockets/dialogues.py:44-83 | CONNECT never answers anything; CONNECTION_ACK answers only CONNECT and DISCONNECT_ACK only DISCONNECT |
| WsDialogues.LegalChainIffAccepted | packages/eightballer/protocols/websockets/dialogues.py:40-83 | a sequence of performatives is a legal chain (initial start, each a valid reply) exactly when a dialogue accepts it one message at a time |
| WsDialogues.NothingAfterTerminal | packages/eightballer/protocols/websockets/dialogues.py:43-65 | a dialogue whose last message is terminal accepts nothing more |
| WsDialogues.ConnectionAckPosition | packages/eightballer/protocols/websockets/dialogues.py:40-83 | in a legal chain CONNECT can only come first and CONNECTION_ACK only second, right after a CONNECT |
| WsDialogues.TerminalReachable | packages/eightballer/protocols/websockets/dialogues.py:40-65 | from each initial performative some legal chain ends in DISCONNECT_ACK |
| WsDialogues.EndStatesShape | packages/eightballer/protocols/websockets/dialogues.py:91-129 | the end states are named after exactly DISCONNECT_ACK and DISCONNECT, have distinct values and cover the terminal performative |
| WsDialogues.RetainedIffNotTerminal | packages/eightballer/protocols/websockets/dialogues.py:131 | storage drops a dialogue exactly when its last message is DISCONNECT_ACK |
| WsDialogues.RolesDistinct | packages/eightballer/protocols/websockets/dialogues.py:85-89 | the two roles are client and server, with distinct names |
| WsSerialization.ErrorCodeRoundTrip | packages/eightballer/protocols/websockets/serialization.py:89-95 | the error-code conversions are mutually inverse |
| WsSerialization.OneofName | packages/eightballer/protocols/websockets/serialization.py:123-125 | the one-of's name of a set branch looks up to that branch's performative, and the name of an unset one-of is not a valid performative |
| WsSerialization.EncodeBranch | packages/eightballer/protocols/websockets/serialization.py:56-97 | encoding fills the branch of the message's own performative. It succeeds exactly when every field the branch assigns accepts its value as protobuf's setters do: a string field takes a string or well-formed UTF-8 bytes, and a bool field takes a bool or an integer. Contents with the declared types always encode |
| WsSerialization.Encode | packages/eightballer/protocols/websockets/serialization.py:37-103 | encoding fails when the message id or the target does not fit the record's `int32` fields. Otherwise the header is copied unchanged, and the one-of is set to the message's performative exactly when the setters accept the contents (strings or well-formed UTF-8 bytes for string fields, bools or integers for bool fields) |
| WsSerialization.CoercedContents | packages/eightballer/protocols/websockets/serialization.py:62-88 | CONNECTION_ACK with `success=1` stores `true`, and `success=0` on DISCONNECT_ACK stores `false`. SEND with `data=b"hi"` stores "hi"; bytes that are not UTF-8 fail with a UTF-8 error, and an integer for `data` fails with a type error |
| WsSerialization.BytesDataEncodes | packages/eightballer/protocols/websockets/serialization.py:67-71 | SEND with the UTF-8 bytes of any string as its data encodes to that string |
| Utf8.RoundTrip | packages/eightballer/protocols/websockets/serialization.py:68-70 | decoding the UTF-8 encoding of any string gives the string back |
| Utf8.AsciiDecodes | packages/eightballer/protocols/websockets/serialization.py:68-70 | bytes below 0x80 always decode, one character per byte with the same code point |
| Utf8.Rejected | packages/eightballer/protocols/websockets/serialization.py:68-70 | a lone continuation byte, an overlong form, an encoded surrogate, a truncated sequence and a code point above U+10FFFF do not decode |
| WsSerialization.Decode | packages/eightballer/protocols/websockets/serialization.py:105-161 | decoding fails exactly when no branch is set, with an invalid-performative error; otherwise it restores the header and the branch's performative, with contents that fit the schema |
| WsSerialization.RoundTrip | packages/eightballer/protocols/websockets/serialization.py:37-161 | decoding an encoded message gives the message back, for every message whose contents fit its schema and whose header integers fit `int32` |
| WsSerialization.ConsistentRoundTrip | packages/eightballer/protocols/websockets/serialization.py:37-161 | every consistent message whose header integers fit `int32` survives encode then decode |
| WsSerialization.UnsetPerformativeRejected | packages/eightballer/protocols/websockets/serialization.py:123-125 | a record with no branch set is rejected as the invalid performative "None" |
| WsSerialization.DisconnectReasonFlag | packages/eightballer/protocols/websockets/serialization.py:77-83 | for DISCONNECT the flag is set exactly when a reason is given, and decode restores `reason` exactly when the flag is set |
| WsSerialization.RecordRoundTrip | packages/eightballer/protocols/websockets/serialization.py:105-161 | encoding a decoded record gives the record back when an unset reason is empty |
| WsSerialization.DecodedContentsFitSchema | packages/eightballer/protocols/websockets/serialization.py:126-151 | decoded contents carry exactly the required keys, so a decoded message with a valid header is consistent |
| WsChannel.InitInv | packages/eightballer/connections/websocket_server/connection.py:98-102 | the constructed channel satisfies the channel invariant |
| WsChannel.Put | packages/eightballer/connections/websocket_server/connection.py:226-235 | sending to the agent appends exactly one item to the inbox and changes nothing else; with no inbox it raises AttributeError |
| WsChannel.NewClient | packages/eightballer/connections/websocket_server/connection.py:258-295 | a new client gets a fresh dialogue holding CONNECT then a successful CONNECTION_ACK; it is stored under the sid and pending under the session; the CONNECT is put in the inbox |
| WsChannel.FreshDialogueLegal | packages/eightballer/connections/websocket_server/connection.py:271-280 | the dialogue a new client gets is a legal chain of two consistent messages |
| WsChannel.ExistingClient | packages/eightballer/connections/websocket_server/connection.py:297-307 | an existing client's frame answers the pending dialogue with a SEND carrying the data; with nothing pending it raises KeyError |
| WsChannel.InboundFrame | packages/eightballer/connections/websocket_server/connection.py:237-256 | a frame on the HTTP leg adds a SEND to the request's dialogue and puts the SEND then `None` in the inbox; the SEND is consistent exactly when the frame is text |
| WsChannel.CloseSession | packages/eightballer/connections/websocket_server/connection.py:207-224 | `close_session` always drops the key from `pending_requests`; only when a dialogue was pending does it drop `open_connections`, answer it with a consistent DISCONNECT and put it in the inbox |
| WsChannel.HttpAccept | packages/eightballer/connections/websocket_server/connection.py:136-173 | without an inbox the leg raises ValueError; an invalid request raises TypeError with nothing changed; a valid one stores a future, a dialogue under the `None` sid and a pending entry, and puts the request and the CONNECT in the inbox |
| WsChannel.HttpPoll | packages/eightballer/connections/websocket_server/connection.py:176-183 | a pass with the future in place either receives nothing or forwards the frame; once the future is gone the pass raises NotImplementedError |
| WsChannel.HttpFinish | packages/eightballer/connections/websocket_server/connection.py:185-205 | closing the leg drops the request id from both tables and sends one DISCONNECT on the pending dialogue; errors surface as NotImplementedError |
| WsChannel.SioConnect | packages/eightballer/connections/websocket_server/connection.py:333-337 | a Socket.IO connect creates a dialogue under the session id and puts its CONNECT in the inbox twice; a missing PATH_INFO raises KeyError |
| WsChannel.SioDisconnect | packages/eightballer/connections/websocket_server/connection.py:339-353 | a Socket.IO disconnect never raises and removes the session id from both tables |
| WsChannel.SioDisconnectSendsOneDisconnect | packages/eightballer/connections/websocket_server/connection.py:339-353 | a Socket.IO disconnect puts at most one DISCONNECT in the inbox: one for a pending dialogue, none otherwise |
| WsChannel.ForwardFrame | packages/eightballer/connections/websocket_server/connection.py:327-331 | forwarding a frame adds one SEND to the dialogue and the inbox and leaves the tables alone |
| WsChannel.CatchAllNewSession | packages/eightballer/connections/websocket_server/connection.py:322-331 | a frame from an unknown sid creates a dialogue with no transport; the inbox gets its CONNECT twice, then a SEND carrying the data |
| WsChannel.CatchAll | packages/eightballer/connections/websocket_server/connection.py:316-331 | the reserved events change nothing; an unknown sid gets a new session; a known one has its frame forwarded as a SEND with the tables unchanged |
| WsChannel.Disconnected | packages/eightballer/connections/websocket_server/connection.py:404-411 | an undeliverable SEND becomes one DISCONNECT with the locate-failure reason in the inbox, with the tables unchanged |
| WsChannel.SendToClient | packages/eightballer/connections/websocket_server/connection.py:394-422 | sending to a client changes neither table, only ever writes to transports, and never shortens the dialogue |
| WsChannel.SendToClientCases | packages/eightballer/connections/websocket_server/connection.py:398-422 | non-SEND replies are dropped; an awaited SEND is written to its transport, or raises without a transport, without data, or with non-string data on an aiohttp websocket, while the Socket.IO `send_str` set at connection.py:284-288 emits any data; an unawaited or reset SEND puts one consistent DISCONNECT in the inbox and writes nothing |
| WsChannel.SocketIoEmitsAnyData | packages/eightballer/connections/websocket_server/connection.py:284-288 | an awaited SEND on a Socket.IO dialogue is emitted with its data whatever the data's type, with no TypeError |
| WsChannel.HttpSend | packages/eightballer/connections/websocket_server/connection.py:375-377 | an HTTP reply pops its request id from `open_connections` and resolves the future found there; an unmatched reply raises AttributeError |
| WsChannel.WsSend | packages/eightballer/connections/websocket_server/connection.py:378-392 | a websockets reply is added to its dialogue, `open_connections` and `pending_requests` are unchanged, and the only effects are writes; an unmatched reply raises AttributeError |
| WsChannel.WsSendWithoutTransport | packages/eightballer/connections/websocket_server/connection.py:378-414 | a SEND on an awaited dialogue with no transport raises AttributeError and writes nothing |
| WsChannel.WsSendUnawaited | packages/eightballer/connections/websocket_server/connection.py:378-411 | a SEND on a dialogue nobody awaits writes nothing and puts exactly one DISCONNECT in the inbox |
| WsChannel.ChannelSend | packages/eightballer/connections/websocket_server/connection.py:365-392 | without a server `send` raises ValueError; HTTP and websockets replies go to their branches; any other protocol raises ValueError |
| WsChannel.ConnectChannel | packages/eightballer/connections/websocket_server/connection.py:104-134 | `connect` acts only on a stopped channel: an empty inbox, cleared `pending_requests`, kept `open_connections`, and stopped again with no inbox if the server fails to start |
| WsChannel.DisconnectChannel | packages/eightballer/connections/websocket_server/connection.py:424-437 | `disconnect` raises ValueError without a server, stops a running channel and drops its inbox, leaves a stopped one alone, and keeps both tables |
| WsServerConnection.ConnectionSend | packages/eightballer/connections/websocket_server/connection.py:494-505 | the facade raises when disconnected, raises AttributeError for an HTTP reply, forwards only websockets replies to the channel, and keeps `open_connections` |
| WsServerConnection.SendsNeverResolveFutures | packages/eightballer/connections/websocket_server/connection.py:494-505 | whatever the agent sends through the facade, `open_connections` is unchanged and no future is ever resolved |
| WsServerConnection.ConnectionReceive | packages/eightballer/connections/websocket_server/connection.py:507-523 | `receive` raises when disconnected, otherwise returns and removes the head of the inbox, or `None` when there is none |
| WsServerConnection.ReceiveInOrder | packages/eightballer/connections/websocket_server/connection.py:507-523 | the agent receives the inbox items in the order they were put |
| WsChannelRuns.RunKeepsInv | packages/eightballer/connections/websocket_server/connection.py:98-115 | every run of channel events preserves the channel invariant |
| WsChannelRuns.ReachableInv | packages/eightballer/connections/websocket_server/connection.py:98-115 | every channel reachable from the constructed one satisfies the invariant |
| WsChannelRuns.FrameItemsShape | packages/eightballer/connections/websocket_server/connection.py:176-183 | each received frame adds one SEND to the dialogue and a SEND then `None` to the inbox, in frame order |
| WsChannelRuns.HandleHttpRequest | packages/eightballer/connections/websocket_server/connection.py:136-205 | a whole HTTP leg leaves the request id out of both tables, a dialogue of CONNECT, CONNECTION_ACK, one SEND per frame and DISCONNECT, and all of it in the inbox in order |
| WsChannelRuns.LegComplete | packages/eightballer/connections/websocket_server/connection.py:165-205 | the accepting part, the wait loop and the closing part of the leg compose into the whole leg's outcome |
| WsChannelRuns.LegDialogue | packages/eightballer/connections/websocket_server/connection.py:173-187 | the leg's dialogue is CONNECT, CONNECTION_ACK, the frames' SENDs, then DISCONNECT |
| WsChannelRuns.PollFrames | packages/eightballer/connections/websocket_server/connection.py:176-183 | the wait loop keeps the tables and adds exactly the frames' SENDs to the dialogue and inbox |
| WsChannelRuns.PollStep | packages/eightballer/connections/websocket_server/connection.py:176-183 | one pass of the wait loop adds its frame's SEND and nothing else |
| WsChannelRuns.NoneSidOverwritten | packages/eightballer/connections/websocket_server/connection.py:258-293 | a second HTTP leg overwrites the first leg's dialogue under the `None` sid, leaving it reachable only as pending under its request id |
| WsChannelRuns.HttpReplyAbortsLeg | packages/eightballer/connections/websocket_server/connection.py:176-205 | an HTTP reply through the channel resolves the future, after which the leg's next pass raises NotImplementedError with the dialogue still pending |
| WsChannelRuns.ReconnectForgetsPending | packages/eightballer/connections/websocket_server/connection.py:104-134 | after a reconnect a SEND on an earlier session's dialogue is not delivered and becomes a DISCONNECT for the agent |
| WsChannelRuns.CatchAllDialogueCannotBeAnswered | packages/eightballer/connections/websocket_server/connection.py:316-331 | the agent's SEND reply on a dialogue the catch-all handler opened raises AttributeError and writes nothing |
| WsChannelRuns.ConnectThenDisconnect | packages/eightballer/connections/websocket_server/tests/test_ws_server.py:150-154 | connecting a fresh channel starts it with an empty inbox, and disconnecting stops it |
| Strings.LStrip | packages/victorpolisetty/customs/idriss_token_finder_ui/handlers.py:64 | stripping leading characters leaves a suffix that does not start with the character, and removes only that character |
| Strings.RStrip | packages/victorpolisetty/customs/idriss_token_finder_ui/handlers.py:50 | stripping trailing characters leaves a prefix that does not end with the character, and removes only that character |
| ApiHandlers.TrailingSlashIgnored | packages/victorpolisetty/customs/idriss_token_finder_ui/handlers.py:50 | a trailing slash does not change the handler a request reaches |
| ApiHandlers.LeadingSlashIgnored | packages/victorpolisetty/customs/idriss_token_finder_ui/handlers.py:64 | a leading slash does not change the handler name |
| ApiHandlers.MethodCaseIgnored | packages/victorpolisetty/customs/idriss_token_finder_ui/handlers.py:43 | methods that differ only in ASCII case reach the same handler |
| ApiHandlers.NameFor | packages/victorpolisetty/customs/idriss_token_finder_ui/handlers.py:64 | the name of a path with one leading slash is "handle_", the method, "_" and the rest of the path with slashes turned into underscores |
| ApiHandlers.AnalyzeRoute | packages/victorpolisetty/customs/idriss_token_finder_ui/handlers.py:62-71 | "post /api/analyze" names `handle_post_api_analyze`, a handler the class defines |
| ApiHandlers.AnalyzeRouteNormalised | packages/victorpolisetty/customs/idriss_token_finder_ui/handlers.py:43-50 | "POST /api/analyze/" names the same handler as "post /api/analyze" |
| ApiHandlers.NamesCollide | packages/victorpolisetty/customs/idriss_token_finder_ui/handlers.py:64 | a path with an underscore where another has a slash names the same handler |
| ApiHandlers.CallNameAndKwargs | packages/victorpolisetty/customs/idriss_token_finder_ui/handlers.py:62-67 | the naming method takes exactly three arguments and raises TypeError otherwise or for a non-string path; a bytes method names no handler; the body is passed, whatever its type, exactly for the string methods post, put and patch |
| ApiHandlers.HandleAsWritten | packages/victorpolisetty/customs/idriss_token_finder_ui/handlers.py:41-60 | as written, `handle` raises TypeError on every request |
| ApiHandlers.IntendedHandlerName | packages/victorpolisetty/customs/idriss_token_finder_ui/handlers.py:64 | the corrected name has the same length and prefix as the name as written, and no slash or hyphen after the prefix |
| ApiHandlers.IntendedAgreesWithoutHyphen | packages/victorpolisetty/customs/idriss_token_finder_ui/handlers.py:64 | the corrected name equals the name as written for every path without a hyphen |
| ApiHandlers.Handle | packages/victorpolisetty/customs/idriss_token_finder_ui/handlers.py:41-60 | with the arity fixed, a request only ever reaches a defined handler, with the body exactly for post, put and patch; for a path without hyphens it reaches the same handler as the naming as written, so this fix is independent of the hyphen one |
| ApiHandlers.HyphenNeverRouted | packages/victorpolisetty/customs/idriss_token_finder_ui/handlers.py:54-64 | as written, a path with a hyphen never names a defined handler |
| ApiHandlers.HyphenInPath | packages/victorpolisetty/customs/idriss_token_finder_ui/handlers.py:54-64 | the same for a path with one leading slash and no trailing one |
| ApiHandlers.TransactionPayloadMissed | packages/victorpolisetty/customs/idriss_token_finder_ui/handlers.py:153-154 | as written, "post /api/transaction-payload" names "handle_post_api_transaction-payload", which the class does not define |
| ApiHandlers.IntendedNameFor | packages/victorpolisetty/customs/idriss_token_finder_ui/handlers.py:64 | the corrected name of a path turns both its slashes and its hyphens into underscores |
| ApiHandlers.TransactionPayloadReached | packages/victorpolisetty/customs/idriss_token_finder_ui/handlers.py:153-154 | with the corrected naming, "POST /api/transaction-payload" reaches `handle_post_api_transaction_payload` with the body |
| ApiHandlers.AnalyzeReached | packages/victorpolisetty/customs/idriss_token_finder_ui/handlers.py:71-72 | with the corrected naming, "POST /api/analyze" still reaches `handle_post_api_analyze` with the body |
| ApiHandlers.NotificationsReached | packages/victorpolisetty/customs/idriss_token_finder_ui/handlers.py:170-171 | with the corrected naming, "POST /api/notifications" reaches `handle_post_api_notifications` with the body |
| ApiHandlers.AnalyzePrecheck | packages/victorpolisetty/customs/idriss_token_finder_ui/handlers.py:75-150 | the search runs exactly for an object with a truthy query, with `max_results` defaulting to 25 and `page` to 0; an undecodable body is a 400 carrying the decoder's message; a non-object is a 500 |
| ApiHandlers.BadRequestIff | packages/victorpolisetty/customs/idriss_token_finder_ui/handlers.py:77-83 | a 400 is returned exactly when the body does not decode or the query is missing or falsy |
| ApiHandlers.AnalyzeExamples | packages/victorpolisetty/customs/idriss_token_finder_ui/handlers.py:77-93 | an empty or missing query is rejected with the fixed message; a bare query gets the defaults; explicit paging is passed through; a list body is a 500 |
| CreditScoreRounds.Next | packages/victorpolisetty/skills/credit_score_aggregation_abci/rounds.py:119-134 | the table has no entry exactly in the final round; DONE moves one round forward, NO_MAJORITY and ROUND_TIMEOUT stay put |
| CreditScoreRounds.InitialStatesExact | packages/victorpolisetty/skills/credit_score_aggregation_abci/rounds.py:115-118 | HelloRound is the initial round and the only initial state, and it is not final |
| CreditScoreRounds.FinalIffNoTransitions | packages/victorpolisetty/skills/credit_score_aggregation_abci/rounds.py:119-134 | the final states are exactly the rounds with an empty row; every other round has an entry for each of the three events |
| CreditScoreRounds.TableClosed | packages/victorpolisetty/skills/credit_score_aggregation_abci/rounds.py:119-131 | every round the table leads to has a row of its own |
| CreditScoreRounds.ConfigurationEmpty | packages/victorpolisetty/skills/credit_score_aggregation_abci/rounds.py:135-142 | no timeouts, no persisted keys, and empty database conditions on entry to the initial round and exit from the final one |
| CreditScoreRounds.RunFrom | packages/victorpolisetty/skills/credit_score_aggregation_abci/rounds.py:119-131 | a run never moves the application backwards |
| CreditScoreRounds.RunRank | packages/victorpolisetty/skills/credit_score_aggregation_abci/rounds.py:119-131 | a run moves forward one round per DONE, up to the final round |
| CreditScoreRounds.FinishedIffTwoDones | packages/victorpolisetty/skills/credit_score_aggregation_abci/rounds.py:119-134 | from HelloRound, a run ends finished exactly when it contains at least two DONEs |
| CreditScoreRounds.FinishesAtSecondDone | packages/victorpolisetty/skills/credit_score_aggregation_abci/rounds.py:119-134 | the application finishes exactly at the second DONE, whatever comes before it |
| CreditScoreRounds.CollectionKey | packages/victorpolisetty/skills/credit_score_aggregation_abci/rounds.py:84-108 | the two collecting rounds have a collection key and the finished round has none |
| CreditScoreRounds.SelectionKey | packages/victorpolisetty/skills/credit_score_aggregation_abci/rounds.py:84-108 | the two collecting rounds have a selection key and the finished round has none |
| CreditScoreRounds.AccessorsAliased | packages/victorpolisetty/skills/credit_score_aggregation_abci/rounds.py:63-81 | the score properties read the hello properties' keys, not the keys their own names say |
| CreditScoreRounds.ScoreRoundKeysSwapped | packages/victorpolisetty/skills/credit_score_aggregation_abci/rounds.py:84-105 | the hello round stores its collection under the participants property's name, while the score round stores its collection under the score data property's name |
| CreditScoreRounds.ScoreRoundInvisible | packages/victorpolisetty/skills/credit_score_aggregation_abci/rounds.py:63-105 | whatever the score round stores, the score properties still read what the hello round stored |

## Left out

- The aiohttp server, Socket.IO, TLS and the TCP site are left out because they are transport. `connect` receives how the server start ended as a parameter.
- The response timeout and the wall clock are left out. The HTTP leg's wait loop takes the sequence of frames its passes receive within the timeout.
- `asyncio` futures, queues and cancellation are left out. A future is an entry of `open_connections`, and its resolution is an effect in the channel's log.
- The framework's dialogue machinery (label creation, `reply`, `update`) is not part of this model. Labels are counters standing in for random nonces. A reply gets the next message id and targets the last message.
- Request ids and websockets dialogue labels are both dialogue labels (connection.py:90). They differ only through their random nonces, and the `Key` type takes them never to be equal.
  - The channel does not check that a reply is valid for the dialogue. The reply table is modelled on its own.
  - The channel never drops dialogues from its dialogue table.
- `HttpRequest.create`, the API spec check and the HTTP dialogues are not part of this model. A request is its id plus a validity flag. An HTTP reply names the request id its dialogue is matched to, or none.
- The base channel's `get_message` is not part of this model. `receive` takes the head of the inbox. A wait on an empty inbox ends as a cancelled wait and returns `None`.
- `WsServerConnection.ConnectionReceive`: `get_message` is not part of this model, so a missing inbox is assumed to behave like an empty one: a cancelled wait that returns `None`.
- `WsServerConnection.ConnectionSend`: the base connection class is not part of this model. It is assumed not to define `_dialogues`, which only the channel sets, so an HTTP reply raises AttributeError.
- Logging is left out, and so is the message rendering that follows the reason prefix of the synthesised DISCONNECT.
- The first of the two pops in the Socket.IO disconnect handler (connection.py:346) is left out. `close_session` has already removed the session id, so that pop never finds anything.
- `WsChannel.SendToClient`: its contract states only frame conditions. The case-by-case behaviour is stated by `WsChannel.SendToClientCases`.
- `WsChannel.WsSend`: its contract does not give the outcome of each case. `WsChannel.WsSendWithoutTransport` and `WsChannel.WsSendUnawaited` state the cases the quirks rely on.
- `ApiHandlers.HandlerName` and `ApiHandlers.Route` have no contract of their own. Their properties are lemmas: `NameFor`, `TrailingSlashIgnored`, `LeadingSlashIgnored`, `MethodCaseIgnored` and `NamesCollide`.
- Protobuf's setters are modelled only for the content values the model has: strings, bytes, bools, integers and error codes. Other Python objects a setter might convert are not modelled.
- Protobuf bytes and the generated protobuf classes are left out. The codec works on abstract records. The custom `ErrorCode` is kept abstract as its integer value, with its encode and decode assumed mutually inverse.
- The encoder's branch for an unknown performative (serialization.py:96-97) cannot be reached. The performative type has only the seven cases.
- The handler's `urlparse`/`unquote` of the URL is left out. The path is given already parsed.
- `Strings.AsciiLower`: lower-cases ASCII letters only, where Python's `lower` covers all of Unicode.
- The Searchcaster request and the reshaping of its response (handlers.py:85-130) are left out because they are network calls. The model stops at the search parameters.
- The transaction-payload and notifications handlers themselves only raise NotImplementedError, so only their reachability is modelled.
- `ApiHandlers.Truthy`: JSON numbers are integers only, so float truthiness is not modelled.
- The behaviour of the framework's collect-same-until-threshold round is not part of this model: payloads, thresholds and majority. `CreditScoreRounds.Commit` states what such a round stores once it is done. `get_name` is taken to return the property's own name.
- The behaviours, models and composition modules and `http_pb2.py` are left out because they are framework glue, configuration loading and generated code.

## Findings

| source | as written | input that shows it | evidently intended | confidence | as-written member | corrected member |
|---|---|---|---|---|---|---|
| packages/victorpolisetty/customs/idriss_token_finder_ui/handlers.py:52 | `handle` passes four arguments (method, normalised path, raw path, body) to `get_handler_name_and_kwargs`, which takes three | any request, e.g. POST /api/analyze | pass the method, the normalised path and the body, then dispatch on the name | not executed | ApiHandlers.HandleAsWritten | ApiHandlers.Handle |
| packages/victorpolisetty/customs/idriss_token_finder_ui/handlers.py:64 | the name keeps hyphens of the path, so POST /api/transaction-payload names `handle_post_api_transaction-payload` | POST /api/transaction-payload | the request reaches `handle_post_api_transaction_payload`, whose docstring says it handles that path | not executed | ApiHandlers.TransactionPayloadMissed | ApiHandlers.TransactionPayloadReached |
