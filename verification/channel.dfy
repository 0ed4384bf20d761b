/** The websocket server channel as a sequential state machine. Every socket
    handler, the initial HTTP leg and the outbound dispatch are step functions
    over an immutable channel record; a Python exception becomes a `Raised`
    step that still carries the state reached when it was raised. */
module WsChannel {
  import opened Wrappers
  import opened WsMessage
  import Strings
  import WsDialogues

  /** Seconds the initial HTTP leg keeps reading frames (RESPONSE_TIMEOUT). */
  const ResponseTimeout: nat := 6

  const ChannelNotConnected: string := "Channel not connected!"
  const ServerNotConnected: string := "Server not connected, call connect first!"
  const UnsupportedProtocol: string := "Unsupported protocol specification id"
  /** The reason carried by the DISCONNECT synthesised when a SEND cannot be
      delivered (the rendering of the message that follows it is left out). */
  const LocateFailureReason: string := "Could not locate http dialogue for message="

  /** Socket.IO events the catch-all handler leaves alone. */
  const ReservedEvents: set<string> := {"connect", "disconnect", "agent"}

  /** The id of an HTTP request: the incomplete label of its HTTP dialogue. */
  datatype RequestId = RequestId(starterReference: string, responderReference: string)

  /** A websockets dialogue, by its place in the dialogue table. */
  type Label = nat

  /** Keys of the two correlation tables: HTTP request ids, Socket.IO session
      ids, the `None` the HTTP path uses as its sid, and websockets dialogue
      labels. A request id is itself a dialogue label (of an HTTP dialogue),
      so it is only the random nonces in their references that keep request
      ids and websockets labels apart; the model takes them to be distinct. */
  datatype Key =
    | RequestKey(request: RequestId)
    | SidKey(sid: string)
    | NoSid
    | DialogueKey(lbl: Label)

  /** Where a dialogue's frames are written: the websocket of an HTTP upgrade,
      or the Socket.IO server, whose `emit` reaches every client. */
  datatype Transport = WebSocket(id: nat) | SocketIoServer

  /** A value of `open_connections`: the future of an initial HTTP leg, or a
      websockets dialogue. A future is popped from the table before it is
      resolved, so a future still in the table is never done. */
  datatype Entry = FutureEntry(ws: Transport) | DialogueEntry(lbl: Label)

  datatype Dialogue = Dialogue(reference: (string, string), history: seq<Message>, ws: Option<Transport>)

  /** The HTTP reply the agent sends for an initial leg. */
  datatype HttpResponse = HttpResponse(statusCode: int, body: string)

  /** An item of the agent's inbox. `NullIn` is the `None` the HTTP wait loop
      puts after each frame. */
  datatype Inbound = HttpRequestIn(request: RequestId) | WsIn(lbl: Label, message: Message) | NullIn

  /** Observable effects on the transports and futures. */
  datatype IoEvent =
    | Wrote(to: Transport, data: Value)
    | Closed(transport: Transport)
    | Resolved(request: RequestId, response: HttpResponse)

  /** How starting the aiohttp server ends: it runs, or it fails before or
      after the TCP site is stored. */
  datatype StartOutcome = Started | FailedBeforeSite | FailedAtSiteStart

  datatype Error =
    | ValueError(reason: string)
    | KeyError
    | AttributeError
    | EnforceError(field: string)
    | NotImplementedError
    | ConnectionError
    | TypeError

  /** An envelope the agent sends. `HttpOut.request` is the request id the HTTP
      dialogues match the reply to (`None` if they match none); `WsOut.lbl`
      is the websockets dialogue the reply belongs to. */
  datatype Outbound =
    | HttpOut(request: Option<RequestId>, response: HttpResponse)
    | WsOut(lbl: Label, message: Message)
    | OtherOut(protocol: string)

  datatype Channel = Channel(
    isStopped: bool,
    inQueue: Option<seq<Inbound>>,
    openConnections: map<Key, Entry>,
    pendingRequests: map<Key, Label>,
    hasServer: bool,
    dialogues: map<Label, Dialogue>,
    nextLabel: Label,
    io: seq<IoEvent>)

  datatype Step<+T> = Returned(ch: Channel, value: T) | Raised(ch: Channel, error: Error)

  /** The channel as constructed: stopped, no inbox, empty tables, no server. */
  function Init(): Channel {
    Channel(true, None, map[], map[], false, map[], 0, [])
  }

  /** Every lbl the tables hold names a dialogue: the model's stand-in for
      the tables holding the dialogue objects themselves. */
  ghost predicate Refs(ch: Channel) {
    && (forall k :: k in ch.openConnections && ch.openConnections[k].DialogueEntry? ==>
          ch.openConnections[k].lbl in ch.dialogues)
    && (forall k :: k in ch.pendingRequests ==> ch.pendingRequests[k] in ch.dialogues)
  }

  /** HTTP request ids hold pending futures; every other key of
      `open_connections` holds a dialogue. */
  predicate EntryFits(k: Key, e: Entry) {
    if k.RequestKey? then e.FutureEntry? else e.DialogueEntry? && !k.DialogueKey?
  }

  /** The invariant every reachable channel keeps. */
  ghost predicate Inv(ch: Channel) {
    && Refs(ch)
    && (ch.isStopped <==> ch.inQueue.None?)
    && (!ch.isStopped ==> ch.hasServer)
    && (forall k :: k in ch.openConnections ==> EntryFits(k, ch.openConnections[k]))
    && (forall k :: k in ch.pendingRequests ==> k.RequestKey? || k.SidKey?)
    && (forall l :: l in ch.dialogues ==> l < ch.nextLabel)
  }

  lemma InitInv()
    ensures Inv(Init())
  {
  }

  /** Rewriting an existing dialogue keeps the invariant. */
  lemma RewriteKeepsInv(ch: Channel, lbl: Label, d: Dialogue)
    requires Inv(ch) && lbl in ch.dialogues
    ensures Inv(ch.(dialogues := ch.dialogues[lbl := d]))
  {
  }

  /** `ch'` is `ch` with `items` appended to its inbox. */
  predicate Appended(ch: Channel, ch': Channel, items: seq<Inbound>) {
    ch.inQueue.Some? && ch'.inQueue == Some(ch.inQueue.value + items)
  }

  /** `io'` extends `io` with writes to transports and nothing else. */
  predicate OnlyWrites(io: seq<IoEvent>, io': seq<IoEvent>) {
    io <= io' && forall i :: |io| <= i < |io'| ==> io'[i].Wrote?
  }

  /** The performatives of a dialogue history. */
  function Performatives(h: seq<Message>): (ps: seq<Performative>)
    ensures |ps| == |h|
    ensures forall i :: 0 <= i < |h| ==> ps[i] == h[i].performative
  {
    if |h| == 0 then [] else [h[0].performative] + Performatives(h[1..])
  }

  /** `send_msg_to_agent`: puts one item in the inbox; with no inbox (`None`)
      the `put` raises AttributeError. */
  function Put(ch: Channel, item: Inbound): (r: Step<()>)
    ensures r.Returned? <==> ch.inQueue.Some?
    ensures r.Returned? ==> Appended(ch, r.ch, [item]) && r.ch == ch.(inQueue := r.ch.inQueue)
    ensures r.Raised? ==> r.ch == ch && r.error == AttributeError
  {
    if ch.inQueue.None? then Raised(ch, AttributeError)
    else Returned(ch.(inQueue := Some(ch.inQueue.value + [item])), ())
  }

  /** The next message of a dialogue: id one past its last, targeting the last. */
  function NextMessage(d: Dialogue, p: Performative, contents: map<string, Value>): (m: Message)
    ensures HeaderRule(m)
    ensures m.performative == p && m.contents == contents
  {
    Message(d.reference, |d.history| + 1, |d.history|, p, contents)
  }

  /** `dialogue.reply(...)`: appends the reply to the dialogue's history. */
  function Reply(ch: Channel, lbl: Label, p: Performative, contents: map<string, Value>): (r: (Channel, Message))
    requires lbl in ch.dialogues
    ensures r.1 == NextMessage(ch.dialogues[lbl], p, contents)
    ensures r.0.dialogues.Keys == ch.dialogues.Keys
    ensures r.0.dialogues[lbl].history == ch.dialogues[lbl].history + [r.1]
    ensures r.0 == ch.(dialogues := r.0.dialogues)
    ensures forall l :: l in ch.dialogues && l != lbl ==> r.0.dialogues[l] == ch.dialogues[l]
  {
    var d := ch.dialogues[lbl];
    var m := NextMessage(d, p, contents);
    (ch.(dialogues := ch.dialogues[lbl := d.(history := d.history + [m])]), m)
  }

  /** The dialogue table after `m` is added to dialogue `lbl`. */
  function Extended(ds: map<Label, Dialogue>, lbl: Label, m: Message): map<Label, Dialogue>
    requires lbl in ds
  {
    ds[lbl := ds[lbl].(history := ds[lbl].history + [m])]
  }

  /** The CONNECT that opens a new dialogue. */
  function ConnectMessage(reference: (string, string), url: string): Message {
    Message(reference, 1, 0, Connect, map["url" := VStr(url)])
  }

  /** The dialogue `_handle_new_client` creates: a CONNECT to `url` answered by
      a successful CONNECTION_ACK, written to through `ws`. */
  predicate FreshDialogue(ch: Channel, lbl: Label, url: string, ws: Option<Transport>) {
    && lbl in ch.dialogues
    && var d := ch.dialogues[lbl];
    && d.ws == ws
    && d.history == [ConnectMessage(d.reference, url), Message(d.reference, 2, 1, ConnectionAck, map["success" := VBool(true)])]
  }

  /** `_handle_new_client`: creates a websockets dialogue with CONNECT, answers
      it with CONNECTION_ACK, stores it under `sid` in `open_connections` and
      under `session` in `pending_requests`, and puts the CONNECT in the inbox. */
  function NewClient(ch: Channel, session: Key, sid: Key, url: string, ws: Option<Transport>)
    : (r: Step<(Message, Label)>)
    requires Refs(ch)
    ensures Refs(r.ch)
    ensures Inv(ch) && (session.RequestKey? || session.SidKey?) && (sid.SidKey? || sid.NoSid?) ==> Inv(r.ch)
    ensures Inv(ch) ==> ch.nextLabel !in ch.dialogues
    ensures FreshDialogue(r.ch, ch.nextLabel, url, ws)
    ensures r.ch.dialogues == ch.dialogues[ch.nextLabel := r.ch.dialogues[ch.nextLabel]]
    ensures r.ch == ch.(dialogues := r.ch.dialogues, nextLabel := ch.nextLabel + 1,
                        openConnections := ch.openConnections[sid := DialogueEntry(ch.nextLabel)],
                        pendingRequests := ch.pendingRequests[session := ch.nextLabel],
                        inQueue := r.ch.inQueue)
    ensures r.Returned? <==> ch.inQueue.Some?
    ensures r.Returned? ==>
      && r.value == (r.ch.dialogues[ch.nextLabel].history[0], ch.nextLabel)
      && Appended(ch, r.ch, [WsIn(ch.nextLabel, r.value.0)])
    ensures r.Raised? ==> r.error == AttributeError && r.ch.inQueue == ch.inQueue
  {
    var lbl := ch.nextLabel;
    var reference := (Strings.NatToString(lbl), "");
    var connect := ConnectMessage(reference, url);
    var ack := NextMessage(Dialogue(reference, [connect], ws), ConnectionAck, map["success" := VBool(true)]);
    var ch1 := ch.(dialogues := ch.dialogues[lbl := Dialogue(reference, [connect, ack], ws)],
                   nextLabel := lbl + 1,
                   openConnections := ch.openConnections[sid := DialogueEntry(lbl)],
                   pendingRequests := ch.pendingRequests[session := lbl]);
    var s := Put(ch1, WsIn(lbl, connect));
    if s.Returned? then Returned(s.ch, (connect, lbl)) else Raised(s.ch, s.error)
  }

  /** The dialogue `_handle_new_client` creates is a legal websockets exchange
      whose two messages are both consistent. */
  lemma FreshDialogueLegal(ch: Channel, lbl: Label, url: string, ws: Option<Transport>)
    requires FreshDialogue(ch, lbl, url, ws)
    ensures Performatives(ch.dialogues[lbl].history) == [Connect, ConnectionAck]
    ensures WsDialogues.IsLegalChain(Performatives(ch.dialogues[lbl].history))
    ensures IsConsistent(ch.dialogues[lbl].history[0]) && IsConsistent(ch.dialogues[lbl].history[1])
  {
    var h := ch.dialogues[lbl].history;
    assert Performatives(h) == [Connect, ConnectionAck];
    assert ExpectedContentCount(h[0].performative, h[0].contents) == 1;
    assert ExpectedContentCount(h[1].performative, h[1].contents) == 1;
  }

  /** `_handle_existing_client`: answers the dialogue pending under `key` with
      a SEND carrying the frame data; KeyError if nothing is pending there. */
  function ExistingClient(ch: Channel, key: Key, data: Value): (r: Step<(Message, Label)>)
    requires Refs(ch)
    ensures Refs(r.ch)
    ensures r.Returned? <==> key in ch.pendingRequests
    ensures r.Raised? ==> r.ch == ch && r.error == KeyError
    ensures r.Returned? ==>
      var lbl := ch.pendingRequests[key];
      && r.value == (NextMessage(ch.dialogues[lbl], Send, map["data" := data]), lbl)
      && r.ch == Reply(ch, lbl, Send, map["data" := data]).0
  {
    if key !in ch.pendingRequests then Raised(ch, KeyError)
    else
      var lbl := ch.pendingRequests[key];
      var (ch1, msg) := Reply(ch, lbl, Send, map["data" := data]);
      Returned(ch1, (msg, lbl))
  }

  /** `_inbound_wss_handler` followed by the wait loop's own `put`: a frame on
      the initial HTTP leg becomes a SEND on the request's dialogue, and the
      handler's return value `None` is put in the inbox after it. */
  function InboundFrame(ch: Channel, request: RequestId, data: Value): (r: Step<()>)
    requires Refs(ch)
    ensures Refs(r.ch)
    ensures Inv(ch) ==> Inv(r.ch)
    ensures r.ch.openConnections == ch.openConnections && r.ch.pendingRequests == ch.pendingRequests
    ensures r.ch.io == ch.io && r.ch.nextLabel == ch.nextLabel && r.ch.dialogues.Keys == ch.dialogues.Keys
    ensures ch.inQueue.None? ==> r == Raised(ch, ValueError(ChannelNotConnected))
    ensures ch.inQueue.Some? && RequestKey(request) !in ch.pendingRequests ==> r == Raised(ch, KeyError)
    ensures r.Returned? <==> ch.inQueue.Some? && RequestKey(request) in ch.pendingRequests
    ensures r.Returned? ==>
      var lbl := ch.pendingRequests[RequestKey(request)];
      var msg := NextMessage(ch.dialogues[lbl], Send, map["data" := data]);
      && Appended(ch, r.ch, [WsIn(lbl, msg), NullIn])
      && r.ch.dialogues == Extended(ch.dialogues, lbl, msg)
      && (IsConsistent(msg) <==> data.VStr?)
  {
    if ch.inQueue.None? then Raised(ch, ValueError(ChannelNotConnected))
    else
      var s1 := ExistingClient(ch, RequestKey(request), data);
      if s1.Raised? then Raised(s1.ch, s1.error)
      else
        var s2 := Put(s1.ch, WsIn(s1.value.1, s1.value.0));
        var r := Put(s2.ch, NullIn);
        assert r.ch.inQueue.value == ch.inQueue.value + [WsIn(s1.value.1, s1.value.0), NullIn];
        r
  }

  /** `close_session`: closes the transport (an AttributeError from `close` is
      ignored), always drops `key` from `pending_requests`, and only when a
      dialogue was pending there answers it with DISCONNECT, drops `key` from
      `open_connections` and puts the DISCONNECT in the inbox. */
  function CloseSession(ch: Channel, key: Key, ws: Transport, closeOk: bool): (r: Step<()>)
    requires Refs(ch)
    ensures Refs(r.ch)
    ensures Inv(ch) ==> Inv(r.ch)
    ensures r.ch.pendingRequests == ch.pendingRequests - {key}
    ensures r.ch.io == if closeOk then ch.io + [Closed(ws)] else ch.io
    ensures r.ch.nextLabel == ch.nextLabel && r.ch.dialogues.Keys == ch.dialogues.Keys
    ensures r.ch.isStopped == ch.isStopped && r.ch.hasServer == ch.hasServer
    ensures key !in ch.pendingRequests ==>
      && r.Returned? && r.ch.openConnections == ch.openConnections && r.ch.inQueue == ch.inQueue
      && r.ch.dialogues == ch.dialogues
    ensures key in ch.pendingRequests ==>
      var lbl := ch.pendingRequests[key];
      var msg := NextMessage(ch.dialogues[lbl], Disconnect, map[]);
      && r.ch.openConnections == ch.openConnections - {key}
      && r.ch.dialogues == Extended(ch.dialogues, lbl, msg)
      && IsConsistent(msg)
      && (r.Returned? <==> ch.inQueue.Some?)
      && (r.Returned? ==> Appended(ch, r.ch, [WsIn(lbl, msg)]))
      && (r.Raised? ==> r.error == AttributeError && r.ch.inQueue == ch.inQueue)
  {
    var ch1 := if closeOk then ch.(io := ch.io + [Closed(ws)]) else ch;
    if key !in ch1.pendingRequests then Returned(ch1, ())
    else
      var lbl := ch1.pendingRequests[key];
      var ch2 := ch1.(pendingRequests := ch1.pendingRequests - {key});
      var (ch3, msg) := Reply(ch2, lbl, Disconnect, map[]);
      var ch4 := ch3.(openConnections := ch3.openConnections - {key});
      Put(ch4, WsIn(lbl, msg))
  }

  /** The accepting part of `_http_handler`: with no inbox it raises
      ValueError; for an invalid request it builds the HTTP dialogues class
      with response keywords its constructor does not take, which raises
      TypeError with nothing changed (before the `try`, so it is not turned
      into NotImplementedError); otherwise a future is stored under the request id, the request
      is put in the inbox, and a new client is created for it, stored under
      the `None` sid and pending under the request id. */
  function HttpAccept(ch: Channel, request: RequestId, ws: Transport, valid: bool): (r: Step<Label>)
    requires Refs(ch)
    ensures Refs(r.ch)
    ensures Inv(ch) ==> Inv(r.ch)
    ensures ch.inQueue.None? ==> r == Raised(ch, ValueError(ChannelNotConnected))
    ensures ch.inQueue.Some? && !valid ==> r == Raised(ch, TypeError)
    ensures ch.inQueue.Some? && valid ==>
      var lbl := ch.nextLabel;
      && r.Returned? && r.value == lbl
      && FreshDialogue(r.ch, lbl, request.starterReference, Some(ws))
      && r.ch.openConnections ==
           ch.openConnections[RequestKey(request) := FutureEntry(ws)][NoSid := DialogueEntry(lbl)]
      && r.ch.pendingRequests == ch.pendingRequests[RequestKey(request) := lbl]
      && Appended(ch, r.ch, [HttpRequestIn(request), WsIn(lbl, r.ch.dialogues[lbl].history[0])])
      && r.ch.io == ch.io
  {
    if ch.inQueue.None? then Raised(ch, ValueError(ChannelNotConnected))
    else if !valid then Raised(ch, TypeError)
    else
      var key := RequestKey(request);
      var ch1 := ch.(openConnections := ch.openConnections[key := FutureEntry(ws)]);
      var s2 := Put(ch1, HttpRequestIn(request));
      var s3 := NewClient(s2.ch, key, NoSid, request.starterReference, Some(ws));
      assert s3.ch.inQueue.value == ch.inQueue.value + [HttpRequestIn(request), WsIn(s3.value.1, s3.value.0)];
      Returned(s3.ch, s3.value.1)
  }

  /** One pass of the HTTP leg's wait loop: the lookup of the request's future
      (a KeyError once it is gone), its `done()` check (always false, since a
      future is popped before it is resolved), then the frame the socket
      yields, if any. An exception ends the leg: it is re-raised as
      NotImplementedError after the `finally` drops the request id from
      `open_connections`, and `close_session` is skipped. */
  function HttpPoll(ch: Channel, request: RequestId, frame: Option<Value>): (r: Step<()>)
    requires Refs(ch)
    ensures Refs(r.ch)
    ensures Inv(ch) ==> Inv(r.ch)
    ensures r.ch.pendingRequests == ch.pendingRequests
    ensures RequestKey(request) !in ch.openConnections ==> r == Raised(ch, NotImplementedError)
    ensures r.Raised? ==>
      && r.error == NotImplementedError
      && r.ch.openConnections == ch.openConnections - {RequestKey(request)}
      && r.ch.inQueue == ch.inQueue
    ensures Inv(ch) && RequestKey(request) in ch.openConnections ==>
      && (frame.None? ==> r == Returned(ch, ()))
      && (frame.Some? ==>
            && (r.Returned? <==> ch.inQueue.Some? && RequestKey(request) in ch.pendingRequests)
            && (r.Returned? ==> r == InboundFrame(ch, request, frame.value)))
  {
    var key := RequestKey(request);
    if key !in ch.openConnections then Raised(ch, NotImplementedError)
    else if ch.openConnections[key].DialogueEntry? || frame.None? then
      if ch.openConnections[key].DialogueEntry? then
        Raised(ch.(openConnections := ch.openConnections - {key}), NotImplementedError)
      else Returned(ch, ())
    else
      var s := InboundFrame(ch, request, frame.value);
      if s.Returned? then s
      else Raised(ch.(openConnections := ch.openConnections - {key}), NotImplementedError)
  }

  /** The closing part of `_http_handler`: `close_session` on the request id,
      then the `finally` that drops the request id from `open_connections`;
      an error in between is re-raised as NotImplementedError. The dialogue
      stored under the `None` sid stays. */
  function HttpFinish(ch: Channel, request: RequestId, ws: Transport, closeOk: bool): (r: Step<()>)
    requires Refs(ch)
    ensures Refs(r.ch)
    ensures Inv(ch) ==> Inv(r.ch)
    ensures r.ch.openConnections == ch.openConnections - {RequestKey(request)}
    ensures r.ch.pendingRequests == ch.pendingRequests - {RequestKey(request)}
    ensures r.Raised? ==> r.error == NotImplementedError
    ensures ch.inQueue.Some? || RequestKey(request) !in ch.pendingRequests ==> r.Returned?
    ensures RequestKey(request) in ch.pendingRequests ==>
      var lbl := ch.pendingRequests[RequestKey(request)];
      var msg := NextMessage(ch.dialogues[lbl], Disconnect, map[]);
      && r.ch.dialogues == Extended(ch.dialogues, lbl, msg)
      && (ch.inQueue.Some? ==> Appended(ch, r.ch, [WsIn(lbl, msg)]))
    ensures RequestKey(request) !in ch.pendingRequests ==> r.ch.inQueue == ch.inQueue && r.ch.dialogues == ch.dialogues
  {
    var key := RequestKey(request);
    var s := CloseSession(ch, key, ws, closeOk);
    var ch1 := s.ch.(openConnections := s.ch.openConnections - {key});
    if s.Returned? then Returned(ch1, ()) else Raised(ch1, NotImplementedError)
  }

  /** The Socket.IO `connect` handler: a new client under the session id,
      whose CONNECT is put in the inbox twice (once by `_handle_new_client`,
      once by the handler). A missing PATH_INFO raises KeyError. */
  function SioConnect(ch: Channel, sid: string, pathInfo: Option<string>): (r: Step<()>)
    requires Refs(ch)
    ensures Refs(r.ch)
    ensures Inv(ch) ==> Inv(r.ch)
    ensures pathInfo.None? ==> r == Raised(ch, KeyError)
    ensures pathInfo.Some? ==> (r.Returned? <==> ch.inQueue.Some?)
    ensures pathInfo.Some? && ch.inQueue.Some? ==>
      var lbl := ch.nextLabel;
      && FreshDialogue(r.ch, lbl, pathInfo.value, Some(SocketIoServer))
      && r.ch.openConnections == ch.openConnections[SidKey(sid) := DialogueEntry(lbl)]
      && r.ch.pendingRequests == ch.pendingRequests[SidKey(sid) := lbl]
      && Appended(ch, r.ch, [WsIn(lbl, r.ch.dialogues[lbl].history[0]), WsIn(lbl, r.ch.dialogues[lbl].history[0])])
  {
    if pathInfo.None? then Raised(ch, KeyError)
    else
      var s1 := NewClient(ch, SidKey(sid), SidKey(sid), pathInfo.value, Some(SocketIoServer));
      if s1.Raised? then Raised(s1.ch, s1.error)
      else
        var r := Put(s1.ch, WsIn(s1.value.1, s1.value.0));
        assert r.ch.inQueue.value == ch.inQueue.value + [WsIn(s1.value.1, s1.value.0), WsIn(s1.value.1, s1.value.0)];
        r
  }

  /** The Socket.IO `disconnect` handler: `close_session` on the session id
      (an AttributeError from it is swallowed), then the pop of the session id
      from `open_connections`, followed by a second `close_session` when it
      finds something. The handler's pop from `pending_requests` in between
      always finds nothing, because `close_session` already removed the
      session id there, so the model leaves it out. */
  function SioDisconnect(ch: Channel, sid: string, closeOk: bool): (r: Step<()>)
    requires Refs(ch)
    ensures Refs(r.ch)
    ensures Inv(ch) ==> Inv(r.ch)
    ensures r.Returned?
    ensures r.ch.pendingRequests == ch.pendingRequests - {SidKey(sid)}
    ensures r.ch.openConnections == ch.openConnections - {SidKey(sid)}
  {
    var key := SidKey(sid);
    var ch1 := CloseSession(ch, key, SocketIoServer, closeOk).ch;
    if key in ch1.openConnections then
      CloseSession(ch1.(openConnections := ch1.openConnections - {key}), key, SocketIoServer, closeOk)
    else Returned(ch1, ())
  }

  /** A Socket.IO disconnect sends the agent at most one DISCONNECT: one for
      the session's pending dialogue when there is one and the inbox exists,
      none otherwise. */
  lemma SioDisconnectSendsOneDisconnect(ch: Channel, sid: string, closeOk: bool)
    requires Refs(ch)
    ensures var r := SioDisconnect(ch, sid, closeOk);
      && (SidKey(sid) !in ch.pendingRequests || ch.inQueue.None? ==> r.ch.inQueue == ch.inQueue)
      && (SidKey(sid) in ch.pendingRequests && ch.inQueue.Some? ==>
            var lbl := ch.pendingRequests[SidKey(sid)];
            Appended(ch, r.ch, [WsIn(lbl, NextMessage(ch.dialogues[lbl], Disconnect, map[]))]))
  {
    var key := SidKey(sid);
    var s1 := CloseSession(ch, key, SocketIoServer, closeOk);
    assert key !in s1.ch.pendingRequests;
    if key in s1.ch.openConnections {
      var s2 := CloseSession(s1.ch.(openConnections := s1.ch.openConnections - {key}), key, SocketIoServer, closeOk);
      assert s2.ch.inQueue == s1.ch.inQueue;
    }
  }

  /** Answers dialogue `lbl` with a SEND carrying `data` and puts it in the inbox. */
  function ForwardFrame(ch: Channel, lbl: Label, data: Value): (r: Step<()>)
    requires Refs(ch) && lbl in ch.dialogues
    ensures Refs(r.ch)
    ensures Inv(ch) ==> Inv(r.ch)
    ensures r.ch.openConnections == ch.openConnections && r.ch.pendingRequests == ch.pendingRequests
    ensures r.ch.nextLabel == ch.nextLabel && r.ch.io == ch.io
    ensures r.ch.dialogues.Keys == ch.dialogues.Keys
    ensures r.ch.dialogues[lbl].history == ch.dialogues[lbl].history + [NextMessage(ch.dialogues[lbl], Send, map["data" := data])]
    ensures r.ch.dialogues[lbl].ws == ch.dialogues[lbl].ws
    ensures r.Returned? <==> ch.inQueue.Some?
    ensures r.Returned? ==> Appended(ch, r.ch, [WsIn(lbl, NextMessage(ch.dialogues[lbl], Send, map["data" := data]))])
  {
    var (ch1, msg) := Reply(ch, lbl, Send, map["data" := data]);
    Put(ch1, WsIn(lbl, msg))
  }

  /** The catch-all handler for a session id with no entry in
      `open_connections`: a new client with no transport is created, its
      CONNECT goes into the inbox a second time, and the frame data follows
      as a SEND on the new dialogue. */
  function CatchAllNewSession(ch: Channel, event: string, sid: string, data: Value): (r: Step<()>)
    requires Refs(ch)
    ensures Refs(r.ch)
    ensures Inv(ch) ==> Inv(r.ch)
    ensures ch.inQueue.None? ==> r.Raised? && r.error == AttributeError
    ensures ch.inQueue.Some? ==>
      var lbl := ch.nextLabel;
      && r.Returned?
      && r.ch.openConnections == ch.openConnections[SidKey(sid) := DialogueEntry(lbl)]
      && r.ch.pendingRequests == ch.pendingRequests[SidKey(sid) := lbl]
      && r.ch.io == ch.io
      && lbl in r.ch.dialogues
      && var d := r.ch.dialogues[lbl];
      && d.ws == None
      && Performatives(d.history) == [Connect, ConnectionAck, Send]
      && d.history[0] == ConnectMessage(d.reference, event)
      && d.history[2].contents == map["data" := data]
      && Appended(ch, r.ch, [WsIn(lbl, d.history[0]), WsIn(lbl, d.history[0]), WsIn(lbl, d.history[2])])
  {
    var s1 := NewClient(ch, SidKey(sid), SidKey(sid), event, None);
    if s1.Raised? then Raised(s1.ch, s1.error)
    else
      var lbl := s1.value.1;
      var s2 := Put(s1.ch, WsIn(lbl, s1.value.0));
      var r := ForwardFrame(s2.ch, lbl, data);
      assert Performatives(r.ch.dialogues[lbl].history)
          == Performatives(s2.ch.dialogues[lbl].history) + [Send];
      assert r.ch.inQueue.value == ch.inQueue.value + [WsIn(lbl, s1.value.0), WsIn(lbl, s1.value.0), WsIn(lbl, r.ch.dialogues[lbl].history[2])];
      r
  }

  /** The Socket.IO catch-all handler: ignores the reserved events; a session
      id with no entry gets a new client first; the frame data is then
      forwarded as a SEND on the session's dialogue. An entry holding an HTTP
      future instead of a dialogue has no `update`: AttributeError. */
  function CatchAll(ch: Channel, event: string, sid: string, data: Value): (r: Step<()>)
    requires Refs(ch)
    ensures Refs(r.ch)
    ensures Inv(ch) ==> Inv(r.ch)
    ensures event in ReservedEvents ==> r == Returned(ch, ())
    ensures event !in ReservedEvents && SidKey(sid) !in ch.openConnections ==>
      r == CatchAllNewSession(ch, event, sid, data)
    ensures event !in ReservedEvents && SidKey(sid) in ch.openConnections && ch.inQueue.Some? && Inv(ch) ==>
      var lbl := ch.openConnections[SidKey(sid)].lbl;
      && r.Returned?
      && r.ch.openConnections == ch.openConnections && r.ch.pendingRequests == ch.pendingRequests
      && r.ch.io == ch.io
      && Appended(ch, r.ch, [WsIn(lbl, NextMessage(ch.dialogues[lbl], Send, map["data" := data]))])
  {
    if event in ReservedEvents then Returned(ch, ())
    else
      var key := SidKey(sid);
      if key !in ch.openConnections then CatchAllNewSession(ch, event, sid, data)
      else if ch.openConnections[key].FutureEntry? then Raised(ch, AttributeError)
      else ForwardFrame(ch, ch.openConnections[key].lbl, data)
  }


  /** Answers dialogue `lbl` with a DISCONNECT carrying the locate-failure
      reason and puts it in the inbox. */
  function Disconnected(ch: Channel, lbl: Label): (r: Step<()>)
    requires Refs(ch) && lbl in ch.dialogues
    ensures Refs(r.ch)
    ensures Inv(ch) ==> Inv(r.ch)
    ensures r.ch.openConnections == ch.openConnections && r.ch.pendingRequests == ch.pendingRequests
    ensures r.ch.nextLabel == ch.nextLabel && r.ch.io == ch.io && r.ch.isStopped == ch.isStopped
    ensures r.Returned? <==> ch.inQueue.Some?
    ensures r.Returned? ==> Appended(ch, r.ch,
      [WsIn(lbl, NextMessage(ch.dialogues[lbl], Disconnect, map["reason" := VStr(LocateFailureReason)]))])
  {
    var (ch1, msg) := Reply(ch, lbl, Disconnect, map["reason" := VStr(LocateFailureReason)]);
    Put(ch1, WsIn(lbl, msg))
  }

  /** `send_message_to_client`: a CONNECTION_ACK is not written anywhere; a
      SEND whose dialogue is pending under no key, or whose write is reset,
      becomes a DISCONNECT with a reason put in the inbox; any other SEND is
      written to the dialogue's transport (AttributeError if it has none,
      an enforcement error if the message has no data, TypeError from an
      aiohttp websocket's `send_str` if the data is not a string; the
      Socket.IO server's `send_str` emits any value); every other
      performative is dropped. */
  function SendToClient(ch: Channel, message: Message, lbl: Label, writeOk: bool): (r: Step<()>)
    requires Refs(ch) && lbl in ch.dialogues
    ensures Refs(r.ch)
    ensures Inv(ch) ==> Inv(r.ch)
    ensures r.ch.openConnections == ch.openConnections && r.ch.pendingRequests == ch.pendingRequests
    ensures r.ch.nextLabel == ch.nextLabel && r.ch.isStopped == ch.isStopped
    ensures r.ch.dialogues.Keys == ch.dialogues.Keys
    ensures OnlyWrites(ch.io, r.ch.io)
    ensures ch.dialogues[lbl].history <= r.ch.dialogues[lbl].history
  {
    if message.performative != Send then Returned(ch, ())
    else if lbl !in ch.pendingRequests.Values then Disconnected(ch, lbl)
    else
      var t := ch.dialogues[lbl].ws;
      if t.None? then Raised(ch, AttributeError)
      else if "data" !in message.contents then Raised(ch, EnforceError("data"))
      else if t.value.WebSocket? && !message.contents["data"].VStr? then Raised(ch, TypeError)
      else if writeOk then Returned(ch.(io := ch.io + [Wrote(t.value, message.contents["data"])]), ())
      else Disconnected(ch, lbl)
  }

  /** What `send_message_to_client` does, case by case. */
  lemma SendToClientCases(ch: Channel, message: Message, lbl: Label, writeOk: bool)
    requires Refs(ch) && lbl in ch.dialogues
    ensures var r := SendToClient(ch, message, lbl, writeOk);
      && (message.performative != Send ==> r == Returned(ch, ()))
      && (message.performative == Send ==>
            var disconnect := NextMessage(ch.dialogues[lbl], Disconnect, map["reason" := VStr(LocateFailureReason)]);
            var delivered := lbl in ch.pendingRequests.Values;
            var t := ch.dialogues[lbl].ws;
            var hasData := t.Some? && "data" in message.contents;
            var textOnly := hasData && t.value.WebSocket? && !message.contents["data"].VStr?;
            var sendable := hasData && !textOnly;
            && IsConsistent(disconnect)
            && (delivered && t.None? ==> r == Raised(ch, AttributeError))
            && (delivered && t.Some? && "data" !in message.contents ==> r == Raised(ch, EnforceError("data")))
            && (delivered && textOnly ==> r == Raised(ch, TypeError))
            && (delivered && sendable && writeOk ==>
                  r == Returned(ch.(io := ch.io + [Wrote(t.value, message.contents["data"])]), ()))
            && (!delivered || (sendable && !writeOk) ==>
                  && r.ch.io == ch.io
                  && (r.Returned? <==> ch.inQueue.Some?)
                  && (r.Returned? ==> Appended(ch, r.ch, [WsIn(lbl, disconnect)]))))
  {
    var disconnect := NextMessage(ch.dialogues[lbl], Disconnect, map["reason" := VStr(LocateFailureReason)]);
    assert ExpectedContentCount(Disconnect, disconnect.contents) == 1;
  }

  /** A Socket.IO dialogue's `send_str` emits the data without looking at its
      type: an awaited SEND on it writes its data, string or not. */
  lemma SocketIoEmitsAnyData(ch: Channel, message: Message, lbl: Label)
    requires Refs(ch) && lbl in ch.dialogues && ch.dialogues[lbl].ws == Some(SocketIoServer)
    requires lbl in ch.pendingRequests.Values
    requires message.performative == Send && "data" in message.contents
    ensures SendToClient(ch, message, lbl, true)
      == Returned(ch.(io := ch.io + [Wrote(SocketIoServer, message.contents["data"])]), ())
  {
    SendToClientCases(ch, message, lbl, true);
  }

  /** The HTTP branch of `WebSocketChannel.send`: pops the entry stored under
      the reply's request id and resolves the future found there. A reply its
      HTTP dialogues do not match (`request` is `None`) raises AttributeError. */
  function HttpSend(ch: Channel, request: Option<RequestId>, response: HttpResponse): (r: Step<()>)
    requires Refs(ch)
    ensures Refs(r.ch)
    ensures Inv(ch) ==> Inv(r.ch)
    ensures r.ch.pendingRequests == ch.pendingRequests && r.ch.inQueue == ch.inQueue
    ensures r.ch.dialogues == ch.dialogues
    ensures request.None? ==> r == Raised(ch, AttributeError)
    ensures request.Some? && Inv(ch) ==>
      var key := RequestKey(request.value);
      && r.Returned?
      && r.ch.openConnections == ch.openConnections - {key}
      && r.ch.io == if key in ch.openConnections then ch.io + [Resolved(request.value, response)] else ch.io
  {
    if request.None? then Raised(ch, AttributeError)
    else
      var key := RequestKey(request.value);
      if key !in ch.openConnections then Returned(ch, ())
      else
        var ch1 := ch.(openConnections := ch.openConnections - {key});
        if ch.openConnections[key].DialogueEntry? then Raised(ch1, AttributeError)
        else Returned(ch1.(io := ch1.io + [Resolved(request.value, response)]), ())
  }

  /** The websockets branch of `WebSocketChannel.send`: the reply is added to
      its dialogue; the dialogue's label is then popped from
      `pending_requests` (whose keys are never websockets labels, nonces being
      unique) and the reply is handed to `send_message_to_client`. A reply its dialogues do not match raises
      AttributeError at the pop, before the `dialogue is None` check. */
  function WsSend(ch: Channel, lbl: Label, message: Message, writeOk: bool): (r: Step<()>)
    requires Refs(ch)
    ensures Refs(r.ch)
    ensures Inv(ch) ==> Inv(r.ch)
    ensures r.ch.openConnections == ch.openConnections
    ensures OnlyWrites(ch.io, r.ch.io)
    ensures lbl !in ch.dialogues ==> r == Raised(ch, AttributeError)
    ensures Inv(ch) && lbl in ch.dialogues ==>
      && r.ch.pendingRequests == ch.pendingRequests
      && lbl in r.ch.dialogues
      && ch.dialogues[lbl].history + [message] <= r.ch.dialogues[lbl].history
  {
    if lbl !in ch.dialogues then Raised(ch, AttributeError)
    else
      var d := ch.dialogues[lbl];
      var ch1 := ch.(dialogues := ch.dialogues[lbl := d.(history := d.history + [message])]);
      var key := DialogueKey(lbl);
      var popped := key in ch1.pendingRequests;
      var ch2 := ch1.(pendingRequests := ch1.pendingRequests - {key});
      assert Inv(ch) ==> Inv(ch2) by {
        if Inv(ch) {
          RewriteKeepsInv(ch, lbl, d.(history := d.history + [message]));
          assert ch2 == ch1;
        }
      }
      var s := SendToClient(ch2, message, lbl, writeOk);
      if s.Returned? && popped then Raised(s.ch, AttributeError) else s
  }

  /** A SEND on a dialogue that is still awaited but has no transport (one
      the catch-all handler opened) raises AttributeError without writing. */
  lemma WsSendWithoutTransport(ch: Channel, lbl: Label, message: Message, writeOk: bool)
    requires Inv(ch) && lbl in ch.dialogues && ch.dialogues[lbl].ws.None?
    requires lbl in ch.pendingRequests.Values && message.performative == Send
    ensures var r := WsSend(ch, lbl, message, writeOk);
      r.Raised? && r.error == AttributeError && r.ch.io == ch.io
  {
    var d := ch.dialogues[lbl];
    var ch1 := ch.(dialogues := ch.dialogues[lbl := d.(history := d.history + [message])]);
    RewriteKeepsInv(ch, lbl, d.(history := d.history + [message]));
    assert DialogueKey(lbl) !in ch1.pendingRequests;
    assert ch1.(pendingRequests := ch1.pendingRequests - {DialogueKey(lbl)}) == ch1;
    SendToClientCases(ch1, message, lbl, writeOk);
  }

  /** A SEND on a dialogue nobody awaits any more writes nothing and puts
      one DISCONNECT for the agent in the inbox. */
  lemma WsSendUnawaited(ch: Channel, lbl: Label, message: Message, writeOk: bool)
    requires Inv(ch) && lbl in ch.dialogues && !ch.isStopped
    requires lbl !in ch.pendingRequests.Values && message.performative == Send
    ensures var r := WsSend(ch, lbl, message, writeOk);
      && r.Returned? && r.ch.io == ch.io
      && |r.ch.inQueue.value| == |ch.inQueue.value| + 1
      && r.ch.inQueue.value[|ch.inQueue.value|].WsIn?
      && r.ch.inQueue.value[|ch.inQueue.value|].message.performative == Disconnect
  {
    var d := ch.dialogues[lbl];
    var ch1 := ch.(dialogues := ch.dialogues[lbl := d.(history := d.history + [message])]);
    RewriteKeepsInv(ch, lbl, d.(history := d.history + [message]));
    assert DialogueKey(lbl) !in ch1.pendingRequests;
    assert ch1.(pendingRequests := ch1.pendingRequests - {DialogueKey(lbl)}) == ch1;
    SendToClientCases(ch1, message, lbl, writeOk);
  }

  /** `WebSocketChannel.send`: without a server it raises ValueError; HTTP and
      websockets replies go to their branches; any other protocol raises
      ValueError. */
  function ChannelSend(ch: Channel, out: Outbound, writeOk: bool): (r: Step<()>)
    requires Refs(ch)
    ensures Refs(r.ch)
    ensures Inv(ch) ==> Inv(r.ch)
    ensures !ch.hasServer ==> r == Raised(ch, ValueError(ServerNotConnected))
    ensures ch.hasServer && out.OtherOut? ==> r == Raised(ch, ValueError(UnsupportedProtocol))
    ensures ch.hasServer && out.HttpOut? ==> r == HttpSend(ch, out.request, out.response)
    ensures ch.hasServer && out.WsOut? ==> r == WsSend(ch, out.lbl, out.message, writeOk)
  {
    if !ch.hasServer then Raised(ch, ValueError(ServerNotConnected))
    else
      match out
      case OtherOut(_) => Raised(ch, ValueError(UnsupportedProtocol))
      case HttpOut(request, response) => HttpSend(ch, request, response)
      case WsOut(lbl, message) => WsSend(ch, lbl, message, writeOk)
  }

  /** `connect`: only a stopped channel acts. It opens an empty inbox, clears
      `pending_requests` and starts the server; if starting fails it is
      stopped again with no inbox. `open_connections` is kept. */
  function ConnectChannel(ch: Channel, start: StartOutcome): (r: Channel)
    ensures Refs(ch) ==> Refs(r)
    ensures Inv(ch) ==> Inv(r)
    ensures !ch.isStopped ==> r == ch
    ensures ch.isStopped ==>
      && r.openConnections == ch.openConnections && r.pendingRequests == map[]
      && r.dialogues == ch.dialogues && r.io == ch.io
      && (start.Started? <==> !r.isStopped)
      && (start.Started? ==> r.inQueue == Some([]) && r.hasServer)
      && (!start.Started? ==> r.inQueue.None?)
      && (start.FailedBeforeSite? ==> r.hasServer == ch.hasServer)
      && (start.FailedAtSiteStart? ==> r.hasServer)
  {
    if !ch.isStopped then ch
    else
      var ch1 := ch.(inQueue := Some([]), isStopped := false, pendingRequests := map[]);
      match start
      case Started => ch1.(hasServer := true)
      case FailedBeforeSite => ch1.(isStopped := true, inQueue := None)
      case FailedAtSiteStart => ch1.(isStopped := true, inQueue := None, hasServer := true)
  }

  /** `disconnect`: raises ValueError if no server was ever stored; a running
      channel is marked stopped and drops its inbox; a stopped one is left
      alone. The correlation tables are kept. */
  function DisconnectChannel(ch: Channel): (r: Step<()>)
    ensures Refs(ch) ==> Refs(r.ch)
    ensures Inv(ch) ==> Inv(r.ch)
    ensures !ch.hasServer ==> r == Raised(ch, ValueError(ServerNotConnected))
    ensures ch.hasServer ==> r.Returned? && r.ch.isStopped
    ensures ch.hasServer && !ch.isStopped ==> r.ch.inQueue.None?
    ensures ch.isStopped ==> r.ch == ch
    ensures r.ch.openConnections == ch.openConnections && r.ch.pendingRequests == ch.pendingRequests
  {
    if !ch.hasServer then Raised(ch, ValueError(ServerNotConnected))
    else if !ch.isStopped then Returned(ch.(isStopped := true, inQueue := None), ())
    else Returned(ch, ())
  }
}
