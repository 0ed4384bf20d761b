/** Sequences of channel events: the invariant every reachable channel keeps,
    the whole initial HTTP leg as one loop, and the channel's quirks as
    concrete runs. */
module WsChannelRuns {
  import opened Wrappers
  import opened WsMessage
  import opened WsChannel

  /** One thing that happens to the channel. */
  datatype Event =
    | Start(outcome: StartOutcome)
    | Stop
    | Accept(request: RequestId, ws: Transport, valid: bool)
    | Poll(request: RequestId, frame: Option<Value>)
    | Finish(request: RequestId, ws: Transport, closeOk: bool)
    | SioConnected(sid: string, pathInfo: Option<string>)
    | SioDisconnected(sid: string, closeOk: bool)
    | SioFrame(event: string, sid: string, data: Value)
    | Outgoing(out: Outbound, writeOk: bool)

  /** The channel after one event; an exception keeps the state reached when
      it was raised. */
  function Apply(ch: Channel, e: Event): (r: Channel)
    requires Refs(ch)
    ensures Refs(r)
    ensures Inv(ch) ==> Inv(r)
  {
    match e
    case Start(outcome) => ConnectChannel(ch, outcome)
    case Stop => DisconnectChannel(ch).ch
    case Accept(request, ws, valid) => HttpAccept(ch, request, ws, valid).ch
    case Poll(request, frame) => HttpPoll(ch, request, frame).ch
    case Finish(request, ws, closeOk) => HttpFinish(ch, request, ws, closeOk).ch
    case SioConnected(sid, pathInfo) => SioConnect(ch, sid, pathInfo).ch
    case SioDisconnected(sid, closeOk) => SioDisconnect(ch, sid, closeOk).ch
    case SioFrame(event, sid, data) => CatchAll(ch, event, sid, data).ch
    case Outgoing(out, writeOk) => ChannelSend(ch, out, writeOk).ch
  }

  /** The channel after a run of events. */
  function Run(ch: Channel, events: seq<Event>): (r: Channel)
    requires Refs(ch)
    ensures Refs(r)
    decreases |events|
  {
    if |events| == 0 then ch else Run(Apply(ch, events[0]), events[1..])
  }

  /** Every run keeps the invariant. */
  lemma {:induction false} RunKeepsInv(ch: Channel, events: seq<Event>)
    requires Inv(ch)
    ensures Inv(Run(ch, events))
    decreases |events|
  {
    if |events| > 0 {
      RunKeepsInv(Apply(ch, events[0]), events[1..]);
    }
  }

  /** Every channel reachable from the constructed one satisfies the
      invariant: a running channel has an inbox and a server, request ids hold
      only futures, every other key holds a dialogue, and every label the
      tables hold names a dialogue. */
  lemma ReachableInv(events: seq<Event>)
    ensures Inv(Run(Init(), events))
  {
    InitInv();
    RunKeepsInv(Init(), events);
  }

  /** The dialogue after the HTTP leg's frames: each frame adds a SEND. */
  function AfterFrames(d: Dialogue, frames: seq<Option<Value>>): (r: Dialogue)
    ensures r.reference == d.reference && r.ws == d.ws
    ensures d.history <= r.history
    decreases |frames|
  {
    if |frames| == 0 then d
    else
      var prev := AfterFrames(d, frames[..|frames| - 1]);
      match frames[|frames| - 1]
      case None => prev
      case Some(v) => prev.(history := prev.history + [NextMessage(prev, Send, map["data" := v])])
  }

  /** The inbox items the HTTP leg's frames produce. */
  function FrameItems(lbl: Label, d: Dialogue, frames: seq<Option<Value>>): (r: seq<Inbound>)
    decreases |frames|
  {
    if |frames| == 0 then []
    else
      var k := |frames| - 1;
      var prev := AfterFrames(d, frames[..k]);
      FrameItems(lbl, d, frames[..k]) +
        match frames[k]
        case None => []
        case Some(v) => [WsIn(lbl, NextMessage(prev, Send, map["data" := v])), NullIn]
  }

  /** How many of the frames carry data. */
  function Received(frames: seq<Option<Value>>): (n: nat)
    ensures n <= |frames|
    decreases |frames|
  {
    if |frames| == 0 then 0
    else Received(frames[..|frames| - 1]) + if frames[|frames| - 1].Some? then 1 else 0
  }

  /** Each frame the HTTP leg receives reaches the agent as a SEND on the
      leg's dialogue followed by a `None`, and the dialogue grows by exactly
      those SENDs. */
  lemma {:induction false} FrameItemsShape(lbl: Label, d: Dialogue, frames: seq<Option<Value>>)
    ensures |FrameItems(lbl, d, frames)| == 2 * Received(frames)
    ensures |AfterFrames(d, frames).history| == |d.history| + Received(frames)
    ensures forall i :: 0 <= i < Received(frames) ==>
      && FrameItems(lbl, d, frames)[2 * i] == WsIn(lbl, AfterFrames(d, frames).history[|d.history| + i])
      && FrameItems(lbl, d, frames)[2 * i + 1] == NullIn
    ensures forall i :: |d.history| <= i < |AfterFrames(d, frames).history| ==>
      AfterFrames(d, frames).history[i].performative == Send
    decreases |frames|
  {
    if |frames| > 0 {
      var k := |frames| - 1;
      FrameItemsShape(lbl, d, frames[..k]);
      var prev := AfterFrames(d, frames[..k]);
      assert prev.history <= AfterFrames(d, frames).history;
    }
  }

  /** The whole initial HTTP leg of one request, with nothing else happening
      meanwhile: the accepting part, one wait-loop pass per element of
      `frames` (the passes that fit in the response timeout), then the closing
      part. */
  method HandleHttpRequest(ch: Channel, request: RequestId, ws: Transport, valid: bool,
                           frames: seq<Option<Value>>, closeOk: bool)
    returns (r: Step<Label>)
    requires Inv(ch)
    ensures Inv(r.ch)
    ensures ch.inQueue.None? ==> r == Raised(ch, ValueError(ChannelNotConnected))
    ensures ch.inQueue.Some? && !valid ==> r == Raised(ch, TypeError)
    ensures ch.inQueue.Some? && valid ==>
      && r.Returned? && r.value == ch.nextLabel
      && LegOutcome(ch, r.ch, request, ch.nextLabel, frames)
  {
    var accepted := HttpAccept(ch, request, ws, valid);
    if accepted.Raised? {
      return accepted;
    }
    var lbl := accepted.value;
    var polled := PollFrames(accepted.ch, request, lbl, frames);
    var finished := HttpFinish(polled, request, ws, closeOk);
    r := Returned(finished.ch, accepted.value);
    LegComplete(ch, accepted.ch, polled, finished.ch, request, ws, lbl, frames);
  }

  /** What a whole HTTP leg leaves behind: the request id is gone from both
      tables while its dialogue stays stored under the `None` sid; the
      dialogue holds CONNECT, CONNECTION_ACK, one SEND per frame and a final
      DISCONNECT; and the agent's inbox got the request, the CONNECT, the
      frames' items and the DISCONNECT, in that order. */
  ghost predicate LegOutcome(ch: Channel, ch': Channel, request: RequestId, lbl: Label, frames: seq<Option<Value>>) {
    && ch'.openConnections == ch.openConnections[NoSid := DialogueEntry(lbl)] - {RequestKey(request)}
    && ch'.pendingRequests == ch.pendingRequests - {RequestKey(request)}
    && lbl in ch'.dialogues
    && var d := ch'.dialogues[lbl];
    && |d.history| == 3 + Received(frames)
    && d.history[0] == ConnectMessage(d.reference, request.starterReference)
    && d.history[1].performative == ConnectionAck
    && (forall i :: 2 <= i < |d.history| - 1 ==> d.history[i].performative == Send)
    && d.history[|d.history| - 1].performative == Disconnect
    && Appended(ch, ch',
         [HttpRequestIn(request), WsIn(lbl, d.history[0])]
         + FrameItems(lbl, Dialogue(d.reference, d.history[..2], d.ws), frames)
         + [WsIn(lbl, d.history[|d.history| - 1])])
  }

  /** The three parts of the HTTP leg compose into `LegOutcome`. */
  lemma LegComplete(ch: Channel, a: Channel, p: Channel, f: Channel, request: RequestId, ws: Transport,
                    lbl: Label, frames: seq<Option<Value>>)
    requires a.openConnections == ch.openConnections[RequestKey(request) := FutureEntry(ws)][NoSid := DialogueEntry(lbl)]
    requires a.pendingRequests == ch.pendingRequests[RequestKey(request) := lbl]
    requires FreshDialogue(a, lbl, request.starterReference, Some(ws))
    requires Appended(ch, a, [HttpRequestIn(request), WsIn(lbl, a.dialogues[lbl].history[0])])
    requires p.openConnections == a.openConnections && p.pendingRequests == a.pendingRequests
    requires p.dialogues.Keys == a.dialogues.Keys
    requires p.dialogues[lbl] == AfterFrames(a.dialogues[lbl], frames)
    requires Appended(a, p, FrameItems(lbl, a.dialogues[lbl], frames))
    requires f.openConnections == p.openConnections - {RequestKey(request)}
    requires f.pendingRequests == p.pendingRequests - {RequestKey(request)}
    requires f.dialogues == Extended(p.dialogues, lbl, NextMessage(p.dialogues[lbl], Disconnect, map[]))
    requires Appended(p, f, [WsIn(lbl, NextMessage(p.dialogues[lbl], Disconnect, map[]))])
    ensures LegOutcome(ch, f, request, lbl, frames)
  {
    var d0 := a.dialogues[lbl];
    var disconnect := NextMessage(p.dialogues[lbl], Disconnect, map[]);
    LegDialogue(d0, frames, f.dialogues[lbl], disconnect, request.starterReference);
    AppendedThrice(ch, a, p, f, [HttpRequestIn(request), WsIn(lbl, d0.history[0])],
      FrameItems(lbl, d0, frames), [WsIn(lbl, disconnect)]);
    assert f.openConnections == ch.openConnections[NoSid := DialogueEntry(lbl)] - {RequestKey(request)};
  }

  /** The leg's dialogue: CONNECT, CONNECTION_ACK, the frames' SENDs and the
      closing DISCONNECT, with the first two being the dialogue as accepted. */
  lemma LegDialogue(d0: Dialogue, frames: seq<Option<Value>>, d: Dialogue, disconnect: Message, url: string)
    requires d0.history == [ConnectMessage(d0.reference, url), Message(d0.reference, 2, 1, ConnectionAck, map["success" := VBool(true)])]
    requires d == Dialogue(d0.reference, AfterFrames(d0, frames).history + [disconnect], d0.ws)
    requires disconnect.performative == Disconnect
    ensures |d.history| == 3 + Received(frames)
    ensures d.history[0] == ConnectMessage(d.reference, url)
    ensures d.history[1].performative == ConnectionAck
    ensures forall i :: 2 <= i < |d.history| - 1 ==> d.history[i].performative == Send
    ensures d.history[|d.history| - 1] == disconnect
    ensures d0 == Dialogue(d.reference, d.history[..2], d.ws)
  {
    FrameItemsShape(0, d0, frames);
    assert d.history[..2] == d0.history;
  }

  /** Three appends in a row append their concatenation. */
  lemma AppendedThrice(ch: Channel, a: Channel, p: Channel, f: Channel,
                       first: seq<Inbound>, second: seq<Inbound>, third: seq<Inbound>)
    requires Appended(ch, a, first) && Appended(a, p, second) && Appended(p, f, third)
    ensures Appended(ch, f, first + second + third)
  {
    assert f.inQueue.value == ch.inQueue.value + (first + second + third);
  }

  /** The wait loop of the HTTP leg while the leg's future and dialogue are in
      place: every pass receives its frame, none raises. */
  method PollFrames(ch: Channel, request: RequestId, lbl: Label, frames: seq<Option<Value>>)
    returns (r: Channel)
    requires Inv(ch) && ch.inQueue.Some?
    requires RequestKey(request) in ch.openConnections
    requires RequestKey(request) in ch.pendingRequests && ch.pendingRequests[RequestKey(request)] == lbl
    ensures Inv(r)
    ensures r.openConnections == ch.openConnections && r.pendingRequests == ch.pendingRequests
    ensures r.nextLabel == ch.nextLabel && r.io == ch.io
    ensures r.dialogues.Keys == ch.dialogues.Keys
    ensures r.dialogues[lbl] == AfterFrames(ch.dialogues[lbl], frames)
    ensures r.inQueue == Some(ch.inQueue.value + FrameItems(lbl, ch.dialogues[lbl], frames))
  {
    var d0 := ch.dialogues[lbl];
    var q0 := ch.inQueue.value;
    r := ch;
    var i := 0;
    assert frames[..0] == [];
    assert q0 + FrameItems(lbl, d0, frames[..0]) == q0;
    while i < |frames|
      invariant 0 <= i <= |frames|
      invariant Inv(r)
      invariant r.openConnections == ch.openConnections && r.pendingRequests == ch.pendingRequests
      invariant r.nextLabel == ch.nextLabel && r.io == ch.io
      invariant r.dialogues.Keys == ch.dialogues.Keys
      invariant r.dialogues[lbl] == AfterFrames(d0, frames[..i])
      invariant r.inQueue == Some(q0 + FrameItems(lbl, d0, frames[..i]))
      decreases |frames| - i
    {
      PollStep(r, request, lbl, d0, q0, frames, i);
      r := HttpPoll(r, request, frames[i]).ch;
      i := i + 1;
    }
    assert frames[..i] == frames;
  }

  /** One pass of the wait loop: the frame's SEND (and the empty item after
      it) join the inbox and the dialogue, and nothing else changes. */
  lemma PollStep(r: Channel, request: RequestId, lbl: Label, d0: Dialogue, q0: seq<Inbound>,
                 frames: seq<Option<Value>>, i: int)
    requires 0 <= i < |frames|
    requires Inv(r) && RequestKey(request) in r.openConnections
    requires RequestKey(request) in r.pendingRequests && r.pendingRequests[RequestKey(request)] == lbl
    requires r.dialogues[lbl] == AfterFrames(d0, frames[..i])
    requires r.inQueue == Some(q0 + FrameItems(lbl, d0, frames[..i]))
    ensures var c := HttpPoll(r, request, frames[i]).ch;
      && Inv(c)
      && c.openConnections == r.openConnections && c.pendingRequests == r.pendingRequests
      && c.nextLabel == r.nextLabel && c.io == r.io
      && c.dialogues.Keys == r.dialogues.Keys
      && c.dialogues[lbl] == AfterFrames(d0, frames[..i + 1])
      && c.inQueue == Some(q0 + FrameItems(lbl, d0, frames[..i + 1]))
  {
    var s := HttpPoll(r, request, frames[i]);
    assert frames[..i + 1][..i] == frames[..i];
    var prev := AfterFrames(d0, frames[..i]);
    if frames[i].Some? {
      var msg := NextMessage(prev, Send, map["data" := frames[i].value]);
      assert s == InboundFrame(r, request, frames[i].value);
      assert s.ch.dialogues[lbl] == prev.(history := prev.history + [msg]);
      assert s.ch.inQueue.value == q0 + FrameItems(lbl, d0, frames[..i]) + [WsIn(lbl, msg), NullIn];
      assert FrameItems(lbl, d0, frames[..i + 1]) == FrameItems(lbl, d0, frames[..i]) + [WsIn(lbl, msg), NullIn];
      assert q0 + FrameItems(lbl, d0, frames[..i + 1])
          == q0 + FrameItems(lbl, d0, frames[..i]) + [WsIn(lbl, msg), NullIn];
    } else {
      assert s.ch == r;
      assert FrameItems(lbl, d0, frames[..i + 1]) == FrameItems(lbl, d0, frames[..i]);
    }
  }

  /** The HTTP path stores every leg's dialogue under the one `None` sid, so a
      second leg overwrites the first leg's entry there; the first dialogue
      stays reachable only through its request id in `pending_requests`. */
  lemma NoneSidOverwritten(ch: Channel, first: RequestId, second: RequestId, ws1: Transport, ws2: Transport)
    requires Inv(ch) && ch.inQueue.Some? && first != second
    ensures var s1 := HttpAccept(ch, first, ws1, true);
      var s2 := HttpAccept(s1.ch, second, ws2, true);
      && s1.value == ch.nextLabel && s2.value == ch.nextLabel + 1
      && s2.ch.openConnections[NoSid] == DialogueEntry(ch.nextLabel + 1)
      && s2.ch.pendingRequests[RequestKey(first)] == ch.nextLabel
      && forall k :: k in s2.ch.openConnections ==> s2.ch.openConnections[k] != DialogueEntry(ch.nextLabel)
  {
    var s1 := HttpAccept(ch, first, ws1, true);
    var s2 := HttpAccept(s1.ch, second, ws2, true);
    forall k | k in s2.ch.openConnections
      ensures s2.ch.openConnections[k] != DialogueEntry(ch.nextLabel)
    {
      if k != NoSid && k != RequestKey(second) && k != RequestKey(first) {
        assert k in ch.openConnections;
        assert ch.openConnections[k].DialogueEntry? ==> ch.openConnections[k].lbl in ch.dialogues;
      }
    }
  }

  /** When the agent answers the HTTP request through the channel while the
      leg is still waiting, the next pass of the wait loop finds no future,
      the leg ends with NotImplementedError, `close_session` never runs and
      the leg's dialogue stays pending with no DISCONNECT sent to the agent. */
  lemma HttpReplyAbortsLeg(ch: Channel, request: RequestId, ws: Transport, response: HttpResponse,
                           frame: Option<Value>)
    requires Inv(ch) && ch.inQueue.Some?
    ensures var s1 := HttpAccept(ch, request, ws, true);
      var s2 := ChannelSend(s1.ch, HttpOut(Some(request), response), true);
      var s3 := HttpPoll(s2.ch, request, frame);
      && s2.Returned? && s2.ch.io == ch.io + [Resolved(request, response)]
      && s3 == Raised(s2.ch, NotImplementedError)
      && s3.ch.pendingRequests[RequestKey(request)] == ch.nextLabel
      && s3.ch.inQueue == s1.ch.inQueue
  {
  }

  /** Reconnecting a stopped channel empties `pending_requests` but keeps
      `open_connections`, so an agent SEND on a dialogue that was open before
      is no longer delivered: the channel answers it with a DISCONNECT. */
  lemma ReconnectForgetsPending(ch: Channel, sid: string, path: string, data: Value)
    requires Inv(ch) && !ch.isStopped
    ensures var s1 := SioConnect(ch, sid, Some(path));
      var lbl := ch.nextLabel;
      var c1 := DisconnectChannel(s1.ch).ch;
      var c2 := ConnectChannel(c1, Started);
      var reply := NextMessage(c2.dialogues[lbl], Send, map["data" := data]);
      var s3 := ChannelSend(c2, WsOut(lbl, reply), true);
      && SidKey(sid) in c2.openConnections && c2.pendingRequests == map[]
      && s3.Returned?
      && s3.ch.io == ch.io
      && |s3.ch.inQueue.value| == 1 && s3.ch.inQueue.value[0].message.performative == Disconnect
  {
    var s1 := SioConnect(ch, sid, Some(path));
    var lbl := ch.nextLabel;
    assert s1.Returned? && lbl in s1.ch.dialogues && SidKey(sid) in s1.ch.openConnections;
    var c1 := DisconnectChannel(s1.ch).ch;
    assert c1.openConnections == s1.ch.openConnections && c1.dialogues == s1.ch.dialogues;
    var c2 := ConnectChannel(c1, Started);
    assert c2.pendingRequests == map[] && c2.inQueue == Some([]) && c2.hasServer && lbl in c2.dialogues;
    assert c2.io == ch.io;
    var reply := NextMessage(c2.dialogues[lbl], Send, map["data" := data]);
    WsSendUnawaited(c2, lbl, reply, true);
    assert ChannelSend(c2, WsOut(lbl, reply), true) == WsSend(c2, lbl, reply, true);
  }

  /** A dialogue the catch-all handler opens has no transport, so the agent's
      SEND reply on it raises AttributeError instead of reaching the client. */
  lemma CatchAllDialogueCannotBeAnswered(ch: Channel, event: string, sid: string, data: Value, answer: Value)
    requires Inv(ch) && ch.inQueue.Some? && ch.hasServer
    requires event !in ReservedEvents && SidKey(sid) !in ch.openConnections
    ensures var s1 := CatchAll(ch, event, sid, data);
      var lbl := ch.nextLabel;
      var reply := NextMessage(s1.ch.dialogues[lbl], Send, map["data" := answer]);
      var s2 := ChannelSend(s1.ch, WsOut(lbl, reply), true);
      s2.Raised? && s2.error == AttributeError && s2.ch.io == ch.io
  {
    var s1 := CatchAll(ch, event, sid, data);
    assert s1 == CatchAllNewSession(ch, event, sid, data);
    var lbl := ch.nextLabel;
    assert s1.ch.pendingRequests[SidKey(sid)] == lbl && s1.ch.dialogues[lbl].ws.None?;
    assert lbl in s1.ch.pendingRequests.Values;
    assert s1.ch.hasServer && Inv(s1.ch) && s1.ch.io == ch.io;
    var reply := NextMessage(s1.ch.dialogues[lbl], Send, map["data" := answer]);
    WsSendWithoutTransport(s1.ch, lbl, reply, true);
    assert ChannelSend(s1.ch, WsOut(lbl, reply), true) == WsSend(s1.ch, lbl, reply, true);
  }

  /** The channel's own lifecycle as the connection test drives it: connecting
      a fresh channel starts it with an empty inbox, disconnecting stops it. */
  lemma ConnectThenDisconnect()
    ensures var c := ConnectChannel(Init(), Started);
      && !c.isStopped && c.inQueue == Some([]) && c.hasServer
      && DisconnectChannel(c).ch.isStopped && DisconnectChannel(c).ch.inQueue.None?
  {
  }
}
