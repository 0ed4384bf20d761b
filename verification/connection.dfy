/** The connection object the agent talks to: a thin facade over the channel
    that checks the connection status first. */
module WsServerConnection {
  import opened Wrappers
  import opened WsChannel

  /** The connection's `send`. A disconnected connection raises
      ConnectionError. An HTTP reply is handed to `self._dialogues.update`,
      an attribute only the channel defines, so it raises AttributeError and
      never reaches the channel; a websockets reply goes to the channel; any
      other protocol is dropped without an error. */
  function ConnectionSend(connected: bool, ch: Channel, out: Outbound, writeOk: bool): (r: Step<()>)
    requires Refs(ch)
    ensures Refs(r.ch)
    ensures Inv(ch) ==> Inv(r.ch)
    ensures !connected ==> r == Raised(ch, ConnectionError)
    ensures connected && out.HttpOut? ==> r == Raised(ch, AttributeError)
    ensures connected && out.OtherOut? ==> r == Returned(ch, ())
    ensures connected && out.WsOut? ==> r == ChannelSend(ch, out, writeOk)
    ensures r.ch.openConnections == ch.openConnections
    ensures OnlyWrites(ch.io, r.ch.io)
  {
    if !connected then Raised(ch, ConnectionError)
    else if out.HttpOut? then Raised(ch, AttributeError)
    else if out.WsOut? then ChannelSend(ch, out, writeOk)
    else Returned(ch, ())
  }

  /** The channel after the agent sends every envelope of `outs` in turn (each
      paired with whether its transport write succeeds); an exception does not
      stop the agent from sending the next one. */
  function SendAll(connected: bool, ch: Channel, outs: seq<(Outbound, bool)>): (r: Channel)
    requires Refs(ch)
    ensures Refs(r)
    decreases |outs|
  {
    if |outs| == 0 then ch
    else SendAll(connected, ConnectionSend(connected, ch, outs[0].0, outs[0].1).ch, outs[1..])
  }

  /** Whatever the agent sends through the connection, the futures of the
      initial HTTP legs stay where they are and none is resolved: the only
      effects on the transports are writes. */
  lemma {:induction false} SendsNeverResolveFutures(connected: bool, ch: Channel, outs: seq<(Outbound, bool)>)
    requires Refs(ch)
    ensures SendAll(connected, ch, outs).openConnections == ch.openConnections
    ensures OnlyWrites(ch.io, SendAll(connected, ch, outs).io)
    ensures forall i :: |ch.io| <= i < |SendAll(connected, ch, outs).io| ==>
      !SendAll(connected, ch, outs).io[i].Resolved?
    decreases |outs|
  {
    if |outs| > 0 {
      var ch1 := ConnectionSend(connected, ch, outs[0].0, outs[0].1).ch;
      SendsNeverResolveFutures(connected, ch1, outs[1..]);
    }
  }

  /** The connection's `receive`: a disconnected connection raises
      ConnectionError; otherwise the channel's next inbox item is returned and
      removed. A wait on an empty or missing inbox ends as a cancelled wait,
      which returns `None`. */
  function ConnectionReceive(connected: bool, ch: Channel): (r: Step<Option<Inbound>>)
    ensures !connected ==> r == Raised(ch, ConnectionError)
    ensures connected ==> r.Returned?
    ensures connected && ch.inQueue.Some? && |ch.inQueue.value| > 0 ==>
      && r.value == Some(ch.inQueue.value[0])
      && r.ch == ch.(inQueue := Some(ch.inQueue.value[1..]))
    ensures connected && (ch.inQueue.None? || ch.inQueue == Some([])) ==> r == Returned(ch, None)
  {
    if !connected then Raised(ch, ConnectionError)
    else if ch.inQueue.None? || |ch.inQueue.value| == 0 then Returned(ch, None)
    else Returned(ch.(inQueue := Some(ch.inQueue.value[1..])), Some(ch.inQueue.value[0]))
  }

  /** The agent receives the items the channel puts in the inbox in the order
      they were put: after any step that appends `items` to an empty inbox,
      `|items|` receives return them one by one. */
  lemma {:induction false} ReceiveInOrder(ch: Channel, items: seq<Inbound>)
    requires ch.inQueue == Some(items)
    ensures ReceiveAll(ch, |items|) == items
    decreases |items|
  {
    if |items| > 0 {
      var r := ConnectionReceive(true, ch);
      ReceiveInOrder(r.ch, items[1..]);
    }
  }

  /** The items `n` receives on a connected connection return. */
  function ReceiveAll(ch: Channel, n: nat): (r: seq<Inbound>)
    ensures |r| <= n
    decreases n
  {
    if n == 0 then []
    else
      var s := ConnectionReceive(true, ch);
      if s.value.None? then [] else [s.value.value] + ReceiveAll(s.ch, n - 1)
  }
}
