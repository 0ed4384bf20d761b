/** The websockets dialogue rules: which performatives may open a dialogue,
    which may answer which, and when a dialogue is over. */
module WsDialogues {
  import opened WsMessage

  const AllPerformatives: set<Performative> :=
    {Connect, ConnectionAck, Disconnect, DisconnectAck, Error, Receive, Send}

  /** Performatives that may open a dialogue. */
  const InitialPerformatives: set<Performative> := {Connect, Send}

  /** Performatives after which a dialogue is over. */
  const TerminalPerformatives: set<Performative> := {DisconnectAck}

  /** The reply table: for each performative, the performatives that may follow it. */
  const ValidReplies: map<Performative, set<Performative>> := map[
    Connect := {ConnectionAck, Error},
    ConnectionAck := {Send, Receive, Error, Disconnect},
    Disconnect := {DisconnectAck, Error},
    DisconnectAck := {},
    Error := {Send},
    Receive := {Send, Receive, Error, Disconnect},
    Send := {Send, Receive, Error, Disconnect}
  ]

  datatype Role = Client | Server

  function RoleValue(r: Role): string {
    match r
    case Client => "client"
    case Server => "server"
  }

  datatype EndState = EndDisconnectAck | EndDisconnect

  /** The numeric value of each end state. */
  function EndStateValue(e: EndState): nat {
    match e
    case EndDisconnectAck => 0
    case EndDisconnect => 1
  }

  /** The performative each end state is named after. */
  function EndStatePerformative(e: EndState): Performative {
    match e
    case EndDisconnectAck => DisconnectAck
    case EndDisconnect => Disconnect
  }

  const EndStates: set<EndState> := {EndDisconnectAck, EndDisconnect}

  /** Dialogues that reach a terminal performative are dropped from storage. */
  const KeepTerminalStateDialogues: bool := false

  /** `q` may answer `p`. */
  predicate IsValidReply(p: Performative, q: Performative) {
    p in ValidReplies && q in ValidReplies[p]
  }

  /** The reply table covers every performative and names only performatives. */
  lemma ReplyTableTotal()
    ensures ValidReplies.Keys == AllPerformatives
    ensures forall p :: p in ValidReplies ==> ValidReplies[p] <= AllPerformatives
    ensures forall p: Performative :: p in AllPerformatives
  {
    forall p: Performative ensures p in AllPerformatives {
      match p
      case Connect =>
      case ConnectionAck =>
      case Disconnect =>
      case DisconnectAck =>
      case Error =>
      case Receive =>
      case Send =>
    }
  }

  /** DISCONNECT_ACK is the only terminal performative, and the terminal
      performatives are exactly those with no legal reply. */
  lemma TerminalIffNoReplies(p: Performative)
    ensures p in TerminalPerformatives <==> ValidReplies[p] == {}
    ensures p in TerminalPerformatives <==> p == DisconnectAck
  {
    if p != DisconnectAck {
      assert Error in ValidReplies[p] || Send in ValidReplies[p];
    }
  }

  /** What may follow CONNECT, DISCONNECT and ERROR. */
  lemma RepliesAfterConnectDisconnectError(q: Performative)
    ensures IsValidReply(Connect, q) <==> q == ConnectionAck || q == Error
    ensures IsValidReply(Disconnect, q) <==> q == DisconnectAck || q == Error
    ensures IsValidReply(Error, q) <==> q == Send
  {
  }

  /** CONNECT is never a reply; CONNECTION_ACK answers only CONNECT and
      DISCONNECT_ACK answers only DISCONNECT. */
  lemma OnlyAfter(p: Performative)
    ensures !IsValidReply(p, Connect)
    ensures IsValidReply(p, ConnectionAck) <==> p == Connect
    ensures IsValidReply(p, DisconnectAck) <==> p == Disconnect
  {
  }

  /** A sequence of performatives a dialogue may carry: it opens with an
      initial performative and every later one answers its predecessor. */
  predicate IsLegalChain(s: seq<Performative>) {
    && (|s| > 0 ==> s[0] in InitialPerformatives)
    && forall i :: 0 < i < |s| ==> IsValidReply(s[i - 1], s[i])
  }

  /** Whether a dialogue whose performatives so far are `h` accepts `q` next. */
  predicate Accepts(h: seq<Performative>, q: Performative) {
    if |h| == 0 then q in InitialPerformatives else IsValidReply(h[|h| - 1], q)
  }

  /** A dialogue built one accepted message at a time. */
  predicate BuiltByAccepting(s: seq<Performative>)
    decreases |s|
  {
    |s| == 0 || (BuiltByAccepting(s[..|s| - 1]) && Accepts(s[..|s| - 1], s[|s| - 1]))
  }

  /** The legal chains are exactly the sequences a dialogue can accept
      message by message. */
  lemma {:induction false} LegalChainIffAccepted(s: seq<Performative>)
    ensures IsLegalChain(s) <==> BuiltByAccepting(s)
    decreases |s|
  {
    if |s| > 0 {
      var init := s[..|s| - 1];
      LegalChainIffAccepted(init);
      if IsLegalChain(s) {
        assert IsLegalChain(init) by {
          forall i | 0 < i < |init| ensures IsValidReply(init[i - 1], init[i]) {
            assert init[i - 1] == s[i - 1] && init[i] == s[i];
          }
        }
      }
      if BuiltByAccepting(s) {
        forall i | 0 < i < |s| ensures IsValidReply(s[i - 1], s[i]) {
          if i < |s| - 1 {
            assert init[i - 1] == s[i - 1] && init[i] == s[i];
          }
        }
      }
    }
  }

  /** Nothing is accepted after a terminal performative. */
  lemma NothingAfterTerminal(h: seq<Performative>, q: Performative)
    requires |h| > 0 && h[|h| - 1] in TerminalPerformatives
    ensures !Accepts(h, q)
  {
  }

  /** In a legal chain CONNECT can only open the dialogue and CONNECTION_ACK
      can only be its second message, right after that CONNECT. */
  lemma {:induction false} ConnectionAckPosition(s: seq<Performative>, i: nat)
    requires IsLegalChain(s) && i < |s|
    ensures s[i] == Connect ==> i == 0
    ensures s[i] == ConnectionAck ==> i == 1 && s[0] == Connect
  {
    if i > 0 {
      assert IsValidReply(s[i - 1], s[i]);
      if s[i] == ConnectionAck {
        ConnectionAckPosition(s, i - 1);
      }
    }
  }

  /** From each initial performative a legal chain reaches DISCONNECT_ACK. */
  lemma TerminalReachable(p: Performative)
    requires p in InitialPerformatives
    ensures exists s :: IsLegalChain(s) && |s| > 0 && s[0] == p && s[|s| - 1] == DisconnectAck
  {
    var s := if p == Connect then [Connect, ConnectionAck, Disconnect, DisconnectAck]
             else [Send, Disconnect, DisconnectAck];
    assert IsLegalChain(s);
  }

  /** The end states are named after exactly DISCONNECT_ACK and DISCONNECT,
      with distinct values, and include the terminal performative. */
  lemma EndStatesShape()
    ensures (set e | e in EndStates :: EndStatePerformative(e)) == {DisconnectAck, Disconnect}
    ensures EndStateValue(EndDisconnectAck) != EndStateValue(EndDisconnect)
    ensures forall p :: p in TerminalPerformatives ==> exists e :: e in EndStates && EndStatePerformative(e) == p
  {
    var named := set e | e in EndStates :: EndStatePerformative(e);
    assert EndStatePerformative(EndDisconnectAck) in named;
    assert EndStatePerformative(EndDisconnect) in named;
    assert forall p :: p in TerminalPerformatives ==> EndStatePerformative(EndDisconnectAck) == p;
  }

  /** Whether storage keeps a dialogue whose performatives so far are `h`. */
  predicate IsRetained(h: seq<Performative>) {
    KeepTerminalStateDialogues || |h| == 0 || h[|h| - 1] !in TerminalPerformatives
  }

  /** A dialogue is dropped exactly when its last message is terminal. */
  lemma RetainedIffNotTerminal(h: seq<Performative>)
    requires |h| > 0
    ensures IsRetained(h) <==> h[|h| - 1] != DisconnectAck
  {
  }

  /** The roles are CLIENT and SERVER, with distinct names. */
  lemma RolesDistinct(r: Role, r': Role)
    ensures RoleValue(r) == RoleValue(r') <==> r == r'
    ensures RoleValue(r) in {"client", "server"}
  {
  }
}
