/** Messages of the `eightballer/websockets:0.1.0` protocol: the seven
    performatives, the content schema of each, and the consistency check a
    message must pass before it may be forwarded. */
module WsMessage {
  import opened Wrappers

  /** Number of header entries in every message body: dialogue_reference,
      message_id, target and performative. */
  const DefaultBodySize: nat := 4

  datatype Performative =
    | Connect
    | ConnectionAck
    | Disconnect
    | DisconnectAck
    | Error
    | Receive
    | Send

  /** The string value of each performative. */
  function PerformativeValue(p: Performative): string {
    match p
    case Connect => "connect"
    case ConnectionAck => "connection_ack"
    case Disconnect => "disconnect"
    case DisconnectAck => "disconnect_ack"
    case Error => "error"
    case Receive => "receive"
    case Send => "send"
  }

  /** The protocol's set of valid performative names. */
  const ValidPerformatives: set<string> :=
    {"connect", "connection_ack", "disconnect", "disconnect_ack", "error", "receive", "send"}

  /** The enum lookup `Performative(s)`: fails (ValueError) on any name
      outside the valid set. */
  function ParsePerformative(s: string): (r: Option<Performative>)
    ensures r.Some? <==> s in ValidPerformatives
    ensures r.Some? ==> PerformativeValue(r.value) == s
  {
    if s == "connect" then Some(Connect)
    else if s == "connection_ack" then Some(ConnectionAck)
    else if s == "disconnect" then Some(Disconnect)
    else if s == "disconnect_ack" then Some(DisconnectAck)
    else if s == "error" then Some(Error)
    else if s == "receive" then Some(Receive)
    else if s == "send" then Some(Send)
    else None
  }

  /** Naming a performative and looking the name up again gives it back, and
      the seven names are exactly the valid set. */
  lemma PerformativeNames(p: Performative)
    ensures PerformativeValue(p) in ValidPerformatives
    ensures ParsePerformative(PerformativeValue(p)) == Some(p)
    ensures forall s :: s in ValidPerformatives ==> exists q :: PerformativeValue(q) == s
  {
    forall s | s in ValidPerformatives
      ensures exists q :: PerformativeValue(q) == s
    {
      var q := ParsePerformative(s).value;
      assert PerformativeValue(q) == s;
    }
  }

  /** The custom `ErrorCode` type, kept abstract as its integer value. */
  datatype ErrorCode = ErrorCode(value: int)

  /** A dynamically typed content value, as Python would hold it. */
  datatype Value =
    | VStr(s: string)
    | VBool(b: bool)
    | VInt(i: int)
    | VBytes(bytes: seq<bv8>)
    | VCode(code: ErrorCode)

  /** A websockets message: the typed header and the content fields passed as
      keyword arguments. */
  datatype Message = Message(
    dialogueReference: (string, string),
    messageId: int,
    target: int,
    performative: Performative,
    contents: map<string, Value>)
  {
    /** Size of the message body: header entries plus content fields. */
    function BodySize(): nat {
      DefaultBodySize + |contents|
    }
  }

  /** The constructor with its defaults: reference ("", ""), message id 1, target 0. */
  function NewMessage(p: Performative, contents: map<string, Value>): (m: Message)
    ensures m.performative == p && m.contents == contents
    ensures HeaderRule(m)
  {
    Message(("", ""), 1, 0, p, contents)
  }

  /** Light protocol rule 3: the message opening a dialogue (id 1) targets 0. */
  predicate HeaderRule(m: Message) {
    m.messageId == 1 ==> m.target == 0
  }

  predicate HasStr(c: map<string, Value>, key: string) {
    key in c && c[key].VStr?
  }

  predicate HasBool(c: map<string, Value>, key: string) {
    key in c && c[key].VBool?
  }

  predicate HasCode(c: map<string, Value>, key: string) {
    key in c && c[key].VCode?
  }

  /** The per-performative field checks: each required field is set and has
      the declared type (a missing field fails like a wrong type). */
  predicate FieldTypesOk(p: Performative, c: map<string, Value>) {
    match p
    case Connect => HasStr(c, "url")
    case ConnectionAck => HasBool(c, "success")
    case Send => HasStr(c, "data")
    case Receive => HasStr(c, "data")
    case Disconnect => "reason" in c ==> c["reason"].VStr?
    case DisconnectAck => HasBool(c, "success")
    case Error => HasStr(c, "message") && HasCode(c, "code")
  }

  /** The number of contents each performative expects. */
  function ExpectedContentCount(p: Performative, c: map<string, Value>): nat {
    match p
    case Connect => 1
    case ConnectionAck => 1
    case Send => 1
    case Receive => 1
    case Disconnect => if "reason" in c then 1 else 0
    case DisconnectAck => 1
    case Error => 2
  }

  /** `_is_consistent`: every check that would raise makes the answer false. */
  predicate IsConsistent(m: Message) {
    && FieldTypesOk(m.performative, m.contents)
    && ExpectedContentCount(m.performative, m.contents) == m.BodySize() - DefaultBodySize
    && HeaderRule(m)
  }

  /** The contents each performative must carry, in typed form: the schema
      of the protocol as a sum type. */
  datatype Content =
    | ConnectContent(url: string)
    | ConnectionAckContent(success: bool)
    | SendContent(data: string)
    | ReceiveContent(data: string)
    | DisconnectContent(reason: Option<string>)
    | DisconnectAckContent(success: bool)
    | ErrorContent(message: string, code: ErrorCode)

  function ContentPerformative(c: Content): Performative {
    match c
    case ConnectContent(_) => Connect
    case ConnectionAckContent(_) => ConnectionAck
    case SendContent(_) => Send
    case ReceiveContent(_) => Receive
    case DisconnectContent(_) => Disconnect
    case DisconnectAckContent(_) => DisconnectAck
    case ErrorContent(_, _) => Error
  }

  /** The keyword arguments that carry a typed content. */
  function Fields(c: Content): map<string, Value> {
    match c
    case ConnectContent(url) => map["url" := VStr(url)]
    case ConnectionAckContent(success) => map["success" := VBool(success)]
    case SendContent(data) => map["data" := VStr(data)]
    case ReceiveContent(data) => map["data" := VStr(data)]
    case DisconnectContent(reason) =>
      if reason.Some? then map["reason" := VStr(reason.value)] else map[]
    case DisconnectAckContent(success) => map["success" := VBool(success)]
    case ErrorContent(message, code) => map["message" := VStr(message), "code" := VCode(code)]
  }

  /** Reads the typed content back out of a message whose fields fit its
      performative's schema. */
  function TypedContent(p: Performative, c: map<string, Value>): (r: Option<Content>)
    ensures r.Some? ==> ContentPerformative(r.value) == p && Fields(r.value) == c
    ensures r.Some? <==> FieldTypesOk(p, c) && ExpectedContentCount(p, c) == |c|
  {
    if !(FieldTypesOk(p, c) && ExpectedContentCount(p, c) == |c|) then None
    else
      match p
      case Connect => OnlyKey(c, "url"); Some(ConnectContent(c["url"].s))
      case ConnectionAck => OnlyKey(c, "success"); Some(ConnectionAckContent(c["success"].b))
      case Send => OnlyKey(c, "data"); Some(SendContent(c["data"].s))
      case Receive => OnlyKey(c, "data"); Some(ReceiveContent(c["data"].s))
      case Disconnect =>
        if "reason" in c then OnlyKey(c, "reason"); Some(DisconnectContent(Some(c["reason"].s)))
        else Some(DisconnectContent(None))
      case DisconnectAck => OnlyKey(c, "success"); Some(DisconnectAckContent(c["success"].b))
      case Error => OnlyTwoKeys(c, "message", "code"); Some(ErrorContent(c["message"].s, c["code"].code))
  }

  /** A one-entry map is determined by its key and value. */
  lemma OnlyKey(c: map<string, Value>, k: string)
    requires k in c && |c| == 1
    ensures c == map[k := c[k]]
  {
    var m := map[k := c[k]];
    assert m.Keys == {k};
    if c.Keys != {k} {
      var j :| j in c.Keys && j != k;
      assert {k, j} <= c.Keys;
      assert |{k, j}| == 2;
      SubsetCard({k, j}, c.Keys);
    }
  }

  /** A two-entry map is determined by its two keys and their values. */
  lemma OnlyTwoKeys(c: map<string, Value>, k1: string, k2: string)
    requires k1 in c && k2 in c && k1 != k2 && |c| == 2
    ensures c == map[k1 := c[k1], k2 := c[k2]]
  {
    if c.Keys != {k1, k2} {
      var j :| j in c.Keys && j != k1 && j != k2;
      assert {k1, k2, j} <= c.Keys;
      assert |{k1, k2, j}| == 3;
      SubsetCard({k1, k2, j}, c.Keys);
    }
  }

  lemma SubsetCard(a: set<string>, b: set<string>)
    requires a <= b
    ensures |a| <= |b|
  {
    if a != {} {
      var x :| x in a;
      SubsetCard(a - {x}, b - {x});
    }
  }

  /** The consistency check accepts exactly the messages whose contents are
      the fields of a typed content of their performative and whose header
      obeys rule 3. */
  lemma ConsistentIffTyped(m: Message)
    ensures IsConsistent(m) <==>
      HeaderRule(m) && exists c :: ContentPerformative(c) == m.performative && Fields(c) == m.contents
  {
    if HeaderRule(m) && exists c :: ContentPerformative(c) == m.performative && Fields(c) == m.contents {
      var c :| ContentPerformative(c) == m.performative && Fields(c) == m.contents;
      FieldsFitSchema(c);
    }
    if IsConsistent(m) {
      var c := TypedContent(m.performative, m.contents).value;
      assert ContentPerformative(c) == m.performative && Fields(c) == m.contents;
    }
  }

  /** The fields of every typed content pass the checks of its performative. */
  lemma FieldsFitSchema(c: Content)
    ensures FieldTypesOk(ContentPerformative(c), Fields(c))
    ensures ExpectedContentCount(ContentPerformative(c), Fields(c)) == |Fields(c)|
  {
    match c
    case ErrorContent(message, code) =>
      assert Fields(c).Keys == {"message", "code"};
    case _ =>
  }

  /** The keys each performative requires. */
  function RequiredKeys(p: Performative): set<string> {
    match p
    case Connect => {"url"}
    case ConnectionAck => {"success"}
    case Send => {"data"}
    case Receive => {"data"}
    case Disconnect => {}
    case DisconnectAck => {"success"}
    case Error => {"message", "code"}
  }

  /** A consistent message carries exactly its performative's required keys,
      except that a DISCONNECT may add the optional `reason`. */
  lemma ConsistentKeys(m: Message)
    requires IsConsistent(m)
    ensures m.performative != Disconnect ==> m.contents.Keys == RequiredKeys(m.performative)
    ensures m.performative == Disconnect ==> m.contents.Keys == {} || m.contents.Keys == {"reason"}
  {
    var c := TypedContent(m.performative, m.contents).value;
    assert Fields(c) == m.contents;
  }

  /** Omitting a required key makes any message inconsistent. */
  lemma MissingRequiredKeyInconsistent(m: Message, k: string)
    requires k in RequiredKeys(m.performative) && k !in m.contents
    ensures !IsConsistent(m)
  {
  }

  /** A message with id 1 and a non-zero target is never consistent. */
  lemma FirstMessageTargetsZero(m: Message)
    requires m.messageId == 1 && m.target != 0
    ensures !IsConsistent(m)
  {
  }

  /** An ERROR given only its `code` (the `message` skipped) is inconsistent,
      and so is each of the other performatives built with no content. */
  lemma SkippedContentInconsistent(code: ErrorCode)
    ensures !IsConsistent(NewMessage(Error, map["code" := VCode(code)]))
    ensures forall p :: p != Disconnect ==> !IsConsistent(NewMessage(p, map[]))
    ensures IsConsistent(NewMessage(Disconnect, map[]))
  {
  }

  /** The example messages of the protocol's message tests are consistent. */
  lemma ExampleMessagesConsistent()
    ensures IsConsistent(NewMessage(Connect, map["url" := VStr("some str")]))
    ensures IsConsistent(NewMessage(ConnectionAck, map["success" := VBool(true)]))
    ensures IsConsistent(NewMessage(Send, map["data" := VStr("some str")]))
    ensures IsConsistent(NewMessage(Receive, map["data" := VStr("some str")]))
    ensures IsConsistent(NewMessage(Disconnect, map["reason" := VStr("some str")]))
    ensures IsConsistent(NewMessage(DisconnectAck, map["success" := VBool(true)]))
    ensures IsConsistent(NewMessage(Error, map["message" := VStr("some str"), "code" := VCode(ErrorCode(1))]))
  {
    FieldsFitSchema(ErrorContent("some str", ErrorCode(1)));
  }
}
