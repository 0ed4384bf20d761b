/** The websockets codec, over abstract protobuf records: a dialogue header
    plus a one-of holding the fields of exactly one performative. */
module WsSerialization {
  import opened Wrappers
  import opened WsMessage
  import Utf8

  /** The protobuf form of an `ErrorCode`. */
  datatype PbErrorCode = PbErrorCode(errorCode: int)

  /** `ErrorCode.encode` */
  function EncodeErrorCode(c: ErrorCode): PbErrorCode {
    PbErrorCode(c.value)
  }

  /** `ErrorCode.decode` */
  function DecodeErrorCode(pb: PbErrorCode): ErrorCode {
    ErrorCode(pb.errorCode)
  }

  /** The two error-code conversions are mutually inverse. */
  lemma ErrorCodeRoundTrip(c: ErrorCode, pb: PbErrorCode)
    ensures DecodeErrorCode(EncodeErrorCode(c)) == c
    ensures EncodeErrorCode(DecodeErrorCode(pb)) == pb
  {
  }

  /** The branches of the `performative` one-of. */
  datatype PbPerformative =
    | PbConnect(url: string)
    | PbConnectionAck(success: bool)
    | PbSend(data: string)
    | PbReceive(data: string)
    | PbDisconnect(reason: string, reasonIsSet: bool)
    | PbDisconnectAck(success: bool)
    | PbError(message: string, code: PbErrorCode)

  /** The values a protobuf `int32` field holds. */
  newtype Int32 = x: int | -0x8000_0000 <= x < 0x8000_0000

  /** The dialogue header with the websockets record as its content; an unset
      one-of is `None`. The message id and the target are `int32` fields. */
  datatype PbDialogueMessage = PbDialogueMessage(
    messageId: Int32,
    dialogueStarterReference: string,
    dialogueResponderReference: string,
    target: Int32,
    content: Option<PbPerformative>)

  datatype CodecError =
    | MissingContent(key: string)
    | WrongContentType(key: string)
    | PerformativeNotValid(name: string)
    | OutOfRange(field: string)
    | InvalidUtf8(key: string)

  /** Whether an integer fits an `int32` field. */
  predicate FitsInt32(x: int) {
    -0x8000_0000 <= x < 0x8000_0000
  }

  /** A message whose header integers fit the record's `int32` fields. */
  predicate HeaderFits(m: Message) {
    FitsInt32(m.messageId) && FitsInt32(m.target)
  }

  /** The performative each branch carries. */
  function BranchPerformative(b: PbPerformative): Performative {
    match b
    case PbConnect(_) => Connect
    case PbConnectionAck(_) => ConnectionAck
    case PbSend(_) => Send
    case PbReceive(_) => Receive
    case PbDisconnect(_, _) => Disconnect
    case PbDisconnectAck(_) => DisconnectAck
    case PbError(_, _) => Error
  }

  /** `WhichOneof("performative")` rendered by `str`: the branch's field name,
      or "None" when no branch is set. */
  function OneofName(content: Option<PbPerformative>): (name: string)
    ensures content.None? ==> name !in ValidPerformatives
    ensures content.Some? ==> ParsePerformative(name) == Some(BranchPerformative(content.value))
  {
    match content
    case None => "None"
    case Some(b) => PerformativeValue(BranchPerformative(b))
  }

  /** What assigning a value to a protobuf string field stores: a string as
      it is, bytes decoded as UTF-8 (`None` if they are not well formed, where
      the setter raises ValueError); any other value is refused with
      TypeError. */
  function StrSetting(v: Value): (r: Option<string>)
  {
    match v
    case VStr(s) => Some(s)
    case VBytes(b) => Utf8.Decode(Utf8.FromBits(b))
    case _ => None
  }

  /** What assigning a value to a protobuf bool field stores: a bool as it
      is, any integer as its truth value; any other value is refused. */
  function BoolSetting(v: Value): (r: Option<bool>)
  {
    match v
    case VBool(b) => Some(b)
    case VInt(i) => Some(i != 0)
    case _ => None
  }

  predicate StrSettable(c: map<string, Value>, key: string) {
    key in c && StrSetting(c[key]).Some?
  }

  predicate BoolSettable(c: map<string, Value>, key: string) {
    key in c && BoolSetting(c[key]).Some?
  }

  /** Reading a content field into a protobuf string field: a missing
      content fails the accessor's enforcement, and the setter refuses values
      that are neither strings nor well-formed UTF-8 bytes. */
  function StrField(c: map<string, Value>, key: string): (r: Result<string, CodecError>)
    ensures r.Success? <==> StrSettable(c, key)
    ensures r.Success? ==> StrSetting(c[key]) == Some(r.value)
    ensures HasStr(c, key) ==> r == Success(c[key].s)
    ensures key !in c ==> r == Failure(MissingContent(key))
    ensures key in c && c[key].VBytes? && r.Failure? ==> r.error == InvalidUtf8(key)
  {
    if key !in c then Failure(MissingContent(key))
    else
      match StrSetting(c[key])
      case Some(s) => Success(s)
      case None => if c[key].VBytes? then Failure(InvalidUtf8(key)) else Failure(WrongContentType(key))
  }

  /** Reading a content field into a protobuf bool field. */
  function BoolField(c: map<string, Value>, key: string): (r: Result<bool, CodecError>)
    ensures r.Success? <==> BoolSettable(c, key)
    ensures r.Success? ==> BoolSetting(c[key]) == Some(r.value)
    ensures HasBool(c, key) ==> r == Success(c[key].b)
    ensures key !in c ==> r == Failure(MissingContent(key))
  {
    if key !in c then Failure(MissingContent(key))
    else
      match BoolSetting(c[key])
      case Some(b) => Success(b)
      case None => Failure(WrongContentType(key))
  }

  /** Reading the `code` field for `ErrorCode.encode`. */
  function CodeField(c: map<string, Value>, key: string): (r: Result<ErrorCode, CodecError>)
    ensures r.Success? <==> HasCode(c, key)
    ensures r.Success? ==> c[key] == VCode(r.value)
  {
    if key !in c then Failure(MissingContent(key))
    else if !c[key].VCode? then Failure(WrongContentType(key))
    else Success(c[key].code)
  }

  /** The contents the protobuf setters accept for each performative: the
      message schema's types, widened by the setters' coercions. */
  predicate Encodable(p: Performative, c: map<string, Value>) {
    match p
    case Connect => StrSettable(c, "url")
    case ConnectionAck => BoolSettable(c, "success")
    case Send => StrSettable(c, "data")
    case Receive => StrSettable(c, "data")
    case Disconnect => "reason" in c ==> StrSetting(c["reason"]).Some?
    case DisconnectAck => BoolSettable(c, "success")
    case Error => StrSettable(c, "message") && HasCode(c, "code")
  }

  /** Fills the one branch of the given performative from the message
      contents; it fails exactly where a content accessor or a protobuf
      setter raises, and never for contents of the schema's types. */
  function EncodeBranch(p: Performative, c: map<string, Value>): (r: Result<PbPerformative, CodecError>)
    ensures r.Success? ==> BranchPerformative(r.value) == p
    ensures r.Success? <==> Encodable(p, c)
    ensures FieldTypesOk(p, c) ==> r.Success?
  {
    match p
    case Connect =>
      (match StrField(c, "url")
       case Success(url) => Success(PbConnect(url))
       case Failure(e) => Failure(e))
    case ConnectionAck =>
      (match BoolField(c, "success")
       case Success(success) => Success(PbConnectionAck(success))
       case Failure(e) => Failure(e))
    case Send =>
      (match StrField(c, "data")
       case Success(data) => Success(PbSend(data))
       case Failure(e) => Failure(e))
    case Receive =>
      (match StrField(c, "data")
       case Success(data) => Success(PbReceive(data))
       case Failure(e) => Failure(e))
    case Disconnect =>
      if "reason" in c then
        (match StrField(c, "reason")
         case Success(reason) => Success(PbDisconnect(reason, true))
         case Failure(e) => Failure(e))
      else Success(PbDisconnect("", false))
    case DisconnectAck =>
      (match BoolField(c, "success")
       case Success(success) => Success(PbDisconnectAck(success))
       case Failure(e) => Failure(e))
    case Error =>
      (match StrField(c, "message")
       case Failure(e) => Failure(e)
       case Success(message) =>
         (match CodeField(c, "code")
          case Success(code) => Success(PbError(message, EncodeErrorCode(code)))
          case Failure(e) => Failure(e)))
  }

  /** A SEND whose data is the UTF-8 encoding of a string, given as bytes,
      encodes to the branch holding that string. */
  lemma BytesDataEncodes(s: string)
    ensures EncodeBranch(Send, map["data" := VBytes(Utf8.ToBits(Utf8.Encode(s)))]) == Success(PbSend(s))
  {
    Utf8.BitsRoundTrip(Utf8.Encode(s));
    Utf8.RoundTrip(s);
  }

  /** The setters' coercions, case by case: an integer for a bool, UTF-8
      bytes for a string; ill-formed bytes raise ValueError and an integer
      for a string raises TypeError. */
  lemma CoercedContents()
    ensures EncodeBranch(ConnectionAck, map["success" := VInt(1)]) == Success(PbConnectionAck(true))
    ensures EncodeBranch(DisconnectAck, map["success" := VInt(0)]) == Success(PbDisconnectAck(false))
    ensures EncodeBranch(Send, map["data" := VBytes([104, 105])]) == Success(PbSend("hi"))
    ensures EncodeBranch(Send, map["data" := VBytes([0xFF])]) == Failure(InvalidUtf8("data"))
    ensures EncodeBranch(Send, map["data" := VInt(1)]) == Failure(WrongContentType("data"))
  {
    assert Utf8.FromBits([104, 105]) == [104, 105];
    Utf8.AsciiDecodes([104, 105]);
    assert Utf8.Decode([104, 105]).value == "hi";
    assert Utf8.FromBits([0xFF]) == [0xFF];
  }

  /** `WebsocketsSerializer.encode`, up to the byte serialisation. The header
      is assigned first, and protobuf rejects an integer outside the `int32`
      range of its field before any content is read. */
  function Encode(m: Message): (r: Result<PbDialogueMessage, CodecError>)
    ensures r.Success? <==> HeaderFits(m) && Encodable(m.performative, m.contents)
    ensures HeaderFits(m) && FieldTypesOk(m.performative, m.contents) ==> r.Success?
    ensures !FitsInt32(m.messageId) ==> r == Failure(OutOfRange("message_id"))
    ensures FitsInt32(m.messageId) && !FitsInt32(m.target) ==> r == Failure(OutOfRange("target"))
    ensures r.Success? ==>
      && r.value.messageId as int == m.messageId
      && r.value.dialogueStarterReference == m.dialogueReference.0
      && r.value.dialogueResponderReference == m.dialogueReference.1
      && r.value.target as int == m.target
      && r.value.content.Some?
      && BranchPerformative(r.value.content.value) == m.performative
  {
    if !FitsInt32(m.messageId) then Failure(OutOfRange("message_id"))
    else if !FitsInt32(m.target) then Failure(OutOfRange("target"))
    else
      match EncodeBranch(m.performative, m.contents)
      case Failure(e) => Failure(e)
      case Success(b) =>
        Success(PbDialogueMessage(m.messageId as Int32, m.dialogueReference.0, m.dialogueReference.1,
                                  m.target as Int32, Some(b)))
  }

  /** The contents `decode` rebuilds from a branch. */
  function BranchContents(b: PbPerformative): map<string, Value> {
    match b
    case PbConnect(url) => map["url" := VStr(url)]
    case PbConnectionAck(success) => map["success" := VBool(success)]
    case PbSend(data) => map["data" := VStr(data)]
    case PbReceive(data) => map["data" := VStr(data)]
    case PbDisconnect(reason, reasonIsSet) =>
      if reasonIsSet then map["reason" := VStr(reason)] else map[]
    case PbDisconnectAck(success) => map["success" := VBool(success)]
    case PbError(message, code) => map["message" := VStr(message), "code" := VCode(DecodeErrorCode(code))]
  }

  /** `WebsocketsSerializer.decode`, up to the byte parsing. */
  function Decode(pb: PbDialogueMessage): (r: Result<Message, CodecError>)
    ensures r.Success? <==> pb.content.Some?
    ensures r.Failure? ==> r.error == PerformativeNotValid(OneofName(pb.content))
    ensures r.Success? ==>
      && r.value.messageId == pb.messageId as int
      && r.value.dialogueReference == (pb.dialogueStarterReference, pb.dialogueResponderReference)
      && r.value.target == pb.target as int
      && r.value.performative == BranchPerformative(pb.content.value)
      && FieldTypesOk(r.value.performative, r.value.contents)
      && ExpectedContentCount(r.value.performative, r.value.contents) == |r.value.contents|
  {
    match pb.content
    case None => Failure(PerformativeNotValid(OneofName(pb.content)))
    case Some(b) =>
      var p := ParsePerformative(OneofName(pb.content)).value;
      assert b.PbError? ==> BranchContents(b).Keys == {"message", "code"};
      Success(Message((pb.dialogueStarterReference, pb.dialogueResponderReference),
                      pb.messageId as int, pb.target as int, p, BranchContents(b)))
  }

  /** Decoding an encoded message gives it back, for every message whose
      contents fit its performative's schema and whose header fits the record,
      of each of the seven performatives. */
  lemma RoundTrip(m: Message)
    requires HeaderFits(m)
    requires FieldTypesOk(m.performative, m.contents)
    requires ExpectedContentCount(m.performative, m.contents) == |m.contents|
    ensures Encode(m).Success?
    ensures Decode(Encode(m).value) == Success(m)
  {
    var c := TypedContent(m.performative, m.contents).value;
    assert Fields(c) == m.contents;
  }

  /** Every consistent message whose header fits the record survives the
      round trip. */
  lemma ConsistentRoundTrip(m: Message)
    requires IsConsistent(m) && HeaderFits(m)
    ensures Decode(Encode(m).value) == Success(m)
  {
    RoundTrip(m);
  }

  /** A record with no branch set fails to decode with an invalid-performative error. */
  lemma UnsetPerformativeRejected(pb: PbDialogueMessage)
    requires pb.content.None?
    ensures Decode(pb) == Failure(PerformativeNotValid("None"))
    ensures ParsePerformative("None").None?
  {
  }

  /** For DISCONNECT the flag is set exactly when a reason was given, and
      decode brings the reason back exactly when the flag is set. */
  lemma DisconnectReasonFlag(m: Message, pb: PbDialogueMessage)
    requires m.performative == Disconnect && Encode(m).Success?
    requires pb.content.Some? && pb.content.value.PbDisconnect?
    ensures Encode(m).value.content.value.reasonIsSet <==> "reason" in m.contents
    ensures "reason" in Decode(pb).value.contents <==> pb.content.value.reasonIsSet
    ensures pb.content.value.reasonIsSet ==> Decode(pb).value.contents["reason"] == VStr(pb.content.value.reason)
  {
  }

  /** A record as encode produces it: an unset reason is left empty. */
  predicate Canonical(pb: PbDialogueMessage) {
    pb.content.Some? &&
    (pb.content.value.PbDisconnect? ==> pb.content.value.reasonIsSet || pb.content.value.reason == "")
  }

  /** Encoding a decoded canonical record gives the record back. */
  lemma RecordRoundTrip(pb: PbDialogueMessage)
    requires Canonical(pb)
    ensures Decode(pb).Success?
    ensures Encode(Decode(pb).value) == Success(pb)
  {
    var m := Decode(pb).value;
    match pb.content.value
    case PbError(message, code) =>
      ErrorCodeRoundTrip(DecodeErrorCode(code), code);
    case _ =>
  }

  /** The decoded contents carry exactly the keys the message schema requires,
      so a decoded message is consistent whenever its header is. */
  lemma DecodedContentsFitSchema(pb: PbDialogueMessage)
    requires pb.content.Some?
    ensures var m := Decode(pb).value;
      HeaderRule(m) ==> IsConsistent(m)
    ensures var m := Decode(pb).value;
      m.performative != Disconnect ==> m.contents.Keys == RequiredKeys(m.performative)
  {
    var m := Decode(pb).value;
    if m.performative != Disconnect {
      if HeaderRule(m) {
        ConsistentKeys(m);
      } else {
        ConsistentKeys(m.(messageId := 0));
      }
    }
  }
}
