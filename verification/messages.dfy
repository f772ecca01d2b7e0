/** The values that travel through the client: messages, the payloads a
    socket hands to the `message` listener, and opaque JavaScript values. */
module Messages {
  import opened Wrappers

  newtype byte = b: int | 0 <= b < 256

  /** An inbound or outbound message: text or a binary blob. */
  datatype Message = Text(text: string) | Binary(bytes: seq<byte>)

  /** An opaque JavaScript value (an event object, a thrown exception). Only
      its identity matters to the client. */
  datatype JsValue = JsValue(ref: nat)

  /** The `data` of a `MessageEvent`, classified by the cast that succeeds:
      an `ArrayBuffer` (the socket's binary type is set to array buffers),
      a `JsString`, or anything else. */
  datatype Payload =
    | ArrayBufferData(bytes: seq<byte>)
    | StringData(text: string)
    | OtherData(value: JsValue)

  /** Translates a payload into a message; `None` for a payload that is
      neither an array buffer nor a string, which the listener discards. */
  function Classify(p: Payload): (m: Option<Message>)
    ensures m.None? <==> p.OtherData?
    ensures p.ArrayBufferData? ==> m == Some(Binary(p.bytes))
    ensures p.StringData? ==> m == Some(Text(p.text))
  {
    match p
    case ArrayBufferData(bytes) => Some(Binary(bytes))
    case StringData(text) => Some(Text(text))
    case OtherData(_) => None
  }

  /** The payload a message is sent as: text through `send_with_str`, binary
      through `send_with_u8_array`. */
  function Frame(m: Message): (p: Payload)
    ensures !p.OtherData?
    ensures m.Text? <==> p.StringData?
  {
    match m
    case Text(text) => StringData(text)
    case Binary(bytes) => ArrayBufferData(bytes)
  }

  /** Framing a message and classifying the frame gives the message back:
      what one side sends, the other side's listener reads unchanged. */
  lemma ClassifyFrame(m: Message)
    ensures Classify(Frame(m)) == Some(m)
  {
    match m
    case Text(_) =>
    case Binary(_) =>
  }

  /** Every payload the listener accepts is the frame of the message it
      becomes. */
  lemma FrameClassify(p: Payload)
    ensures Classify(p).Some? ==> Frame(Classify(p).value) == p
  {
  }
}
