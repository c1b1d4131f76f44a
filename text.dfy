/** The simple-text endpoint (`TextEndpoint` in node/src/backend/service/text.rs). */
module Text {
  import opened Wrappers
  import opened BackendTypes
  import Utf8

  /**
   * `handle_message`: the message is accepted exactly when its data is
   * well-formed UTF-8, and an accepted message asks for no further events.
   * The payload is only logged.
   */
  function HandleMessage(ctx: MessagePayload, msg: BackendMessage): (r: Result<seq<Event>, Error>)
    ensures r.Err? <==> !Utf8.WellFormed(msg.data)
    ensures r.Err? ==> r.error == InvalidMessage
    ensures r.Ok? ==> r.value == []
  {
    if Utf8.WellFormed(msg.data) then Ok([]) else Err(InvalidMessage)
  }

  /** The answer depends on the message alone, never on the payload it came in. */
  lemma IgnoresContext(ctx1: MessagePayload, ctx2: MessagePayload, msg: BackendMessage)
    ensures HandleMessage(ctx1, msg) == HandleMessage(ctx2, msg)
  {
  }

  /** Accepted exactly when the data encodes some sequence of Unicode scalar values. */
  lemma AcceptsExactlyEncodedText(ctx: MessagePayload, msg: BackendMessage)
    ensures HandleMessage(ctx, msg).Ok? <==> exists cs: seq<Utf8.Scalar> :: Utf8.Encode(cs) == msg.data
  {
    Utf8.WellFormedIffEncoding(msg.data);
  }

  /** Empty text and US-ASCII text are accepted. */
  lemma AcceptsAscii(ctx: MessagePayload, msg: BackendMessage)
    requires forall i :: 0 <= i < |msg.data| ==> msg.data[i] <= 0x7F
    ensures HandleMessage(ctx, msg) == Ok([])
  {
    Utf8.AsciiIsWellFormed(msg.data);
  }

  /** Malformed input is refused: a lone continuation byte, an overlong form, a surrogate, a truncated character. */
  lemma RejectsMalformed(ctx: MessagePayload, t: MessageType)
    ensures HandleMessage(ctx, BackendMessage(t, [0x80])) == Err(InvalidMessage)
    ensures HandleMessage(ctx, BackendMessage(t, [0xC0, 0x80])) == Err(InvalidMessage)
    ensures HandleMessage(ctx, BackendMessage(t, [0xED, 0xA0, 0x80])) == Err(InvalidMessage)
    ensures HandleMessage(ctx, BackendMessage(t, [0xE2, 0x82])) == Err(InvalidMessage)
  {
  }
}
