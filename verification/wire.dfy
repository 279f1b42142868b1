/**
 * Message-type tags of the driver. Their numeric values live in a module that is
 * not part of this model, so they are left abstract: every property below holds
 * whatever values they take.
 */
module Names {

  /** The tag of a request that expects a reply. */
  const CALL_TYPE: int

  /** The tag a reply frame sequence must carry. */
  const REPLY_TYPE: int

  /** The tags that are addressed to one host rather than to a topic. */
  const DIRECT_TYPES: set<int>
}

/**
 * The frames that travel between the client and the proxy: the six-frame request
 * envelope and the five-frame reply, with the decimal text of the type tag.
 */
module Wire {
  import opened Outcomes
  import Names

  newtype byte = b: int | 0 <= b < 256

  /** One frame of a multipart message. */
  type Bytes = seq<byte>

  /** A target, keyed by its canonical string form. */
  type Target = string

  const MINUS: byte := 45
  const ZERO: byte := 48

  /**
   * An outgoing request. The context and the message are carried in their
   * serialised form: the frames hold them as opaque bytes.
   */
  datatype Request = Request(msgType: int, target: Target, messageId: Bytes, context: Bytes, message: Bytes)

  predicate IsDigit(b: byte) {
    ZERO <= b <= ZERO + 9
  }

  predicate AllDigits(s: Bytes) {
    forall i :: 0 <= i < |s| ==> IsDigit(s[i])
  }

  /** The decimal digits of a natural number, most significant first, without leading zeros. */
  function Digits(n: nat): (s: Bytes)
    ensures |s| > 0 && AllDigits(s)
    ensures s[0] == ZERO ==> n == 0
    decreases n
  {
    if n < 10 then [ZERO + n as byte] else Digits(n / 10) + [ZERO + (n % 10) as byte]
  }

  /** `str(n)` for an integer: an optional minus sign followed by the digits of its magnitude. */
  function Decimal(n: int): (s: Bytes)
    ensures |s| > 0
    ensures s[0] == MINUS <==> n < 0
  {
    if n < 0 then [MINUS] + Digits(-n) else Digits(n)
  }

  /** The value of a non-empty run of decimal digits, read left to right. */
  function DigitsValue(s: Bytes): nat
    requires |s| > 0 && AllDigits(s)
    decreases |s|
  {
    var d := (s[|s| - 1] - ZERO) as nat;
    if |s| == 1 then d else DigitsValue(s[..|s| - 1]) * 10 + d
  }

  /**
   * `int(s)` on a frame: an optional minus sign followed by one or more decimal
   * digits; anything else does not parse.
   */
  function ParseInt(s: Bytes): (r: Option<int>)
    ensures r.Some? <==> (|s| > 0 && AllDigits(s)) || (|s| > 1 && s[0] == MINUS && AllDigits(s[1..]))
    ensures |s| > 0 && AllDigits(s) ==> r.Some? && r.value >= 0
    ensures r.Some? && r.value < 0 ==> s[0] == MINUS
  {
    if |s| > 0 && s[0] == MINUS then
      (if |s| > 1 && AllDigits(s[1..]) then Some(-(DigitsValue(s[1..]) as int)) else None)
    else if |s| > 0 && AllDigits(s) then Some(DigitsValue(s))
    else None
  }

  lemma {:induction false} DigitsRoundTrip(n: nat)
    ensures DigitsValue(Digits(n)) == n
    decreases n
  {
    if n >= 10 {
      var s := Digits(n);
      assert s[..|s| - 1] == Digits(n / 10);
      DigitsRoundTrip(n / 10);
    }
  }

  /** The type tag written as decimal text is read back by `int(...)` unchanged. */
  lemma DecimalRoundTrip(n: int)
    ensures ParseInt(Decimal(n)) == Some(n)
  {
    if n < 0 {
      assert Decimal(n)[1..] == Digits(-n);
      DigitsRoundTrip(-n);
    } else {
      DigitsRoundTrip(n);
    }
  }

  /** Distinct type tags have distinct decimal texts. */
  lemma DecimalInjective(m: int, n: int)
    requires Decimal(m) == Decimal(n)
    ensures m == n
  {
    DecimalRoundTrip(m);
    DecimalRoundTrip(n);
  }

  /**
   * The request envelope: the empty delimiter the DEALER socket needs, the type
   * tag as decimal text, the routing key, the message id, the context and the message.
   */
  function Envelope(req: Request, routingKey: Bytes): (frames: seq<Bytes>)
    ensures |frames| == 6 && frames[0] == []
    ensures frames[1] == Decimal(req.msgType) && ParseInt(frames[1]) == Some(req.msgType)
    ensures frames[2] == routingKey && frames[3] == req.messageId
    ensures frames[4] == req.context && frames[5] == req.message
  {
    DecimalRoundTrip(req.msgType);
    [[], Decimal(req.msgType), routingKey, req.messageId, req.context, req.message]
  }

  /** Two envelopes are equal only when every field they carry is equal. */
  lemma EnvelopeInjective(a: Request, keyA: Bytes, b: Request, keyB: Bytes)
    requires Envelope(a, keyA) == Envelope(b, keyB)
    ensures a.msgType == b.msgType && keyA == keyB && a.messageId == b.messageId
    ensures a.context == b.context && a.message == b.message
  {
    var fa, fb := Envelope(a, keyA), Envelope(b, keyB);
    assert fa[1] == fb[1];
    DecimalInjective(a.msgType, b.msgType);
  }

  /** Why a reply frame sequence was refused. */
  datatype ReplyError =
    | EmptyExpected    // the first frame is not the empty delimiter
    | ReplyIdExpected  // there is no reply-id frame
    | NotAnInteger     // the type frame is not decimal text
    | ReplyExpected    // the type tag is not the reply tag
    | Truncated        // a frame the decoder reads is not there

  /** A decoded reply: its payload, and the frames left unread after it. */
  datatype Received = Received(reply: Bytes, rest: seq<Bytes>)

  /**
   * Reads one reply off a frame sequence: the empty delimiter, the reply id, the
   * type tag, the message id (read and discarded) and the payload.
   */
  function ReceiveReply(frames: seq<Bytes>): (r: Result<Received, ReplyError>)
    ensures r.Success? <==> |frames| >= 5 && frames[0] == [] && ParseInt(frames[2]) == Some(Names.REPLY_TYPE)
    ensures r.Success? ==> r.value == Received(frames[4], frames[5..])
    ensures |frames| > 0 && frames[0] != [] ==> r == Failure(EmptyExpected)
    ensures |frames| == 1 && frames[0] == [] ==> r == Failure(ReplyIdExpected)
    ensures |frames| >= 3 && frames[0] == [] && ParseInt(frames[2]).None? ==> r == Failure(NotAnInteger)
    ensures |frames| >= 3 && frames[0] == [] && ParseInt(frames[2]).Some? && ParseInt(frames[2]).value != Names.REPLY_TYPE
            ==> r == Failure(ReplyExpected)
  {
    if |frames| < 1 then Failure(Truncated)
    else if frames[0] != [] then Failure(EmptyExpected)
    else if |frames| < 2 then Failure(ReplyIdExpected)
    else if |frames| < 3 then Failure(Truncated)
    else match ParseInt(frames[2])
      case None => Failure(NotAnInteger)
      case Some(messageType) =>
        if messageType != Names.REPLY_TYPE then Failure(ReplyExpected)
        else if |frames| < 5 then Failure(Truncated)
        else Success(Received(frames[4], frames[5..]))
  }

  /** The five frames a well-formed reply consists of, as the sending side lays them out. */
  function ReplyFrames(replyId: Bytes, messageId: Bytes, payload: Bytes): seq<Bytes> {
    [[], replyId, Decimal(Names.REPLY_TYPE), messageId, payload]
  }

  /** A well-formed reply decodes to its payload, whatever follows it. */
  lemma ReplyRoundTrip(replyId: Bytes, messageId: Bytes, payload: Bytes, rest: seq<Bytes>)
    ensures ReceiveReply(ReplyFrames(replyId, messageId, payload) + rest) == Success(Received(payload, rest))
  {
    var frames := ReplyFrames(replyId, messageId, payload) + rest;
    DecimalRoundTrip(Names.REPLY_TYPE);
    assert frames[2] == Decimal(Names.REPLY_TYPE);
    assert frames[5..] == rest;
  }

  /** A reply whose type tag is any other tag is refused, so no payload is handed on. */
  lemma WrongTagRefused(replyId: Bytes, messageType: int, messageId: Bytes, payload: Bytes)
    requires messageType != Names.REPLY_TYPE
    ensures ReceiveReply([[], replyId, Decimal(messageType), messageId, payload]) == Failure(ReplyExpected)
  {
    DecimalRoundTrip(messageType);
  }

  /** The reply id and the message id are read but do not affect the decoded reply. */
  lemma IdsDiscarded(frames: seq<Bytes>, replyId: Bytes, messageId: Bytes)
    requires |frames| >= 5
    ensures ReceiveReply(frames[1 := replyId][3 := messageId]) == ReceiveReply(frames)
  {
  }
}
