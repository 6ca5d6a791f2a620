/** The requests a subscriber process sends and the server's reading of them. */
module Commands {
  import opened Bytes
  import opened Protocol
  import opened BrokerSpec

  const MAX_ID_LEN := 10

  /**
   A user command, already split into words. The tail of the id field of an unsubscribe request is
   never initialised: it holds whatever was on the stack.
   */
  datatype UserCommand =
    | Connect
    | DoSubscribe(name: Name, sf: seq<byte>)
    | DoUnsubscribe(name: Name, garbage: seq<byte>)
    | Leave

  predicate IdOk(id: Name) { |id| <= MAX_ID_LEN && 0 !in id }

  predicate UserCommandOk(id: Name, c: UserCommand)
  {
    match c
    case Connect => true
    case DoSubscribe(name, sf) => 1 <= |name| <= TOPIC_LEN && 0 !in name && sf != []
    case DoUnsubscribe(name, garbage) => 1 <= |name| <= TOPIC_LEN && 0 !in name && |id| + |garbage| == ID_LEN
    case Leave => true
  }

  /** What the command asks the server for. */
  function Meaning(id: Name, c: UserCommand): Command
  {
    match c
    case Connect => ConnReq(id)
    case DoSubscribe(name, sf) => Subscribe(name, sf != [] && sf[0] != '0' as int)
    case DoUnsubscribe(name, _) => Unsubscribe(name)
    case Leave => Quit
  }

  function Padded(id: Name): (b: seq<byte>)
    requires IdOk(id)
    ensures |b| == ID_LEN
  {
    id + Zeros(ID_LEN - |id|)
  }

  /** The bytes the client sends for a command. */
  function RequestBytes(id: Name, c: UserCommand): (b: seq<byte>)
    requires IdOk(id) && UserCommandOk(id, c)
    ensures HEADER_LEN <= |b| <= HEADER_LEN + TOPIC_LEN
  {
    match c
    case Connect => HeaderBytes(Padded(id), CONN_REQ, HEADER_LEN)
    case DoSubscribe(name, sf) =>
      HeaderBytes(Padded(id), if sf[0] == '0' as int then SUB_NOSF else SUB_SF, HEADER_LEN + |name|) + name
    case DoUnsubscribe(name, garbage) => HeaderBytes(id + garbage, UNSUB, HEADER_LEN + |name|) + name
    case Leave => HeaderBytes(Padded(id), CONN_END, HEADER_LEN)
  }

  function RequestStream(id: Name, cs: seq<UserCommand>): seq<byte>
    requires IdOk(id) && forall k :: 0 <= k < |cs| ==> UserCommandOk(id, cs[k])
  {
    if cs == [] then [] else RequestBytes(id, cs[0]) + RequestStream(id, cs[1..])
  }

  /** What the server's handlers make of a request's flags, id field and payload. */
  function CommandOf(flags: nat, id: Name, payload: seq<byte>): Command
    requires |payload| <= TOPIC_LEN
  {
    if flags == CONN_REQ then ConnReq(id)
    else if flags == SUB_NOSF then Subscribe(RequestKey(payload), false)
    else if flags == SUB_SF then Subscribe(RequestKey(payload), true)
    else if flags == UNSUB then Unsubscribe(RequestKey(payload))
    else if flags == CONN_END then Quit
    else Other
  }

  function Decode(header: seq<byte>, payload: seq<byte>): Command
    requires |header| == HEADER_LEN && |payload| <= TOPIC_LEN
  {
    CommandOf(FlagsField(header), CString(header[..ID_LEN]), payload)
  }

  lemma {:induction false} RequestStreamMore(id: Name, cs: seq<UserCommand>, c: UserCommand)
    requires IdOk(id) && UserCommandOk(id, c) && forall k :: 0 <= k < |cs| ==> UserCommandOk(id, cs[k])
    ensures RequestStream(id, cs + [c]) == RequestStream(id, cs) + RequestBytes(id, c)
  {
    if cs == [] {
      assert (cs + [c])[1..] == [];
    } else {
      RequestStreamMore(id, cs[1..], c);
      assert (cs + [c])[1..] == cs[1..] + [c];
      Associative(RequestBytes(id, cs[0]), RequestStream(id, cs[1..]), RequestBytes(id, c));
    }
  }

  /** Reads a request stream to its end: a header, then as many bytes as it announces, and so on. */
  function ReadRequests(b: seq<byte>): seq<Command>
  {
    if Incomplete(b) || LengthField(b) > HEADER_LEN + TOPIC_LEN then []
    else
      var n := LengthField(b);
      [Decode(b[..HEADER_LEN], b[HEADER_LEN..n])] + ReadRequests(b[n..])
  }

  lemma DecodeOfRequest(id: Name, c: UserCommand)
    requires IdOk(id) && UserCommandOk(id, c)
    ensures var b := RequestBytes(id, c);
            LengthField(b) == |b| && Decode(b[..HEADER_LEN], b[HEADER_LEN..]) == Meaning(id, c)
  {
    var b := RequestBytes(id, c);
    var h := b[..HEADER_LEN];
    assert h[14..16] == b[14..16] && h[16..20] == b[16..20];
    match c
    case Connect =>
      CStringOf(id, Zeros(ID_LEN - |id|));
      assert h[..ID_LEN] == Padded(id);
    case DoSubscribe(name, sf) =>
      assert h == HeaderBytes(Padded(id), if sf[0] == '0' as int then SUB_NOSF else SUB_SF, HEADER_LEN + |name|);
      assert b[HEADER_LEN..] == name;
      TopicKeysAgree(name, []);
    case DoUnsubscribe(name, garbage) =>
      assert h == HeaderBytes(id + garbage, UNSUB, HEADER_LEN + |name|);
      assert b[HEADER_LEN..] == name;
      TopicKeysAgree(name, []);
    case Leave =>
      assert h == b;
  }

  lemma ReadOne(id: Name, c: UserCommand, more: seq<byte>)
    requires IdOk(id) && UserCommandOk(id, c)
    ensures ReadRequests(RequestBytes(id, c) + more) == [Meaning(id, c)] + ReadRequests(more)
  {
    var w := RequestBytes(id, c);
    var b := w + more;
    DecodeOfRequest(id, c);
    assert b[14..16] == w[14..16] && b[16..20] == w[16..20];
    assert b[|w|..] == more;
    assert b[..HEADER_LEN] == w[..HEADER_LEN] && b[HEADER_LEN..|w|] == w[HEADER_LEN..];
  }

  function Meanings(id: Name, cs: seq<UserCommand>): (ms: seq<Command>)
    ensures |ms| == |cs|
  {
    seq(|cs|, k requires 0 <= k < |cs| => Meaning(id, cs[k]))
  }

  lemma FirstMeaning(id: Name, cs: seq<UserCommand>)
    requires cs != []
    ensures Meanings(id, cs) == [Meaning(id, cs[0])] + Meanings(id, cs[1..])
  {
  }

  /** Round trip: the server reads back exactly the commands the client sent, in order. */
  lemma {:induction false} CommandsRoundTrip(id: Name, cs: seq<UserCommand>)
    requires IdOk(id) && forall k :: 0 <= k < |cs| ==> UserCommandOk(id, cs[k])
    ensures ReadRequests(RequestStream(id, cs)) == Meanings(id, cs)
  {
    if cs != [] {
      CommandsRoundTrip(id, cs[1..]);
      ReadOne(id, cs[0], RequestStream(id, cs[1..]));
      FirstMeaning(id, cs);
    }
  }

  // ---------- requests as they are read ----------

  /** What the server's two reads return for one request: a header, and the payload it announces. */
  datatype RawRequest = RawRequest(header: seq<byte>, payload: seq<byte>)

  predicate Complete(q: RawRequest)
  {
    && |q.header| == HEADER_LEN && |q.payload| <= TOPIC_LEN
    && LengthField(q.header) == HEADER_LEN + |q.payload|
  }

  predicate AllComplete(qs: seq<RawRequest>)
  {
    forall k :: 0 <= k < |qs| ==> Complete(qs[k])
  }

  function BytesOf(qs: seq<RawRequest>): seq<byte>
  {
    if qs == [] then [] else qs[0].header + qs[0].payload + BytesOf(qs[1..])
  }

  function Decoded(qs: seq<RawRequest>): (ms: seq<Command>)
    requires AllComplete(qs)
    ensures |ms| == |qs|
  {
    seq(|qs|, k requires 0 <= k < |qs| && Complete(qs[k]) => Decode(qs[k].header, qs[k].payload))
  }

  lemma SameFront(a: seq<byte>, x: seq<byte>, b: seq<byte>, y: seq<byte>)
    requires a + x <= b + y && |a| == |b|
    ensures a == b && x <= y
  {
    assert a == (a + x)[..|a|] == (b + y)[..|b|] == b;
    assert x == (a + x)[|a|..] && y == (b + y)[|b|..];
  }

  lemma HeaderRead(w: seq<byte>, more: seq<byte>, q: RawRequest, rest: seq<byte>)
    requires |q.header| == HEADER_LEN <= |w| && q.header + q.payload + rest <= w + more
    ensures q.header == w[..HEADER_LEN] && LengthField(q.header) == LengthField(w)
  {
    assert (q.header + q.payload + rest)[..HEADER_LEN] == q.header && (w + more)[..HEADER_LEN] == w[..HEADER_LEN];
    assert w[..HEADER_LEN][16..20] == w[16..20];
  }

  /** A complete request read from the front of a stream is the stream's first request. */
  lemma FirstRead(id: Name, c: UserCommand, more: seq<byte>, q: RawRequest, rest: seq<byte>)
    requires IdOk(id) && UserCommandOk(id, c) && Complete(q)
    requires q.header + q.payload + rest <= RequestBytes(id, c) + more
    ensures rest <= more && q.header + q.payload == RequestBytes(id, c)
    ensures Decode(q.header, q.payload) == Meaning(id, c)
  {
    var w := RequestBytes(id, c);
    DecodeOfRequest(id, c);
    HeaderRead(w, more, q, rest);
    SameFront(q.header + q.payload, rest, w, more);
    assert q.payload == (q.header + q.payload)[HEADER_LEN..];
  }

  lemma FirstDecoded(qs: seq<RawRequest>)
    requires qs != [] && AllComplete(qs)
    ensures Decoded(qs) == [Decode(qs[0].header, qs[0].payload)] + Decoded(qs[1..])
  {
  }

  /**
   Whatever complete requests the server reads from a connection, as long as their bytes are the first
   of what the client sent: they mean the client's first commands, in order.
   */
  lemma {:induction false} ReadsAreCommands(id: Name, cs: seq<UserCommand>, qs: seq<RawRequest>)
    requires IdOk(id) && forall k :: 0 <= k < |cs| ==> UserCommandOk(id, cs[k])
    requires AllComplete(qs)
    requires BytesOf(qs) <= RequestStream(id, cs)
    ensures Decoded(qs) <= Meanings(id, cs)
    ensures BytesOf(qs) == RequestStream(id, cs) ==> |qs| == |cs|
  {
    if qs != [] {
      FirstRead(id, cs[0], RequestStream(id, cs[1..]), qs[0], BytesOf(qs[1..]));
      ReadsAreCommands(id, cs[1..], qs[1..]);
      FirstDecoded(qs);
      FirstMeaning(id, cs);
    }
  }
}
