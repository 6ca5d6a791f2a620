/**
 The wire format: the 20-byte message header, the 8-byte UDP source header, the datagram with its
 50-byte topic, and the form in which the server stores a datagram for later delivery.
 */
module Protocol {
  import opened Bytes

  type Name = seq<byte>

  // sizeof(struct message_header), sizeof(struct udp_header), sizeof(struct udp_message)
  const HEADER_LEN := 20
  const UDP_HEADER_LEN := 8
  const UDP_MESSAGE_LEN := 51
  const ID_LEN := 14
  const TOPIC_LEN := 50
  const MAX_UDP_LEN := 1600

  // enum actions
  const CONN_REQ := 0x0000
  const CONN_NO := 0x0002
  const SUB_NOSF := 0x0004
  const SUB_SF := 0x0008
  const UNSUB := 0x0010
  const MSG_NEW := 0x0020
  const CONN_END := 0x0080

  // ---------- frames ----------

  datatype RawFrame = Frame(flags: nat, body: seq<byte>)

  /** A frame whose flags and total length fit the header's 16-bit and 32-bit fields. */
  type Frame = f: RawFrame | f.flags < 0x1_0000 && HEADER_LEN + |f.body| < 0x1_0000_0000
    witness RawFrame.Frame(0, [])

  lemma Parts(a: seq<byte>, b: seq<byte>, c: seq<byte>)
    requires |a| == 14 && |b| == 2 && |c| == 4
    ensures (a + b + c)[..14] == a && (a + b + c)[14..16] == b && (a + b + c)[16..20] == c
  {
  }

  function FlagsField(h: seq<byte>): (flags: nat)
    requires |h| >= HEADER_LEN
    ensures flags < 0x1_0000
  {
    FromLe16(h[14..16])
  }

  function LengthField(h: seq<byte>): (len: nat)
    requires |h| >= HEADER_LEN
    ensures len < 0x1_0000_0000
  {
    FromLe32(h[16..20])
  }

  function HeaderBytes(id: seq<byte>, flags: nat, len: nat): (h: seq<byte>)
    requires |id| == ID_LEN && flags < 0x1_0000 && len < 0x1_0000_0000
    ensures |h| == HEADER_LEN
    ensures h[..ID_LEN] == id && FlagsField(h) == flags && LengthField(h) == len
  {
    Parts(id, Le16(flags), Le32(len));
    id + Le16(flags) + Le32(len)
  }

  /** The server's frames carry a zeroed id field. */
  function FrameBytes(f: Frame): (b: seq<byte>)
    ensures |b| == HEADER_LEN + |f.body| && b[HEADER_LEN..] == f.body
    ensures FlagsField(b) == f.flags && LengthField(b) == |b|
  {
    var h := HeaderBytes(Zeros(ID_LEN), f.flags, HEADER_LEN + |f.body|);
    assert (h + f.body)[14..16] == h[14..16] && (h + f.body)[16..20] == h[16..20];
    h + f.body
  }

  function StreamBytes(fs: seq<Frame>): seq<byte>
  {
    if fs == [] then [] else StreamBytes(fs[..|fs| - 1]) + FrameBytes(fs[|fs| - 1])
  }

  predicate Incomplete(b: seq<byte>)
  {
    |b| < HEADER_LEN || LengthField(b) < HEADER_LEN || |b| < LengthField(b)
  }

  /** Cuts a byte stream into its complete frames and the bytes of an unfinished last one. */
  function ParseStream(b: seq<byte>): (seq<Frame>, seq<byte>)
  {
    if Incomplete(b) then ([], b)
    else
      var n := LengthField(b);
      var (fs, rest) := ParseStream(b[n..]);
      ([RawFrame.Frame(FlagsField(b), b[HEADER_LEN..n])] + fs, rest)
  }

  lemma Associative<T>(a: seq<T>, b: seq<T>, c: seq<T>)
    ensures a + b + c == a + (b + c)
  {
  }

  lemma {:induction false} StreamBytesAppend(fs: seq<Frame>, gs: seq<Frame>)
    ensures StreamBytes(fs + gs) == StreamBytes(fs) + StreamBytes(gs)
  {
    if gs == [] {
      assert fs + gs == fs;
    } else {
      var n := |gs| - 1;
      assert (fs + gs)[..|fs + gs| - 1] == fs + gs[..n];
      assert (fs + gs)[|fs + gs| - 1] == gs[n];
      StreamBytesAppend(fs, gs[..n]);
      Associative(StreamBytes(fs), StreamBytes(gs[..n]), FrameBytes(gs[n]));
    }
  }

  lemma {:induction false} StreamBytesSplit(fs: seq<Frame>, tail: seq<byte>)
    requires fs != []
    ensures StreamBytes(fs) + tail == FrameBytes(fs[0]) + (StreamBytes(fs[1..]) + tail)
  {
    assert fs == [fs[0]] + fs[1..];
    StreamBytesAppend([fs[0]], fs[1..]);
    assert StreamBytes([fs[0]]) == FrameBytes(fs[0]);
    Associative(FrameBytes(fs[0]), StreamBytes(fs[1..]), tail);
  }

  lemma ParseOne(f: Frame, more: seq<byte>)
    ensures ParseStream(FrameBytes(f) + more) == ([f] + ParseStream(more).0, ParseStream(more).1)
  {
    var w := FrameBytes(f);
    var b := w + more;
    assert b[14..16] == w[14..16] && b[16..20] == w[16..20];
    assert b[|w|..] == more;
    assert b[HEADER_LEN..|w|] == w[HEADER_LEN..];
  }

  /** Parsing inverts sending: every frame comes back, in order, and an unfinished tail is left over. */
  lemma {:induction false} ParseOfStream(fs: seq<Frame>, tail: seq<byte>)
    requires Incomplete(tail)
    ensures ParseStream(StreamBytes(fs) + tail) == (fs, tail)
  {
    if fs == [] {
      assert StreamBytes(fs) + tail == tail;
    } else {
      ParseOfStream(fs[1..], tail);
      calc {
        ParseStream(StreamBytes(fs) + tail);
        { StreamBytesSplit(fs, tail); }
        ParseStream(FrameBytes(fs[0]) + (StreamBytes(fs[1..]) + tail));
        { ParseOne(fs[0], StreamBytes(fs[1..]) + tail); }
        ([fs[0]] + fs[1..], tail);
      }
      assert [fs[0]] + fs[1..] == fs;
    }
  }

  // ---------- datagrams and packets ----------

  /** A UDP datagram with its sender: address and port are kept in network order, as received. */
  datatype RawMessage = Message(addr: seq<byte>, port: seq<byte>, dgram: seq<byte>)

  type Message = m: RawMessage
    | |m.addr| == 4 && |m.port| == 2 && UDP_MESSAGE_LEN <= |m.dgram| <= MAX_UDP_LEN
    witness RawMessage.Message(Zeros(4), Zeros(2), Zeros(51))

  /** What the server writes to a subscriber's socket. */
  datatype Packet = MsgNew(msg: Message) | ConnNo | ConnEnd

  /** struct udp_header: address, port and the two bytes of padding. */
  function UdpHeader(m: Message): (h: seq<byte>)
    ensures |h| == UDP_HEADER_LEN
  {
    m.addr + m.port + [0, 0]
  }

  function FrameOf(p: Packet): Frame
  {
    match p
    case MsgNew(m) => RawFrame.Frame(MSG_NEW, UdpHeader(m) + m.dgram)
    case ConnNo => RawFrame.Frame(CONN_NO, [])
    case ConnEnd => RawFrame.Frame(CONN_END, [])
  }

  function PacketBytes(p: Packet): seq<byte> { FrameBytes(FrameOf(p)) }

  function WireBytes(ps: seq<Packet>): seq<byte>
  {
    if ps == [] then [] else WireBytes(ps[..|ps| - 1]) + PacketBytes(ps[|ps| - 1])
  }

  function Frames(ps: seq<Packet>): (fs: seq<Frame>)
    ensures |fs| == |ps|
  {
    seq(|ps|, k requires 0 <= k < |ps| => FrameOf(ps[k]))
  }

  lemma {:induction false} WireIsStream(ps: seq<Packet>)
    ensures WireBytes(ps) == StreamBytes(Frames(ps))
  {
    if ps != [] {
      var n := |ps| - 1;
      WireIsStream(ps[..n]);
      assert Frames(ps)[..n] == Frames(ps[..n]);
    }
  }

  /** The subscriber's split of a MSG_NEW body into source, topic, type and payload. */
  function DecodeMessage(f: Frame): Message
    requires UDP_HEADER_LEN + UDP_MESSAGE_LEN <= |f.body| <= UDP_HEADER_LEN + MAX_UDP_LEN
  {
    RawMessage.Message(f.body[..4], f.body[4..6], f.body[8..])
  }

  lemma DecodeOfFrame(m: Message)
    ensures DecodeMessage(FrameOf(MsgNew(m))) == m
  {
    var body := FrameOf(MsgNew(m)).body;
    assert body[..4] == m.addr && body[4..6] == m.port && body[8..] == m.dgram;
  }

  /** The frames that stop a client are a header and nothing else. */
  lemma HeaderOnlyBytes()
    ensures PacketBytes(ConnNo) == HeaderBytes(Zeros(ID_LEN), CONN_NO, HEADER_LEN)
    ensures PacketBytes(ConnEnd) == HeaderBytes(Zeros(ID_LEN), CONN_END, HEADER_LEN)
  {
  }

  // ---------- stored messages ----------

  /** struct msg_to_send: the UDP header, the topic with its type byte, and the content. */
  datatype RawStored = Stored(hdr: seq<byte>, topic: seq<byte>, kind: byte, content: seq<byte>)

  type Stored = s: RawStored
    | |s.hdr| == UDP_HEADER_LEN && |s.topic| == TOPIC_LEN && |s.content| <= MAX_UDP_LEN - UDP_MESSAGE_LEN
    witness RawStored.Stored(Zeros(8), Zeros(50), 0, [])

  function Split(hdr: seq<byte>, dgram: seq<byte>): Stored
    requires |hdr| == UDP_HEADER_LEN && UDP_MESSAGE_LEN <= |dgram| <= MAX_UDP_LEN
  {
    RawStored.Stored(hdr, dgram[..TOPIC_LEN], dgram[TOPIC_LEN], dgram[UDP_MESSAGE_LEN..])
  }

  /** The bytes of the three `send` calls of a live delivery. */
  function LiveBytes(m: Message): seq<byte>
  {
    HeaderBytes(Zeros(ID_LEN), MSG_NEW, HEADER_LEN + UDP_HEADER_LEN + |m.dgram|) + UdpHeader(m) + m.dgram
  }

  /** The bytes of the four `send` calls of a replayed delivery. */
  function ReplayBytes(s: Stored): seq<byte>
  {
    HeaderBytes(Zeros(ID_LEN), MSG_NEW, |s.content| + HEADER_LEN + UDP_HEADER_LEN + UDP_MESSAGE_LEN)
    + s.hdr + (s.topic + [s.kind]) + s.content
  }

  /** Replay is byte-identical to live, including `msg_len`, and both are the frame of the message. */
  lemma ReplayIsLive(m: Message)
    ensures ReplayBytes(Split(UdpHeader(m), m.dgram)) == LiveBytes(m) == PacketBytes(MsgNew(m))
  {
    var s := Split(UdpHeader(m), m.dgram);
    assert s.topic + [s.kind] + s.content == m.dgram;
    var h := HeaderBytes(Zeros(ID_LEN), MSG_NEW, HEADER_LEN + UDP_HEADER_LEN + |m.dgram|);
    assert h + s.hdr + (s.topic + [s.kind]) + s.content == h + s.hdr + (s.topic + [s.kind] + s.content);
    assert h + (UdpHeader(m) + m.dgram) == h + UdpHeader(m) + m.dgram;
  }

  // ---------- topic keys ----------

  /** The map key of a datagram: 50 bytes copied into a zeroed 51-byte buffer, read as a C string. */
  function DatagramKey(dgram: seq<byte>): Name
    requires |dgram| >= TOPIC_LEN
  {
    CString(dgram[..TOPIC_LEN] + [0])
  }

  /** The map key of a subscription: the request's payload copied into the same zeroed buffer. */
  function RequestKey(payload: seq<byte>): Name
    requires |payload| <= TOPIC_LEN
  {
    CString(payload + Zeros(TOPIC_LEN + 1 - |payload|))
  }

  function KeyOf(m: Message): Name { DatagramKey(m.dgram) }

  /**
   A name of up to 50 bytes has the same key whether it is sent length-delimited in a request or in a
   datagram, where it fills all 50 bytes or is followed by a NUL and anything else; the key is the name,
   so that different names never share one.
   */
  lemma TopicKeysAgree(name: Name, rest: seq<byte>)
    requires |name| <= 50 && 0 !in name
    ensures RequestKey(name) == name
    ensures |name| + |rest| >= 50 && (|name| < 50 ==> rest[0] == 0) ==> DatagramKey(name + rest) == name
  {
    CStringOf(name, Zeros(TOPIC_LEN + 1 - |name|));
    if |name| + |rest| >= 50 && (|name| < 50 ==> rest[0] == 0) {
      var tail := rest[..TOPIC_LEN - |name|] + [0];
      assert (name + rest)[..TOPIC_LEN] + [0] == name + tail;
      CStringOf(name, tail);
    }
  }

  /** The key of a payload ends at its first NUL. */
  lemma RequestKeyEnds(name: Name, rest: seq<byte>)
    requires 0 !in name && rest != [] && rest[0] == 0 && |name| + |rest| <= 50
    ensures RequestKey(name + rest) == name
  {
    var zeros := Zeros(TOPIC_LEN + 1 - |name + rest|);
    Associative(name, rest, zeros);
    CStringOf(name, rest + zeros);
  }
}
