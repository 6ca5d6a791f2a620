/** The bytes on the wire as numbers: what every packet and every request looks like, field by field. */
module Layout {
  import opened Bytes
  import opened Protocol
  import opened BrokerSpec
  import opened Commands

  // ---------- what the server sends ----------

  /** A refusal: flags 0x0002, length 20. */
  lemma RefusalLayout()
    ensures PacketBytes(ConnNo) == Zeros(14) + [0x02, 0, 20, 0, 0, 0]
  {
    assert PacketBytes(ConnNo) == Zeros(14) + [0x02, 0] + [20, 0, 0, 0];
  }

  /** The end of a connection: flags 0x0080, length 20. */
  lemma EndLayout()
    ensures PacketBytes(ConnEnd) == Zeros(14) + [0x80, 0, 20, 0, 0, 0]
  {
    assert PacketBytes(ConnEnd) == Zeros(14) + [0x80, 0] + [20, 0, 0, 0];
  }

  lemma SmallLe32(x: nat)
    requires x < 0x1_0000
    ensures Le32(x) == [x % 256, x / 256, 0, 0]
  {
  }

  /**
   A message: flags 0x0020, length 28 more than the datagram's, the sender's address and port as they
   came, two bytes of padding, and the datagram, which may have any length from 51 to 1600.
   */
  lemma MessageLayout(addr: seq<byte>, port: seq<byte>, dgram: seq<byte>)
    requires |addr| == 4 && |port| == 2 && 51 <= |dgram| <= 1600
    ensures var len := 28 + |dgram|;
            PacketBytes(MsgNew(RawMessage.Message(addr, port, dgram))) ==
            Zeros(14) + [0x20, 0] + [len % 256, len / 256, 0, 0] + addr + port + [0, 0] + dgram
  {
    var len, m := 28 + |dgram|, RawMessage.Message(addr, port, dgram);
    var h := Zeros(14) + [0x20, 0] + [len % 256, len / 256, 0, 0];
    SmallLe32(len);
    assert HeaderBytes(Zeros(14), 0x20, len) == h;
    assert PacketBytes(MsgNew(m)) == h + (UdpHeader(m) + dgram);
    assert h + (UdpHeader(m) + dgram) == h + addr + port + [0, 0] + dgram;
  }

  // ---------- what a client sends ----------

  /** A request with its length in the low byte. */
  lemma SmallHeader(field: seq<byte>, flags: nat, len: nat)
    requires |field| == 14 && flags < 256 && len < 256
    ensures HeaderBytes(field, flags, len) == field + [flags, 0, len, 0, 0, 0]
  {
    SmallLe32(len);
    assert HeaderBytes(field, flags, len) == field + [flags, 0] + [len, 0, 0, 0];
  }

  /** A subscribe: id NUL-padded to 14 bytes, flags 4 if the SF argument starts with the digit 0 and 8 if not. */
  lemma SubscribeLayout(id: Name, name: Name, sf: seq<byte>)
    requires |id| <= 10 && 0 !in id && 1 <= |name| <= 50 && 0 !in name && sf != []
    ensures RequestBytes(id, DoSubscribe(name, sf)) ==
            id + Zeros(14 - |id|) + [if sf[0] == 48 then 0x04 else 0x08, 0, 20 + |name|, 0, 0, 0] + name
  {
    SmallHeader(id + Zeros(14 - |id|), if sf[0] == 48 then 0x04 else 0x08, 20 + |name|);
  }

  /** An unsubscribe: the id runs into whatever the field held before. */
  lemma UnsubscribeLayout(id: Name, name: Name, garbage: seq<byte>)
    requires |id| <= 10 && 0 !in id && 1 <= |name| <= 50 && 0 !in name && |id| + |garbage| == 14
    ensures RequestBytes(id, DoUnsubscribe(name, garbage)) ==
            id + garbage + [0x10, 0, 20 + |name|, 0, 0, 0] + name
  {
    SmallHeader(id + garbage, 0x10, 20 + |name|);
  }

  /** The first request and the last one: a header alone. */
  lemma HeaderOnlyLayout(id: Name)
    requires |id| <= 10 && 0 !in id
    ensures RequestBytes(id, Connect) == id + Zeros(14 - |id|) + [0, 0, 20, 0, 0, 0]
    ensures RequestBytes(id, Leave) == id + Zeros(14 - |id|) + [0x80, 0, 20, 0, 0, 0]
  {
    SmallHeader(id + Zeros(14 - |id|), 0, 20);
    SmallHeader(id + Zeros(14 - |id|), 0x80, 20);
  }

  // ---------- how the server reads a request ----------

  /** What the low byte of the flags asks for. */
  function Asked(flags: byte, id: Name, topic: Name): Command
  {
    if flags == 0x00 then ConnReq(id)
    else if flags == 0x04 then Subscribe(topic, false)
    else if flags == 0x08 then Subscribe(topic, true)
    else if flags == 0x10 then Unsubscribe(topic)
    else if flags == 0x80 then Quit
    else Other
  }

  /** A header and the up to 50 bytes that follow it make one request, whatever its id field and flags. */
  lemma RequestReads(field: seq<byte>, low: byte, high: byte, payload: seq<byte>)
    requires |field| == 14 && |payload| <= 50
    ensures var header := field + [low, high, 20 + |payload|, 0, 0, 0];
            && Complete(RawRequest(header, payload))
            && Decode(header, payload) ==
               if high == 0 then Asked(low, CString(field), RequestKey(payload)) else Other
  {
    var header := field + [low, high, 20 + |payload|, 0, 0, 0];
    assert header[..14] == field && header[14..16] == [low, high];
    assert header[16..20] == [20 + |payload|, 0, 0, 0];
    assert header[16..20][..2] == [20 + |payload|, 0] && header[16..20][2..] == [0, 0];
  }
}
