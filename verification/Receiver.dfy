/**
 The subscriber's resumable parser: it rebuilds the server's frames from whatever chunks the kernel
 hands it.
 */
module Receiver {
  import opened Bytes
  import opened Protocol
  import opened AnyRules

  const BUFSIZ := 8192
  const MAX_FRAME := HEADER_LEN + UDP_HEADER_LEN + MAX_UDP_LEN

  /**
   `need` is recv_msg_len (0 while the next header is awaited), `got` is bytes_received, `buf` the
   bytes of the frame in progress, `handled` the frames passed to handle_response so far.
   */
  datatype Rx = Rx(need: nat, got: nat, buf: seq<byte>, action: nat, handled: seq<Frame>,
                   running: bool, socketOpen: bool)

  const RX_INIT := Rx.Rx(0, 0, [], 0, [], true, true)

  /** handle_response: a refusal or the end of the connection stops the client, and the latter closes its socket. */
  function Handle(x: Rx, f: Frame): Rx
  {
    x.(handled := x.handled + [f],
       running := x.running && f.flags != CONN_NO && f.flags != CONN_END,
       socketOpen := x.socketOpen && f.flags != CONN_END)
  }

  /** MSG_WAITALL returns a whole header; otherwise `recv` returns at least one byte and at most what is asked for. */
  predicate Deliverable(x: Rx, chunk: seq<byte>)
  {
    && x.running && x.action < 0x1_0000
    && if x.need == 0 then |chunk| == HEADER_LEN
       else && x.need < 0x1_0000_0000 && |x.buf| == HEADER_LEN + x.got
            && 1 <= |chunk| <= x.need - HEADER_LEN - x.got
  }

  /** One call of handle_server_input, given the bytes its `recv` returns. */
  function RxStep(x: Rx, chunk: seq<byte>): Rx
    requires Deliverable(x, chunk)
  {
    if x.need == 0 then
      var y := x.(need := LengthField(chunk), buf := chunk, action := FlagsField(chunk));
      if y.need == HEADER_LEN then Handle(y, RawFrame.Frame(y.action, [])) else y
    else
      var y := x.(got := x.got + |chunk|, buf := x.buf + chunk);
      if y.got == y.need - HEADER_LEN then
        Handle(y, RawFrame.Frame(y.action, y.buf[HEADER_LEN..])).(need := 0, got := 0, buf := [])
      else y
  }

  function RxRun(chunks: seq<seq<byte>>): Rx
    requires RxLegal(chunks)
    decreases |chunks|, 1
  {
    if chunks == [] then RX_INIT else RxStep(RxRun(chunks[..|chunks| - 1]), chunks[|chunks| - 1])
  }

  predicate RxLegal(chunks: seq<seq<byte>>)
    decreases |chunks|, 0
  {
    chunks == [] ||
    (RxLegal(chunks[..|chunks| - 1]) && Deliverable(RxRun(chunks[..|chunks| - 1]), chunks[|chunks| - 1]))
  }

  function Concat(chunks: seq<seq<byte>>): seq<byte>
  {
    if chunks == [] then [] else Concat(chunks[..|chunks| - 1]) + chunks[|chunks| - 1]
  }

  /** The bytes of a frame that is not complete yet. */
  function Partial(x: Rx): seq<byte>
  {
    if x.running && x.need != 0 then x.buf else []
  }

  // ---------- streams the client can read ----------

  predicate Stops(f: Frame)
  {
    f.flags == CONN_NO || f.flags == CONN_END
  }

  /**
   Only the last frame can stop the client, and only one that does can be a bare header (after any other
   bare header the client would read a body of no bytes).
   */
  ghost predicate Readable(fs: seq<Frame>)
  {
    forall k :: 0 <= k < |fs| ==>
      (k < |fs| - 1 ==> !Stops(fs[k])) && (fs[k].body == [] ==> k == |fs| - 1 && Stops(fs[k]))
  }

  /** Only the last packet on a connection can be one that stops the client. */
  ghost predicate StopsLast(ps: seq<Packet>)
  {
    forall k :: 0 <= k < |ps| - 1 ==> ps[k].MsgNew?
  }

  lemma GrammarStopsLast(ps: seq<Packet>)
    requires SessionGrammar(ps)
    ensures StopsLast(ps)
  {
    if ps != [] && AllNew(ps[..|ps| - 1]) {
      assert forall k :: 0 <= k < |ps| - 1 ==> ps[k] == ps[..|ps| - 1][k];
    }
  }

  lemma FrameShape(p: Packet)
    ensures var f := FrameOf(p);
            if f.body == [] then f.flags != MSG_NEW
            else f.flags == MSG_NEW && UDP_HEADER_LEN + UDP_MESSAGE_LEN <= |f.body| <= UDP_HEADER_LEN + MAX_UDP_LEN
  {
  }

  /** So a server's stream can be read. */
  lemma ServerStreamReadable(ps: seq<Packet>)
    requires StopsLast(ps)
    ensures Readable(Frames(ps)) && WireBytes(ps) == StreamBytes(Frames(ps))
  {
    WireIsStream(ps);
    forall k | 0 <= k < |ps| ensures Frames(ps)[k].body == [] ==> k == |ps| - 1 && Stops(Frames(ps)[k]) {
      FrameShape(ps[k]);
    }
  }

  // ---------- the parser on such a stream ----------

  lemma {:induction false} StreamPrefix(fs: seq<Frame>, k: nat)
    requires k <= |fs|
    ensures StreamBytes(fs[..k]) <= StreamBytes(fs)
  {
    assert fs == fs[..k] + fs[k..];
    StreamBytesAppend(fs[..k], fs[k..]);
  }

  lemma HandledNext(fs: seq<Frame>, k: nat, f: Frame)
    requires k < |fs| && f == fs[k]
    ensures fs[..k] + [f] == fs[..k + 1]
    ensures StreamBytes(fs[..k + 1]) == StreamBytes(fs[..k]) + FrameBytes(f)
  {
    assert fs[..k + 1][..k] == fs[..k];
  }

  /** A frame boundary inside the stream. */
  lemma {:induction false} StreamAt(fs: seq<Frame>, k: nat)
    requires k < |fs|
    ensures StreamBytes(fs[..k]) + FrameBytes(fs[k]) == StreamBytes(fs[..k + 1])
    ensures StreamBytes(fs[..k + 1]) <= StreamBytes(fs)
  {
    HandledNext(fs, k, fs[k]);
    StreamPrefix(fs, k + 1);
  }

  /** Two parts of a stream that start at the same place. */
  lemma SamePlace(all: seq<byte>, a: seq<byte>, x: seq<byte>, y: seq<byte>)
    requires a + x <= all && a + y <= all && |x| <= |y|
    ensures x <= y
  {
    assert x == all[|a|..|a| + |x|] && y == all[|a|..|a| + |y|];
  }

  /** A stream cut anywhere after k frames continues with a part of frame k, or ends. */
  lemma NextIsInFrame(fs: seq<Frame>, k: nat, part: seq<byte>, chunk: seq<byte>)
    requires k <= |fs| && StreamBytes(fs[..k]) + part + chunk <= StreamBytes(fs)
    requires part + chunk != []
    ensures k < |fs|
    ensures |part + chunk| <= |FrameBytes(fs[k])| ==> part + chunk <= FrameBytes(fs[k])
  {
    Associative(StreamBytes(fs[..k]), part, chunk);
    assert fs[..|fs|] == fs;
    StreamAt(fs, k);
    if |part + chunk| <= |FrameBytes(fs[k])| {
      SamePlace(StreamBytes(fs), StreamBytes(fs[..k]), part + chunk, FrameBytes(fs[k]));
    }
  }

  ghost predicate InFrame(x: Rx, f: Frame)
  {
    && x.need == |FrameBytes(f)| > HEADER_LEN
    && x.got < x.need - HEADER_LEN
    && |x.buf| == HEADER_LEN + x.got
    && x.buf <= FrameBytes(f)
    && x.action == f.flags
  }

  /** The parser's state after consuming some of the stream of frames fs. */
  ghost predicate RxInv(x: Rx, fs: seq<Frame>, consumed: seq<byte>)
  {
    var k := |x.handled|;
    && k <= |fs| && x.handled == fs[..k]
    && x.action < 0x1_0000
    && consumed == StreamBytes(fs[..k]) + Partial(x)
    && (x.running ==> if x.need == 0 then x.got == 0 && x.buf == [] else k < |fs| && InFrame(x, fs[k]))
    && (!x.running ==> k == |fs| && (x.need == HEADER_LEN || x.need == 0) && x.got == 0)
  }

  lemma HeaderOfFrame(f: Frame, h: seq<byte>)
    requires |h| == HEADER_LEN && h <= FrameBytes(f)
    ensures LengthField(h) == |FrameBytes(f)| && FlagsField(h) == f.flags
  {
    var b := FrameBytes(f);
    assert h[14..16] == b[14..16] && h[16..20] == b[16..20];
  }

  /** A chunk that is the header of frame k. */
  lemma NextHeader(fs: seq<Frame>, k: nat, chunk: seq<byte>)
    requires k <= |fs| && |chunk| == HEADER_LEN && StreamBytes(fs[..k]) + chunk <= StreamBytes(fs)
    ensures k < |fs| && chunk <= FrameBytes(fs[k])
    ensures LengthField(chunk) == |FrameBytes(fs[k])| && FlagsField(chunk) == fs[k].flags
  {
    assert [] + chunk == chunk && StreamBytes(fs[..k]) + [] + chunk == StreamBytes(fs[..k]) + chunk;
    NextIsInFrame(fs, k, [], chunk);
    HeaderOfFrame(fs[k], chunk);
  }

  /** A bare header is a whole frame, the last one. */
  lemma HeaderOnly(x: Rx, fs: seq<Frame>, chunk: seq<byte>)
    requires Readable(fs) && Deliverable(x, chunk) && x.need == 0
    requires |x.handled| < |fs| && x.handled == fs[..|x.handled|]
    requires chunk <= FrameBytes(fs[|x.handled|]) && |FrameBytes(fs[|x.handled|])| == HEADER_LEN
    requires LengthField(chunk) == HEADER_LEN && FlagsField(chunk) == fs[|x.handled|].flags
    ensures var y := RxStep(x, chunk);
            && |x.handled| == |fs| - 1 && y.handled == fs && !y.running && y.need == HEADER_LEN && y.got == x.got
            && y.action < 0x1_0000 && StreamBytes(fs) == StreamBytes(x.handled) + chunk
  {
    var k := |x.handled|;
    HandledNext(fs, k, fs[k]);
    assert chunk == FrameBytes(fs[k]) && fs[k] == RawFrame.Frame(fs[k].flags, []);
    assert fs[..k + 1] == fs;
  }

  lemma HeaderStarts(x: Rx, f: Frame, chunk: seq<byte>)
    requires Deliverable(x, chunk) && x.need == 0 && x.got == 0
    requires chunk <= FrameBytes(f) && HEADER_LEN < |FrameBytes(f)| == LengthField(chunk)
    requires FlagsField(chunk) == f.flags
    ensures var y := RxStep(x, chunk);
            InFrame(y, f) && y.handled == x.handled && y.running && y.action < 0x1_0000 && Partial(y) == chunk
  {
  }

  lemma {:induction false} HeaderStep(x: Rx, fs: seq<Frame>, consumed: seq<byte>, chunk: seq<byte>)
    requires Readable(fs) && RxInv(x, fs, consumed) && Deliverable(x, chunk) && x.need == 0
    requires consumed + chunk <= StreamBytes(fs)
    ensures RxInv(RxStep(x, chunk), fs, consumed + chunk)
  {
    var k := |x.handled|;
    assert consumed == StreamBytes(fs[..k]);
    NextHeader(fs, k, chunk);
    if |FrameBytes(fs[k])| == HEADER_LEN {
      HeaderOnly(x, fs, chunk);
    } else {
      HeaderStarts(x, fs[k], chunk);
    }
  }

  lemma {:induction false} BodyStep(x: Rx, fs: seq<Frame>, consumed: seq<byte>, chunk: seq<byte>)
    requires Readable(fs) && RxInv(x, fs, consumed) && Deliverable(x, chunk) && x.need != 0
    requires consumed + chunk <= StreamBytes(fs)
    ensures RxInv(RxStep(x, chunk), fs, consumed + chunk)
  {
    var k := |x.handled|;
    NextIsInFrame(fs, k, x.buf, chunk);
    HandledNext(fs, k, fs[k]);
    Associative(StreamBytes(fs[..k]), x.buf, chunk);
    if x.got + |chunk| == x.need - HEADER_LEN {
      assert x.buf + chunk == FrameBytes(fs[k]);
      assert fs[k] == RawFrame.Frame(x.action, (x.buf + chunk)[HEADER_LEN..]);
    }
  }

  lemma {:induction false} RxRunInv(fs: seq<Frame>, chunks: seq<seq<byte>>)
    requires Readable(fs) && RxLegal(chunks) && Concat(chunks) <= StreamBytes(fs)
    ensures RxInv(RxRun(chunks), fs, Concat(chunks))
  {
    if chunks != [] {
      var n := |chunks| - 1;
      assert Concat(chunks[..n]) <= Concat(chunks);
      RxRunInv(fs, chunks[..n]);
      var x := RxRun(chunks[..n]);
      if x.need == 0 {
        HeaderStep(x, fs, Concat(chunks[..n]), chunks[n]);
      } else {
        BodyStep(x, fs, Concat(chunks[..n]), chunks[n]);
      }
    }
  }

  // ---------- the results ----------

  lemma PartialIsIncomplete(x: Rx, fs: seq<Frame>, consumed: seq<byte>)
    requires RxInv(x, fs, consumed)
    ensures Incomplete(Partial(x))
  {
    if Partial(x) != [] {
      var b := FrameBytes(fs[|x.handled|]);
      assert x.buf[16..20] == b[16..20];
    }
  }

  /**
   Chunk-independent reassembly: on any part of a stream the client can read, cut into chunks in any way,
   the incremental parser has handled the very frames a whole-stream parser finds, and holds the bytes of
   the unfinished one; once the stream is consumed it has handled exactly the frames sent.
   */
  lemma {:induction false} ChunkIndependence(fs: seq<Frame>, chunks: seq<seq<byte>>)
    requires Readable(fs) && RxLegal(chunks) && Concat(chunks) <= StreamBytes(fs)
    ensures var x := RxRun(chunks);
            && ParseStream(Concat(chunks)) == (x.handled, Partial(x))
            && x.handled <= fs
            && (Concat(chunks) == StreamBytes(fs) ==> x.handled == fs)
  {
    var x := RxRun(chunks);
    RxRunInv(fs, chunks);
    PartialIsIncomplete(x, fs, Concat(chunks));
    ParseOfStream(x.handled, Partial(x));
    if Concat(chunks) == StreamBytes(fs) {
      ParseOfStream(fs, []);
      assert StreamBytes(fs) + [] == StreamBytes(fs);
    }
  }

  /** On a server's stream every state stays within 20 + bytes_received <= recv_msg_len <= 1628, inside the buffer. */
  lemma {:induction false} BufferBounds(ps: seq<Packet>, chunks: seq<seq<byte>>)
    requires StopsLast(ps) && RxLegal(chunks) && Concat(chunks) <= WireBytes(ps)
    ensures var x := RxRun(chunks); x.need != 0 ==> 20 + x.got <= x.need <= 1628
    ensures MAX_FRAME == 1628 && BUFSIZ == 8192
  {
    ServerStreamReadable(ps);
    RxRunInv(Frames(ps), chunks);
    var x := RxRun(chunks);
    if x.running && x.need != 0 { FrameShape(ps[|x.handled|]); }
  }

  /** How many bytes the next `recv` asks for. */
  function Wanted(x: Rx): int
  {
    if x.need == 0 then HEADER_LEN else x.need - HEADER_LEN - x.got
  }

  lemma EnoughLeft(x: Rx, fs: seq<Frame>, consumed: seq<byte>)
    requires RxInv(x, fs, consumed) && |x.handled| < |fs|
    ensures x.running
    ensures |consumed| + Wanted(x) <= |StreamBytes(fs)|
  {
    StreamAt(fs, |x.handled|);
  }

  /**
   Progress: while bytes of the stream remain the client is running, what it waits for is there, and
   whatever part of it the next call is given, it consumes at least one byte. So a client that has
   been told to stop never reads again, and a finite stream is drained by finitely many calls.
   */
  lemma {:induction false} Progress(fs: seq<Frame>, chunks: seq<seq<byte>>, chunk: seq<byte>)
    requires Readable(fs) && RxLegal(chunks) && Concat(chunks) < StreamBytes(fs)
    ensures var x, rest := RxRun(chunks), |StreamBytes(fs)| - |Concat(chunks)|;
            && x.running && 1 <= Wanted(x) <= rest
            && (Deliverable(x, chunk) <==>
                1 <= |chunk| <= Wanted(x) && (x.need == 0 ==> |chunk| == Wanted(x)))
  {
    RxRunInv(fs, chunks);
    var x := RxRun(chunks);
    assert fs[..|fs|] == fs;
    if |x.handled| < |fs| { EnoughLeft(x, fs, Concat(chunks)); }
  }

  /** Every header the parser meets on a server's stream announces a frame the client can hold and read. */
  predicate HeaderFits(h: seq<byte>)
  {
    |h| == HEADER_LEN &&
    var len := LengthField(h);
    if len == HEADER_LEN then FlagsField(h) != MSG_NEW
    else FlagsField(h) == MSG_NEW && HEADER_LEN + UDP_HEADER_LEN + UDP_MESSAGE_LEN <= len <= MAX_FRAME
  }

  lemma {:induction false} HeaderFitsAt(x: Rx, ps: seq<Packet>, consumed: seq<byte>, chunk: seq<byte>)
    requires RxInv(x, Frames(ps), consumed) && x.running && x.need == 0 && |chunk| == HEADER_LEN
    requires consumed + chunk <= StreamBytes(Frames(ps))
    ensures HeaderFits(chunk)
  {
    assert consumed == StreamBytes(Frames(ps)[..|x.handled|]);
    NextHeader(Frames(ps), |x.handled|, chunk);
    FrameShape(ps[|x.handled|]);
  }

  lemma {:induction false} HeadersFit(ps: seq<Packet>, chunks: seq<seq<byte>>, chunk: seq<byte>)
    requires StopsLast(ps) && RxLegal(chunks) && Concat(chunks) + chunk <= WireBytes(ps)
    requires Deliverable(RxRun(chunks), chunk) && RxRun(chunks).need == 0
    ensures HeaderFits(chunk)
  {
    ServerStreamReadable(ps);
    RxRunInv(Frames(ps), chunks);
    HeaderFitsAt(RxRun(chunks), ps, Concat(chunks), chunk);
  }

  function ShownOne(f: Frame): seq<Message>
  {
    if f.flags == MSG_NEW && UDP_HEADER_LEN + UDP_MESSAGE_LEN <= |f.body| <= UDP_HEADER_LEN + MAX_UDP_LEN
    then [DecodeMessage(f)] else []
  }

  /** The messages among handled frames, split into fields as the client splits them. */
  function Shown(fs: seq<Frame>): seq<Message>
  {
    if fs == [] then []
    else Shown(fs[..|fs| - 1]) + ShownOne(fs[|fs| - 1])
  }
}
