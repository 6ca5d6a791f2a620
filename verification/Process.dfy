/** The subscriber process: its receive buffer and parser state, and the requests it sends. */
module Process {
  import opened Bytes
  import opened Protocol
  import opened Receiver
  import opened Commands

  lemma ShownMore(fs: seq<Frame>, f: Frame)
    ensures Shown(fs + [f]) == Shown(fs) + ShownOne(f)
  {
    assert (fs + [f])[..|fs|] == fs;
  }

  lemma ShownNew(fs: seq<Frame>, f: Frame)
    requires f.flags == MSG_NEW && UDP_HEADER_LEN + UDP_MESSAGE_LEN <= |f.body| <= UDP_HEADER_LEN + MAX_UDP_LEN
    ensures Shown(fs + [f]) == Shown(fs) + [DecodeMessage(f)]
  {
    ShownMore(fs, f);
  }

  lemma ShownOther(fs: seq<Frame>, f: Frame)
    requires f.flags != MSG_NEW
    ensures Shown(fs + [f]) == Shown(fs)
  {
    ShownMore(fs, f);
  }

  lemma FieldsOfFrame(frame: seq<byte>)
    requires |frame| >= HEADER_LEN + UDP_HEADER_LEN
    ensures frame[HEADER_LEN..][..4] == frame[20..24] && frame[HEADER_LEN..][4..6] == frame[24..26]
    ensures frame[HEADER_LEN..][8..] == frame[28..]
  {
  }

  lemma {:induction false} TakeOne(chunks: seq<seq<byte>>, n: nat)
    requires RxLegal(chunks) && n < |chunks|
    ensures RxLegal(chunks[..n]) && RxLegal(chunks[..n + 1])
    ensures Deliverable(RxRun(chunks[..n]), chunks[n])
    ensures RxRun(chunks[..n + 1]) == RxStep(RxRun(chunks[..n]), chunks[n])
    ensures Concat(chunks[..n + 1]) == Concat(chunks[..n]) + chunks[n]
  {
    if n + 1 < |chunks| {
      var init := chunks[..|chunks| - 1];
      TakeOne(init, n);
      assert init[..n] == chunks[..n] && init[..n + 1] == chunks[..n + 1];
    } else {
      assert chunks[..n + 1] == chunks;
    }
    assert chunks[..n + 1][..n] == chunks[..n];
  }

  lemma {:induction false} ConcatPrefix(chunks: seq<seq<byte>>, n: nat)
    requires n <= |chunks|
    ensures Concat(chunks[..n]) <= Concat(chunks)
  {
    if n == |chunks| {
      assert chunks[..n] == chunks;
    } else {
      ConcatPrefix(chunks[..|chunks| - 1], n);
      assert chunks[..|chunks| - 1][..n] == chunks[..n];
    }
  }

  class SubscriberProcess {
    const id: Name
    const buf: array<byte>
    var recvMsgLen: nat
    var bytesReceived: nat
    var action: nat
    var running: bool
    var socketOpen: bool
    /** The messages displayed so far. */
    var shown: seq<Message>
    /** The bytes written to the server so far. */
    var sent: seq<byte>
    ghost var handled: seq<Frame>
    ghost var issued: seq<UserCommand>

    ghost predicate Valid()
      reads this, buf
    {
      && IdOk(id) && buf.Length == BUFSIZ && action < 0x1_0000
      && (recvMsgLen == 0 ==> bytesReceived == 0)
      && (recvMsgLen != 0 ==> HEADER_LEN + bytesReceived <= recvMsgLen <= MAX_FRAME)
      && (recvMsgLen > HEADER_LEN ==>
            action == MSG_NEW && HEADER_LEN + UDP_HEADER_LEN + UDP_MESSAGE_LEN <= recvMsgLen)
      && shown == Shown(handled)
    }

    ghost function State(): Rx
      requires Valid()
      reads this, buf
    {
      Rx.Rx(recvMsgLen, bytesReceived, if recvMsgLen == 0 then [] else buf[..HEADER_LEN + bytesReceived],
            action, handled, running, socketOpen)
    }

    /** What has been written to the server is the stream of the commands issued. */
    ghost predicate Told()
      reads this
    {
      && IdOk(id) && (forall k :: 0 <= k < |issued| ==> UserCommandOk(id, issued[k]))
      && sent == RequestStream(id, issued)
    }

    constructor (id: Name)
      requires IdOk(id)
      ensures Valid() && Told() && State() == RX_INIT && this.id == id && issued == [] && fresh(buf)
    {
      this.id := id;
      buf := new byte[BUFSIZ](_ => 0);
      recvMsgLen, bytesReceived, action, running, socketOpen := 0, 0, 0, true, true;
      shown, sent, issued, handled := [], [], [], [];
    }

    // ---------- receiving ----------

    /** parse_server_message: the fields of the frame in the buffer. */
    method ParseServerMessage() returns (m: Message)
      requires HEADER_LEN + UDP_HEADER_LEN + UDP_MESSAGE_LEN <= recvMsgLen <= MAX_FRAME <= buf.Length
      ensures m == DecodeMessage(RawFrame.Frame(MSG_NEW, buf[HEADER_LEN..recvMsgLen]))
    {
      var frame := buf[..recvMsgLen];
      FieldsOfFrame(frame);
      m := RawMessage.Message(frame[20..24], frame[24..26], frame[28..]);
      assert frame[HEADER_LEN..] == buf[HEADER_LEN..recvMsgLen];
    }

    /** handle_response, for the frame whose bytes fill the buffer. */
    method HandleResponse(ghost f: Frame)
      requires HEADER_LEN <= recvMsgLen <= MAX_FRAME <= buf.Length && action < 0x1_0000
      requires f == RawFrame.Frame(action, buf[HEADER_LEN..recvMsgLen])
      requires if recvMsgLen == HEADER_LEN then action != MSG_NEW
               else action == MSG_NEW && HEADER_LEN + UDP_HEADER_LEN + UDP_MESSAGE_LEN <= recvMsgLen
      requires shown == Shown(handled)
      modifies this`running, this`socketOpen, this`shown, this`handled
      ensures handled == old(handled) + [f]
      ensures shown == Shown(handled)
      ensures running == (old(running) && action != CONN_NO && action != CONN_END)
      ensures socketOpen == (old(socketOpen) && action != CONN_END)
    {
      if action != MSG_NEW { ShownOther(handled, f); }
      if action == CONN_NO {
        running := false;
      } else if action == CONN_END {
        socketOpen := false;
        running := false;
      } else if action == MSG_NEW {
        ShownNew(handled, f);
        var m := ParseServerMessage();
        shown := shown + [m];
      }
      handled := handled + [f];
    }

    method LoadHeader(chunk: seq<byte>)
      requires |chunk| == HEADER_LEN && buf.Length == BUFSIZ
      modifies this`recvMsgLen, this`action, buf
      ensures recvMsgLen == LengthField(chunk) && action == FlagsField(chunk) && buf[..HEADER_LEN] == chunk
    {
      forall k | 0 <= k < HEADER_LEN { buf[k] := chunk[k]; }
      recvMsgLen := LengthField(chunk);
      action := FlagsField(chunk);
    }

    /** handle_server_input, while a header is awaited. */
    method ReadHeader(chunk: seq<byte>)
      requires Valid() && recvMsgLen == 0 && Deliverable(State(), chunk) && HeaderFits(chunk)
      modifies this`recvMsgLen, this`action, this`running, this`socketOpen, this`shown, this`handled, buf
      ensures Valid() && State() == RxStep(old(State()), chunk)
    {
      LoadHeader(chunk);
      if recvMsgLen == HEADER_LEN {
        HandleResponse(RawFrame.Frame(action, []));
      }
    }

    /** Appends a chunk to the bytes of the frame in progress. */
    method Append(chunk: seq<byte>)
      requires recvMsgLen != 0 && HEADER_LEN + bytesReceived + |chunk| <= buf.Length
      modifies this`bytesReceived, buf
      ensures bytesReceived == old(bytesReceived) + |chunk|
      ensures buf[..HEADER_LEN + bytesReceived] == old(buf[..HEADER_LEN + bytesReceived]) + chunk
    {
      var at := HEADER_LEN + bytesReceived;
      forall k | 0 <= k < |chunk| { buf[at + k] := chunk[k]; }
      bytesReceived := bytesReceived + |chunk|;
    }

    /** The frame is complete: it is handled, and the next header is awaited. */
    method FinishFrame()
      requires Valid() && recvMsgLen > HEADER_LEN && bytesReceived == recvMsgLen - HEADER_LEN
      modifies this`recvMsgLen, this`bytesReceived, this`running, this`socketOpen, this`shown, this`handled
      ensures Valid()
      ensures var y := old(State());
              State() == Handle(y, RawFrame.Frame(y.action, y.buf[HEADER_LEN..])).(need := 0, got := 0, buf := [])
    {
      ghost var y := State();
      assert buf[HEADER_LEN..recvMsgLen] == y.buf[HEADER_LEN..];
      HandleResponse(RawFrame.Frame(action, y.buf[HEADER_LEN..]));
      recvMsgLen, bytesReceived := 0, 0;
    }

    /** handle_server_input, inside a frame. */
    method ReadBody(chunk: seq<byte>)
      requires Valid() && recvMsgLen != 0 && Deliverable(State(), chunk)
      modifies this`recvMsgLen, this`bytesReceived, this`running, this`socketOpen, this`shown, this`handled, buf
      ensures Valid() && State() == RxStep(old(State()), chunk)
    {
      ghost var x := State();
      Append(chunk);
      assert State() == x.(got := x.got + |chunk|, buf := x.buf + chunk);
      if bytesReceived == recvMsgLen - HEADER_LEN {
        FinishFrame();
      }
    }

    /** handle_server_input, on the bytes its `recv` returns. */
    method HandleServerInput(chunk: seq<byte>)
      requires Valid() && Deliverable(State(), chunk) && (recvMsgLen == 0 ==> HeaderFits(chunk))
      modifies this`recvMsgLen, this`bytesReceived, this`action, this`running, this`socketOpen
      modifies this`shown, this`handled, buf
      ensures Valid() && State() == RxStep(old(State()), chunk)
    {
      if recvMsgLen == 0 {
        ReadHeader(chunk);
      } else {
        ReadBody(chunk);
      }
    }

    /**
     The process fed with a server's stream, cut up in any way: it never leaves its buffer, and once the
     stream is consumed it has displayed exactly the messages in it.
     */
    method ReceiveAll(chunks: seq<seq<byte>>, ghost ps: seq<Packet>)
      requires Valid() && State() == RX_INIT
      requires StopsLast(ps) && RxLegal(chunks) && Concat(chunks) <= WireBytes(ps)
      modifies this`recvMsgLen, this`bytesReceived, this`action, this`running, this`socketOpen
      modifies this`shown, this`handled, buf
      ensures Valid() && State() == RxRun(chunks) && shown == Shown(RxRun(chunks).handled)
      ensures Concat(chunks) == WireBytes(ps) ==> shown == Shown(Frames(ps))
    {
      for n := 0 to |chunks|
        invariant Valid() && RxLegal(chunks[..n]) && State() == RxRun(chunks[..n])
      {
        TakeOne(chunks, n);
        ConcatPrefix(chunks, n + 1);
        if recvMsgLen == 0 { HeadersFit(ps, chunks[..n], chunks[n]); }
        HandleServerInput(chunks[n]);
      }
      assert chunks[..|chunks|] == chunks;
      ServerStreamReadable(ps);
      ChunkIndependence(Frames(ps), chunks);
    }

    // ---------- sending ----------

    /** prepare_for_connection and the send that follows it. */
    method SendConnectionRequest()
      requires Told()
      modifies this`sent, this`issued
      ensures Told() && issued == old(issued) + [Connect]
      ensures sent == old(sent) + RequestBytes(id, Connect)
    {
      RequestStreamMore(id, issued, Connect);
      sent := sent + HeaderBytes(id + Zeros(ID_LEN - |id|), CONN_REQ, HEADER_LEN);
      issued := issued + [Connect];
    }

    /** send_subscribe_request: header and topic in two sends. */
    method SendSubscribeRequest(name: Name, sf: seq<byte>)
      requires Told() && UserCommandOk(id, DoSubscribe(name, sf))
      modifies this`sent, this`issued
      ensures Told() && issued == old(issued) + [DoSubscribe(name, sf)]
      ensures sent == old(sent) + RequestBytes(id, DoSubscribe(name, sf))
    {
      RequestStreamMore(id, issued, DoSubscribe(name, sf));
      var flags := if sf[0] == '0' as int then SUB_NOSF else SUB_SF;
      var header := HeaderBytes(id + Zeros(ID_LEN - |id|), flags, HEADER_LEN + |name|);
      Associative(sent, header, name);
      sent := sent + header;
      sent := sent + name;
      issued := issued + [DoSubscribe(name, sf)];
    }

    /** send_unsubscribe_request: the tail of the id field is whatever was there. */
    method SendUnsubscribeRequest(name: Name, garbage: seq<byte>)
      requires Told() && UserCommandOk(id, DoUnsubscribe(name, garbage))
      modifies this`sent, this`issued
      ensures Told() && issued == old(issued) + [DoUnsubscribe(name, garbage)]
      ensures sent == old(sent) + RequestBytes(id, DoUnsubscribe(name, garbage))
    {
      RequestStreamMore(id, issued, DoUnsubscribe(name, garbage));
      var header := HeaderBytes(id + garbage, UNSUB, HEADER_LEN + |name|);
      Associative(sent, header, name);
      sent := sent + header;
      sent := sent + name;
      issued := issued + [DoUnsubscribe(name, garbage)];
    }

    /** send_disconnect_msg */
    method SendDisconnectMessage()
      requires Told()
      modifies this`sent, this`issued, this`running
      ensures Told() && issued == old(issued) + [Leave] && !running
      ensures sent == old(sent) + RequestBytes(id, Leave)
    {
      RequestStreamMore(id, issued, Leave);
      running := false;
      sent := sent + HeaderBytes(id + Zeros(ID_LEN - |id|), CONN_END, HEADER_LEN);
      issued := issued + [Leave];
    }
  }
}
