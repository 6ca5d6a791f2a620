/** From the broker's handlers to what each subscriber process hands to its display. */
module EndToEnd {
  import opened Bytes
  import opened Protocol
  import opened BrokerSpec
  import opened AnyRules
  import opened Seat
  import opened Delivery
  import opened Receiver
  import opened Effects

  function Messages(ps: seq<Packet>): seq<Message>
  {
    if ps == [] then []
    else Messages(ps[..|ps| - 1]) + if ps[|ps| - 1].MsgNew? then [ps[|ps| - 1].msg] else []
  }

  function About(ms: seq<Message>, t: Name): seq<Message>
  {
    if ms == [] then []
    else About(ms[..|ms| - 1], t) + if KeyOf(ms[|ms| - 1]) == t then [ms[|ms| - 1]] else []
  }

  lemma {:induction false} ShownIsSent(ps: seq<Packet>)
    ensures Shown(Frames(ps)) == Messages(ps)
  {
    if ps != [] {
      var n := |ps| - 1;
      ShownIsSent(ps[..n]);
      assert Frames(ps)[..n] == Frames(ps[..n]);
      if ps[n].MsgNew? { DecodeOfFrame(ps[n].msg); }
    }
  }

  lemma {:induction false} AboutTopic(ps: seq<Packet>, t: Name)
    ensures About(Messages(ps), t) == OnTopic(ps, t)
  {
    if ps != [] {
      var n := |ps| - 1;
      AboutTopic(ps[..n], t);
      if ps[n].MsgNew? {
        assert Messages(ps)[..|Messages(ps)| - 1] == Messages(ps[..n]);
      } else {
        assert Messages(ps) == Messages(ps[..n]);
      }
    }
  }

  lemma {:induction false} ShownPrefix(fs: seq<Frame>, gs: seq<Frame>)
    requires fs <= gs
    ensures Shown(fs) <= Shown(gs)
  {
    if |fs| < |gs| {
      assert fs <= gs[..|gs| - 1];
      ShownPrefix(fs, gs[..|gs| - 1]);
    } else {
      assert fs == gs;
    }
  }

  lemma {:induction false} AboutPrefix(ms: seq<Message>, ns: seq<Message>, t: Name)
    requires ms <= ns
    ensures About(ms, t) <= About(ns, t)
  {
    if |ms| < |ns| {
      assert ms <= ns[..|ns| - 1];
      AboutPrefix(ms, ns[..|ns| - 1], t);
    } else {
      assert ms == ns;
    }
  }

  /**
   One connection: over any run and any chunking of the bytes that have come through, the messages a
   subscriber process has shown are the first of those written to that connection, in order, and all of
   them once the bytes are consumed.
   */
  lemma {:induction false} ConnectionEndToEnd(r: Rules, es: seq<Event>, a: nat, chunks: seq<seq<byte>>)
    requires Legal(r, es) && a < |Run(r, es).conns|
    requires RxLegal(chunks) && Concat(chunks) <= WireBytes(Run(r, es).conns[a].wire)
    ensures Shown(RxRun(chunks).handled) <= Messages(Run(r, es).conns[a].wire)
    ensures Concat(chunks) == WireBytes(Run(r, es).conns[a].wire) ==>
              Shown(RxRun(chunks).handled) == Messages(Run(r, es).conns[a].wire)
  {
    var wire := Run(r, es).conns[a].wire;
    SessionGrammarOverRuns(r, es, a);
    GrammarStopsLast(wire);
    ServerStreamReadable(wire);
    ChunkIndependence(Frames(wire), chunks);
    ShownPrefix(RxRun(chunks).handled, Frames(wire));
    ShownIsSent(wire);
  }

  /** The chunks fed to the process behind each session drain what was written to it. */
  ghost predicate Drained(s: State, sessions: seq<nat>, feeds: seq<seq<seq<byte>>>)
  {
    && |feeds| == |sessions|
    && forall n :: 0 <= n < |feeds| ==>
         && sessions[n] < |s.conns| && RxLegal(feeds[n])
         && Concat(feeds[n]) == WireBytes(s.conns[sessions[n]].wire)
  }

  /** What the processes of a client's successive sessions show about a topic. */
  function ShownOver(feeds: seq<seq<seq<byte>>>, t: Name): seq<Message>
    requires forall n :: 0 <= n < |feeds| ==> RxLegal(feeds[n])
  {
    if feeds == [] then []
    else ShownOver(feeds[..|feeds| - 1], t) + About(Shown(RxRun(feeds[|feeds| - 1]).handled), t)
  }

  lemma {:induction false} ShownIsDelivered(r: Rules, es: seq<Event>, sessions: seq<nat>,
                                            feeds: seq<seq<seq<byte>>>, t: Name)
    requires Legal(r, es) && Drained(Run(r, es), sessions, feeds)
    ensures ShownOver(feeds, t) == DeliveredOn(Run(r, es).conns, sessions, t)
  {
    if feeds != [] {
      var n := |feeds| - 1;
      ShownIsDelivered(r, es, sessions[..n], feeds[..n], t);
      ConnectionEndToEnd(r, es, sessions[n], feeds[n]);
      AboutTopic(Run(r, es).conns[sessions[n]].wire, t);
    }
  }

  /**
   End to end, under any rules: however the kernel cuts up the sockets' bytes, if delivery is exact then so
   is what the client's processes have shown on the topic, over all its sessions.
   */
  lemma {:induction false} ShownIfExact(r: Rules, es: seq<Event>, k: nat, i: nat, t: Name,
                                        feeds: seq<seq<seq<byte>>>)
    requires Legal(r, es) && ExactSince(r, es, k, i, t)
    requires Drained(Run(r, es), Run(r, es).clients[i].sessions, feeds)
    ensures ShownOver(feeds, t) == Delivered(Run(r, es[..k + 1]), i, t) +
                                   Published(es[k + 1..], t)[..Due(Since(r, es, k, t), i)]
  {
    ShownIsDelivered(r, es, Run(r, es).clients[i].sessions, feeds, t);
  }

  /**
   Exactly once, end to end: with the intended rules, a client that subscribed with SF and is connected
   has been shown on the topic, over all its sessions, what it had been sent before followed by everything
   published since, once and in order; one that is away has been shown what was published until it left.
   */
  lemma {:induction false} ShownExactlyOnce(es: seq<Event>, k: nat, i: nat, t: Name, feeds: seq<seq<seq<byte>>>)
    requires Legal(REPAIRED, es)
    requires Subscribes(REPAIRED, es, k, i, true, t) && KeepsSubscription(REPAIRED, es, k, i, t)
    requires i < |Run(REPAIRED, es).clients|
    requires Drained(Run(REPAIRED, es), Run(REPAIRED, es).clients[i].sessions, feeds)
    ensures i < |Run(REPAIRED, es[..k + 1]).clients|
    ensures var before := Delivered(Run(REPAIRED, es[..k + 1]), i, t);
            var due := Due(Since(REPAIRED, es, k, t), i);
            && due <= |Published(es[k + 1..], t)|
            && ShownOver(feeds, t) == before + Published(es[k + 1..], t)[..due]
            && (Run(REPAIRED, es).clients[i].connected ==> ShownOver(feeds, t) == before + Published(es[k + 1..], t))
  {
    ExactlyOnce(REPAIRED, es, k, i, t);
    ShownIfExact(REPAIRED, es, k, i, t, feeds);
  }

  /** And by the code exactly as written, to a client that has not hung up, if every reconnection is one that fits. */
  lemma {:induction false} ShownByCode(es: seq<Event>, k: nat, i: nat, t: Name, feeds: seq<seq<seq<byte>>>)
    requires Legal(AS_WRITTEN, es) && StaysUp(AS_WRITTEN, es, i) && CountHolds(AS_WRITTEN, es, k, t)
    requires Subscribes(AS_WRITTEN, es, k, i, true, t) && KeepsSubscription(AS_WRITTEN, es, k, i, t)
    requires SessionsFit(Since(AS_WRITTEN, es, k, t), i, LoggedAt(AS_WRITTEN, es, k, t))
    requires i < |Run(AS_WRITTEN, es).clients|
    requires Drained(Run(AS_WRITTEN, es), Run(AS_WRITTEN, es).clients[i].sessions, feeds)
    ensures ExactSince(AS_WRITTEN, es, k, i, t)
    ensures ShownOver(feeds, t) == Delivered(Run(AS_WRITTEN, es[..k + 1]), i, t) +
                                   Published(es[k + 1..], t)[..Due(Since(AS_WRITTEN, es, k, t), i)]
  {
    ExactlyOnceInCode(es, k, i, t);
    ShownIfExact(AS_WRITTEN, es, k, i, t, feeds);
  }

  // ---------- at any moment ----------

  /** Every session but the last is drained, and the last has been fed part of what was written to it. */
  ghost predicate Fed(s: State, sessions: seq<nat>, feeds: seq<seq<seq<byte>>>)
  {
    && |feeds| == |sessions| > 0
    && Drained(s, sessions[..|sessions| - 1], feeds[..|feeds| - 1])
    && var c, feed := sessions[|sessions| - 1], feeds[|feeds| - 1];
       c < |s.conns| && RxLegal(feed) && Concat(feed) <= WireBytes(s.conns[c].wire)
  }

  function ShownSoFar(s: State, sessions: seq<nat>, feeds: seq<seq<seq<byte>>>, t: Name): seq<Message>
    requires Fed(s, sessions, feeds)
  {
    ShownOver(feeds[..|feeds| - 1], t) + About(Shown(RxRun(feeds[|feeds| - 1]).handled), t)
  }

  lemma PrefixAfter<T>(a: seq<T>, x: seq<T>, y: seq<T>)
    requires x <= y
    ensures a + x <= a + y
  {
  }

  lemma {:induction false} ShownIsPrefix(r: Rules, es: seq<Event>, sessions: seq<nat>,
                                         feeds: seq<seq<seq<byte>>>, t: Name)
    requires Legal(r, es) && Fed(Run(r, es), sessions, feeds)
    ensures ShownSoFar(Run(r, es), sessions, feeds, t) <= DeliveredOn(Run(r, es).conns, sessions, t)
  {
    var n := |feeds| - 1;
    var wire := Run(r, es).conns[sessions[n]].wire;
    ShownIsDelivered(r, es, sessions[..n], feeds[..n], t);
    ConnectionEndToEnd(r, es, sessions[n], feeds[n]);
    AboutPrefix(Shown(RxRun(feeds[n]).handled), Messages(wire), t);
    AboutTopic(wire, t);
    PrefixAfter(ShownOver(feeds[..n], t), About(Shown(RxRun(feeds[n]).handled), t), OnTopic(wire, t));
  }

  /**
   At any moment, whatever has come through of the last session, under any rules: if delivery is exact,
   what a client's processes have shown is a first part of it.
   */
  lemma {:induction false} ShownInOrderIfExact(r: Rules, es: seq<Event>, k: nat, i: nat, t: Name,
                                               feeds: seq<seq<seq<byte>>>)
    requires Legal(r, es) && ExactSince(r, es, k, i, t)
    requires Fed(Run(r, es), Run(r, es).clients[i].sessions, feeds)
    ensures ShownSoFar(Run(r, es), Run(r, es).clients[i].sessions, feeds, t) <=
            Delivered(Run(r, es[..k + 1]), i, t) + Published(es[k + 1..], t)[..Due(Since(r, es, k, t), i)]
  {
    ShownIsPrefix(r, es, Run(r, es).clients[i].sessions, feeds, t);
  }

  /**
   At any moment, whatever has come through of the last session: what a client that subscribed with SF
   has been shown on the topic is a first part of what it had been sent before followed by what is due
   to it since, so nothing is ever shown twice, out of order, or after a gap.
   */
  lemma {:induction false} ShownInOrder(es: seq<Event>, k: nat, i: nat, t: Name, feeds: seq<seq<seq<byte>>>)
    requires Legal(REPAIRED, es)
    requires Subscribes(REPAIRED, es, k, i, true, t) && KeepsSubscription(REPAIRED, es, k, i, t)
    requires i < |Run(REPAIRED, es).clients|
    requires Fed(Run(REPAIRED, es), Run(REPAIRED, es).clients[i].sessions, feeds)
    ensures ExactSince(REPAIRED, es, k, i, t)
    ensures ShownSoFar(Run(REPAIRED, es), Run(REPAIRED, es).clients[i].sessions, feeds, t) <=
            Delivered(Run(REPAIRED, es[..k + 1]), i, t) +
            Published(es[k + 1..], t)[..Due(Since(REPAIRED, es, k, t), i)]
  {
    ExactlyOnce(REPAIRED, es, k, i, t);
    ShownInOrderIfExact(REPAIRED, es, k, i, t, feeds);
  }

  /** And by the code exactly as written, as in `ShownByCode`. */
  lemma {:induction false} ShownInOrderByCode(es: seq<Event>, k: nat, i: nat, t: Name, feeds: seq<seq<seq<byte>>>)
    requires Legal(AS_WRITTEN, es) && StaysUp(AS_WRITTEN, es, i) && CountHolds(AS_WRITTEN, es, k, t)
    requires Subscribes(AS_WRITTEN, es, k, i, true, t) && KeepsSubscription(AS_WRITTEN, es, k, i, t)
    requires SessionsFit(Since(AS_WRITTEN, es, k, t), i, LoggedAt(AS_WRITTEN, es, k, t))
    requires i < |Run(AS_WRITTEN, es).clients|
    requires Fed(Run(AS_WRITTEN, es), Run(AS_WRITTEN, es).clients[i].sessions, feeds)
    ensures ExactSince(AS_WRITTEN, es, k, i, t)
    ensures ShownSoFar(Run(AS_WRITTEN, es), Run(AS_WRITTEN, es).clients[i].sessions, feeds, t) <=
            Delivered(Run(AS_WRITTEN, es[..k + 1]), i, t) +
            Published(es[k + 1..], t)[..Due(Since(AS_WRITTEN, es, k, t), i)]
  {
    ExactlyOnceInCode(es, k, i, t);
    ShownInOrderIfExact(AS_WRITTEN, es, k, i, t, feeds);
  }

  // ---------- how a session ends ----------

  ghost predicate NoneStops(fs: seq<Frame>)
  {
    forall k :: 0 <= k < |fs| ==> !Stops(fs[k])
  }

  ghost predicate NoneEnds(fs: seq<Frame>)
  {
    forall k :: 0 <= k < |fs| ==> fs[k].flags != 0x80
  }

  lemma NoneMore(fs: seq<Frame>, f: Frame)
    ensures NoneStops(fs + [f]) <==> NoneStops(fs) && !Stops(f)
    ensures NoneEnds(fs + [f]) <==> NoneEnds(fs) && f.flags != 0x80
  {
    assert forall k :: 0 <= k < |fs| ==> (fs + [f])[k] == fs[k];
    assert (fs + [f])[|fs|] == f;
  }

  /** The process runs until a frame stops it, and its socket is open until a CONN_END. */
  ghost predicate AsHandled(x: Rx)
  {
    (x.running <==> NoneStops(x.handled)) && (x.socketOpen <==> NoneEnds(x.handled))
  }

  lemma HandledOne(x: Rx, f: Frame)
    requires AsHandled(x)
    ensures AsHandled(Handle(x, f))
  {
    NoneMore(x.handled, f);
  }

  lemma HandledStep(x: Rx, chunk: seq<byte>)
    requires AsHandled(x) && Deliverable(x, chunk)
    ensures AsHandled(RxStep(x, chunk))
  {
    if x.need == 0 {
      var y := x.(need := LengthField(chunk), buf := chunk, action := FlagsField(chunk));
      HandledOne(y, RawFrame.Frame(y.action, []));
    } else {
      var y := x.(got := x.got + |chunk|, buf := x.buf + chunk);
      if y.got == y.need - HEADER_LEN { HandledOne(y, RawFrame.Frame(y.action, y.buf[HEADER_LEN..])); }
    }
  }

  lemma {:induction false} StoppedByFrames(chunks: seq<seq<byte>>)
    requires RxLegal(chunks)
    ensures AsHandled(RxRun(chunks))
  {
    if chunks != [] {
      var n := |chunks| - 1;
      StoppedByFrames(chunks[..n]);
      HandledStep(RxRun(chunks[..n]), chunks[n]);
    }
  }

  lemma PacketsStop(wire: seq<Packet>)
    ensures NoneStops(Frames(wire)) <==> AllNew(wire)
    ensures NoneEnds(Frames(wire)) <==> ConnEnd !in wire
  {
    assert forall p: Packet :: (Stops(FrameOf(p)) <==> !p.MsgNew?) && (FrameOf(p).flags == 0x80 <==> p.ConnEnd?);
    assert forall k :: 0 <= k < |wire| ==> Frames(wire)[k] == FrameOf(wire[k]);
  }

  /**
   Once it has read what is on its connection, a process is still running exactly if it was sent nothing
   but messages, and its socket is open exactly if it was sent no CONN_END.
   */
  lemma {:induction false} StoppedByPackets(r: Rules, es: seq<Event>, a: nat, chunks: seq<seq<byte>>)
    requires Legal(r, es) && a < |Run(r, es).conns|
    requires RxLegal(chunks) && Concat(chunks) == WireBytes(Run(r, es).conns[a].wire)
    ensures RxRun(chunks).running <==> AllNew(Run(r, es).conns[a].wire)
    ensures RxRun(chunks).socketOpen <==> ConnEnd !in Run(r, es).conns[a].wire
  {
    var wire := Run(r, es).conns[a].wire;
    SessionGrammarOverRuns(r, es, a);
    GrammarStopsLast(wire);
    ServerStreamReadable(wire);
    ChunkIndependence(Frames(wire), chunks);
    StoppedByFrames(chunks);
    PacketsStop(wire);
  }

  lemma MessagesThenEnd(wire: seq<Packet>, p: Packet)
    requires !p.MsgNew?
    ensures Messages(wire + [p]) == Messages(wire)
  {
    assert (wire + [p])[..|wire|] == wire;
  }

  /**
   When the server exits, the process behind each open connection of a connected record, once it has read
   what is left on it, has shown all that was sent there, has stopped and has closed its socket.
   */
  lemma {:induction false} ExitStopsClients(r: Rules, es: seq<Event>, a: nat, chunks: seq<seq<byte>>)
    requires Legal(r, es + [Exit]) && a < |Run(r, es).conns|
    requires Run(r, es).conns[a].open && ServedOn(Run(r, es).clients, Run(r, es).conns[a].fd)
    requires a < |Run(r, es + [Exit]).conns|
    requires RxLegal(chunks) && Concat(chunks) == WireBytes(Run(r, es + [Exit]).conns[a].wire)
    ensures !RxRun(chunks).running && !RxRun(chunks).socketOpen
    ensures Shown(RxRun(chunks).handled) == Messages(Run(r, es).conns[a].wire)
  {
    var wire := Run(r, es).conns[a].wire;
    EffectsOverRuns(r, es, Exit, INIT);
    StoppedByPackets(r, es + [Exit], a, chunks);
    ConnectionEndToEnd(r, es + [Exit], a, chunks);
    MessagesThenEnd(wire, ConnEnd);
    assert (wire + [ConnEnd])[|wire|] == ConnEnd;
  }

  /**
   A process that asks, on a connection of its own, for an id in use has stopped once it has read the
   answer, and has shown nothing.
   */
  lemma {:induction false} RefusalStopsClient(r: Rules, es: seq<Event>, e: Event, a: nat, j: nat,
                                              chunks: seq<seq<byte>>)
    requires Legal(r, es + [e]) && e.Receive? && e.cmd.ConnReq? && NobodyHolds(Run(r, es).clients, e.fd)
    requires OpenOn(Run(r, es).conns, a, e.fd)
    requires Named(Run(r, es).clients, j, e.cmd.id) && Run(r, es).clients[j].connected
    requires a < |Run(r, es + [e]).conns|
    requires RxLegal(chunks) && Concat(chunks) == WireBytes(Run(r, es + [e]).conns[a].wire)
    ensures !RxRun(chunks).running && Shown(RxRun(chunks).handled) == []
    ensures Run(r, es + [e]).conns[a].wire == [ConnNo] && !Run(r, es + [e]).conns[a].open
  {
    var s := Run(r, es);
    EffectsOverRuns(r, es, e, INIT);
    RunMore(r, es, e);
    RunSound(r, es);
    assert WireOk(s.conns[a], s.clients);
    HolderIsOne(s.clients, e.fd);
    StoppedByPackets(r, es + [e], a, chunks);
    ConnectionEndToEnd(r, es + [e], a, chunks);
    MessagesThenEnd([], ConnNo);
  }
}
