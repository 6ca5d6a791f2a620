/**
 The order in which a replay visits the unordered map of topics is never seen: it interleaves the topics
 differently on the wire, and nothing else.
 */
module ReplayOrder {
  import opened Protocol
  import opened BrokerSpec
  import opened AnyRules
  import opened Lane
  import opened Projection

  function WithOrder(e: Event, order: seq<Name>): Event
  {
    if e.Receive? then e.(order := order) else e
  }

  ghost predicate SameButOrder(es: seq<Event>, fs: seq<Event>)
  {
    |es| == |fs| && forall k :: 0 <= k < |es| ==> WithOrder(es[k], []) == WithOrder(fs[k], [])
  }

  /** The packets that are not messages. */
  function Controls(wire: seq<Packet>): seq<Packet>
  {
    if wire == [] then []
    else
      var p := wire[|wire| - 1];
      Controls(wire[..|wire| - 1]) + if p.MsgNew? then [] else [p]
  }

  /** The same connection, with the same messages of each topic on it, in the same order, and the same other packets. */
  ghost predicate SameConn(c: Conn, d: Conn)
  {
    && c.fd == d.fd && c.open == d.open && c.owner == d.owner
    && Controls(c.wire) == Controls(d.wire)
    && forall t :: OnTopic(c.wire, t) == OnTopic(d.wire, t)
  }

  ghost predicate SameConns(conns: seq<Conn>, cs: seq<Conn>)
  {
    |conns| == |cs| && forall a :: 0 <= a < |conns| ==> SameConn(conns[a], cs[a])
  }

  /** The same state, except that wires need to agree topic by topic only. */
  ghost predicate SameState(s: State, u: State)
  {
    s.clients == u.clients && s.topics == u.topics && s.running == u.running && SameConns(s.conns, u.conns)
  }

  // ---------- sockets ----------

  lemma {:induction false} ControlsAppend(w: seq<Packet>, ps: seq<Packet>)
    ensures Controls(w + ps) == Controls(w) + Controls(ps)
  {
    if ps == [] {
      assert w + ps == w;
    } else {
      assert (w + ps)[..|w + ps| - 1] == w + ps[..|ps| - 1];
      ControlsAppend(w, ps[..|ps| - 1]);
    }
  }

  lemma {:induction false} NewsHasNoControls(ms: seq<Message>)
    ensures Controls(News(ms)) == []
  {
    if ms != [] {
      NewsLast(ms);
      NewsHasNoControls(ms[..|ms| - 1]);
    }
  }

  lemma SendOnSame(c: Conn, d: Conn, fd: int, ps: seq<Packet>)
    requires SameConn(c, d)
    ensures SameConn(SendOn(c, fd, ps), SendOn(d, fd, ps))
  {
    ControlsAppend(c.wire, ps);
    ControlsAppend(d.wire, ps);
    forall t ensures OnTopic(SendOn(c, fd, ps).wire, t) == OnTopic(SendOn(d, fd, ps).wire, t) {
      OnTopicAppend(c.wire, ps, t);
      OnTopicAppend(d.wire, ps, t);
    }
  }

  lemma {:induction false} SendSame(conns: seq<Conn>, cs: seq<Conn>, fd: int, ps: seq<Packet>)
    requires SameConns(conns, cs)
    ensures SameConns(Send(conns, fd, ps), Send(cs, fd, ps))
  {
    forall a | 0 <= a < |conns| ensures SameConn(Send(conns, fd, ps)[a], Send(cs, fd, ps)[a]) {
      SendOnSame(conns[a], cs[a], fd, ps);
    }
  }

  lemma {:induction false} CloseSame(conns: seq<Conn>, cs: seq<Conn>, fd: int)
    requires SameConns(conns, cs)
    ensures SameConns(Close(conns, fd), Close(cs, fd))
  {
    forall a | 0 <= a < |conns| ensures SameConn(Close(conns, fd)[a], Close(cs, fd)[a]) {
      assert SameConn(conns[a], cs[a]);
    }
  }

  lemma {:induction false} FanOutSame(conns: seq<Conn>, cs: seq<Conn>, clients: seq<ClientRec>,
                                      subs: seq<Entry>, m: Message)
    requires SameConns(conns, cs)
    ensures SameConns(FanOut(conns, clients, subs, m), FanOut(cs, clients, subs, m))
  {
    if subs != [] {
      var n := |subs| - 1;
      FanOutSame(conns, cs, clients, subs[..n], m);
      if IsOn(clients, subs[n].client) {
        SendSame(FanOut(conns, clients, subs[..n], m), FanOut(cs, clients, subs[..n], m),
                 clients[subs[n].client].fd, [MsgNew(m)]);
      }
    }
  }

  lemma {:induction false} EndAllSame(conns: seq<Conn>, cs: seq<Conn>, clients: seq<ClientRec>)
    requires SameConns(conns, cs)
    ensures SameConns(EndAll(conns, clients), EndAll(cs, clients))
  {
    if clients != [] {
      var n := |clients| - 1;
      var xs, ys, fd := EndAll(conns, clients[..n]), EndAll(cs, clients[..n]), clients[n].fd;
      EndAllSame(conns, cs, clients[..n]);
      SendSame(xs, ys, fd, [ConnEnd]);
      CloseSame(Send(xs, fd, [ConnEnd]), Send(ys, fd, [ConnEnd]), fd);
    }
  }

  lemma FindOpenSame(conns: seq<Conn>, cs: seq<Conn>, fd: int)
    requires SameConns(conns, cs)
    ensures FindOpen(conns, fd) == FindOpen(cs, fd) && IsOpen(conns, fd) == IsOpen(cs, fd)
  {
    assert forall a :: 0 <= a < |conns| ==> SameConn(conns[a], cs[a]);
  }

  lemma {:induction false} AttachSame(s: State, u: State, i: nat, fd: int)
    requires SameState(s, u) && i < |s.clients|
    ensures SameState(Attach(s, i, fd), Attach(u, i, fd))
  {
    FindOpenSame(s.conns, u.conns, fd);
    var s', u' := Attach(s, i, fd), Attach(u, i, fd);
    forall a | 0 <= a < |s.conns| ensures SameConn(s'.conns[a], u'.conns[a]) {
      assert SameConn(s.conns[a], u.conns[a]);
    }
  }

  lemma {:induction false} RefuseSame(s: State, u: State, fd: int)
    requires SameState(s, u)
    ensures SameState(Refuse(s, fd), Refuse(u, fd))
  {
    SendSame(s.conns, u.conns, fd, [ConnNo]);
    CloseSame(Send(s.conns, fd, [ConnNo]), Send(u.conns, fd, [ConnNo]), fd);
  }

  // ---------- replay, connection by connection ----------

  /** What a replay to client i owes connection c on topic t. */
  function OwedOn(s: State, i: nat, c: Conn, t: Name): seq<Message>
    requires i < |s.clients|
  {
    if c.open && c.fd == s.clients[i].fd then Owed(TopicAt(s, t), i) else []
  }

  lemma {:induction false} ReplayTopicWire(r: Rules, s: State, i: nat, u: Name, a: nat, t: Name)
    requires SoundState(s) && IsOn(s.clients, i) && u in s.topics && a < |s.conns|
    ensures |ReplayTopic(r, s, i, u).conns| == |s.conns|
    ensures OnTopic(ReplayTopic(r, s, i, u).conns[a].wire, t)
         == OnTopic(s.conns[a].wire, t) + if u == t then OwedOn(s, i, s.conns[a], t) else []
  {
    var owed := Owed(s.topics[u], i);
    ReplayTopicByPointer(r, s, i, u);
    assert TopicInv(s.topics[u], u, |s.clients|);
    OnTopicNews(owed, u, t);
    OnTopicAppend(s.conns[a].wire, News(owed), t);
  }

  /** A replay over an order that visits no topic twice, on one connection: each topic visited is sent once. */
  lemma {:induction false} ReplayWire(r: Rules, s: State, i: nat, order: seq<Name>, a: nat, t: Name)
    requires SoundState(s) && IsOn(s.clients, i) && a < |s.conns|
    requires forall u :: u in order ==> u in s.topics
    requires forall b, c :: 0 <= b < c < |order| ==> order[b] != order[c]
    ensures |Replay(r, s, i, order).conns| == |s.conns|
    ensures OnTopic(Replay(r, s, i, order).conns[a].wire, t)
         == OnTopic(s.conns[a].wire, t) + if t in order then OwedOn(s, i, s.conns[a], t) else []
  {
    if order != [] {
      var n, j := |order| - 1, |s.clients|;
      var s' := Replay(r, s, i, order[..n]);
      assert order == order[..n] + [order[n]];
      ReplayWire(r, s, i, order[..n], a, t);
      ReplayOn(r, s, i, order[..n], j, t);
      ReplayKeepsSound(r, s, i, order[..n], j);
      ReplaySameSockets(r, s, i, order[..n]);
      ReplayTopicWire(r, s', i, order[n], a, t);
      AppendedOnce(OnTopic(s.conns[a].wire, t), OnTopic(s'.conns[a].wire, t),
                   OnTopic(Replay(r, s, i, order).conns[a].wire, t), OwedOn(s, i, s.conns[a], t),
                   t in order[..n], order[n] == t);
    }
  }

  ghost predicate Replayable(s: State, i: nat, order: seq<Name>)
  {
    SoundState(s) && IsOn(s.clients, i) && IsOrder(s.topics.Keys, order)
  }

  /** A replay to client i does its part for every topic. */
  lemma {:induction false} ReplayTopicAt(r: Rules, s: State, i: nat, order: seq<Name>, t: Name)
    requires Replayable(s, i, order)
    ensures Replay(r, s, i, order).topics.Keys == s.topics.Keys
    ensures t in s.topics ==> Replay(r, s, i, order).topics[t] == Repaid(r, s.topics[t], i)
  {
    ReplayKeepsSound(r, s, i, order, |s.clients|);
    ReplayOn(r, s, i, order, |s.clients|, t);
  }

  lemma {:induction false} ReplayTopicsSame(r: Rules, s: State, u: State, i: nat, o: seq<Name>, p: seq<Name>)
    requires SameState(s, u) && Replayable(s, i, o) && Replayable(u, i, p)
    ensures Replay(r, s, i, o).topics == Replay(r, u, i, p).topics
  {
    var ts, us := Replay(r, s, i, o).topics, Replay(r, u, i, p).topics;
    ReplayTopicAt(r, s, i, o, []);
    ReplayTopicAt(r, u, i, p, []);
    forall t | t in ts ensures ts[t] == us[t] {
      ReplayTopicAt(r, s, i, o, t);
      ReplayTopicAt(r, u, i, p, t);
    }
  }

  lemma {:induction false} ReplayConnSame(r: Rules, s: State, u: State, i: nat, o: seq<Name>, p: seq<Name>, a: nat)
    requires SameState(s, u) && Replayable(s, i, o) && Replayable(u, i, p) && a < |s.conns|
    ensures |Replay(r, s, i, o).conns| == |Replay(r, u, i, p).conns| == |s.conns|
    ensures forall t ::
              OnTopic(Replay(r, s, i, o).conns[a].wire, t) == OnTopic(Replay(r, u, i, p).conns[a].wire, t)
  {
    ReplaySameSockets(r, s, i, o);
    ReplaySameSockets(r, u, i, p);
    assert SameConn(s.conns[a], u.conns[a]);
    forall t ensures OnTopic(Replay(r, s, i, o).conns[a].wire, t) == OnTopic(Replay(r, u, i, p).conns[a].wire, t) {
      ReplayWire(r, s, i, o, a, t);
      ReplayWire(r, u, i, p, a, t);
    }
  }

  /** All that a replay does to a connection is to send messages on it. */
  ghost predicate OnlyNews(c: Conn, d: Conn)
  {
    d.fd == c.fd && d.open == c.open && d.owner == c.owner && Controls(d.wire) == Controls(c.wire)
  }

  lemma SendIsOnlyNews(c: Conn, fd: int, ms: seq<Message>)
    ensures OnlyNews(c, SendOn(c, fd, News(ms)))
  {
    ControlsAppend(c.wire, News(ms));
    NewsHasNoControls(ms);
  }

  lemma {:induction false} ReplayIsOnlyNews(r: Rules, s: State, i: nat, order: seq<Name>, a: nat)
    requires i < |s.clients| && a < |s.conns|
    ensures |Replay(r, s, i, order).conns| == |s.conns|
    ensures OnlyNews(s.conns[a], Replay(r, s, i, order).conns[a])
  {
    if order != [] {
      var s', t := Replay(r, s, i, order[..|order| - 1]), order[|order| - 1];
      ReplayIsOnlyNews(r, s, i, order[..|order| - 1], a);
      var topic := TopicAt(s', t);
      var k := FindEntryById(s'.clients, topic.subs, s'.clients[i].id);
      if k < |topic.subs| {
        SendIsOnlyNews(s'.conns[a], s'.clients[i].fd, Missing(topic.log, topic.subs[k].cursor));
      }
    }
  }

  /** Replays that visit the topics in different orders leave the same state. */
  lemma {:induction false} ReplaySame(r: Rules, s: State, u: State, i: nat, o: seq<Name>, p: seq<Name>)
    requires SameState(s, u) && Replayable(s, i, o) && Replayable(u, i, p)
    ensures SameState(Replay(r, s, i, o), Replay(r, u, i, p))
  {
    var s', u' := Replay(r, s, i, o), Replay(r, u, i, p);
    ReplayTopicsSame(r, s, u, i, o, p);
    ReplaySameSockets(r, s, i, o);
    ReplaySameSockets(r, u, i, p);
    forall a | 0 <= a < |s.conns| ensures SameConn(s'.conns[a], u'.conns[a]) {
      assert SameConn(s.conns[a], u.conns[a]);
      ReplayIsOnlyNews(r, s, i, o, a);
      ReplayIsOnlyNews(r, u, i, p, a);
      ReplayConnSame(r, s, u, i, o, p, a);
    }
  }

  // ---------- events ----------

  lemma {:induction false} ReconnectSame(r: Rules, s: State, u: State, i: nat, fd: int, o: seq<Name>, p: seq<Name>)
    requires SameState(s, u) && SoundState(s) && SoundState(u)
    requires i < |s.clients| && !s.clients[i].connected
    requires IsOpen(s.conns, fd) && !Held(s.clients, fd)
    requires IsOrder(s.topics.Keys, o) && IsOrder(s.topics.Keys, p)
    ensures SameState(Replay(r, Attach(s, i, fd), i, o), Replay(r, Attach(u, i, fd), i, p))
  {
    FindOpenSame(s.conns, u.conns, fd);
    AttachSame(s, u, i, fd);
    AttachSound(s, i, fd);
    AttachSound(u, i, fd);
    ReplaySame(r, Attach(s, i, fd), Attach(u, i, fd), i, o, p);
  }

  lemma {:induction false} RequestSame(r: Rules, s: State, u: State, fd: int, cmd: Command,
                                       o: seq<Name>, p: seq<Name>)
    requires SameState(s, u) && SoundState(s) && SoundState(u)
    requires IsOpen(s.conns, fd) && !Held(s.clients, fd)
    requires IsOrder(s.topics.Keys, o) && IsOrder(s.topics.Keys, p)
    ensures SameState(HandleNewConnection(r, s, fd, cmd, o), HandleNewConnection(r, u, fd, cmd, p))
  {
    if cmd.ConnReq? {
      var i := FindId(s.clients, cmd.id);
      if i == |s.clients| {
        var cs := s.clients + [ClientRec(cmd.id, -1, false, [])];
        AttachSame(s.(clients := cs), u.(clients := cs), i, fd);
      } else if s.clients[i].connected {
        RefuseSame(s, u, fd);
      } else {
        ReconnectSame(r, s, u, i, fd, o, p);
      }
    }
  }

  lemma {:induction false} CommandSame(r: Rules, s: State, u: State, i: nat, cmd: Command,
                                       o: seq<Name>, p: seq<Name>, stale: bool)
    requires SameState(s, u) && SoundState(s) && SoundState(u) && IsOn(s.clients, i)
    ensures SameState(HandleComplete(r, s, i, cmd, o, stale), HandleComplete(r, u, i, cmd, p, stale))
  {
    match cmd
    case ConnReq(_) =>
      ConnReqChangesNothing(r, s, i, o);
      ConnReqChangesNothing(r, u, i, p);
    case Quit => CloseSame(s.conns, u.conns, s.clients[i].fd);
    case _ =>
  }

  lemma AcceptSame(s: State, u: State, fd: int)
    requires SameState(s, u)
    ensures SameConns(s.conns + [Conn(fd, true, -1, [])], u.conns + [Conn(fd, true, -1, [])])
  {
  }

  lemma {:induction false} HangupSame(r: Rules, s: State, u: State, fd: int)
    requires SameState(s, u)
    ensures SameState(HandleHangup(r, s, fd), HandleHangup(r, u, fd))
  {
    var i := FindFd(s.clients, fd);
    CloseSame(s.conns, u.conns, fd);
  }

  lemma {:induction false} StepSame(r: Rules, s: State, u: State, e: Event, f: Event)
    requires SameState(s, u) && SoundState(s) && SoundState(u)
    requires Enabled(s, e) && Enabled(u, f) && WithOrder(e, []) == WithOrder(f, [])
    ensures SameState(Step(r, s, e), Step(r, u, f))
  {
    match e
    case Accept(fd) => AcceptSame(s, u, fd);
    case Receive(fd, cmd, o, stale) =>
      OpenFd(s.clients, s.conns, fd);
      if Held(s.clients, fd) {
        CommandSame(r, s, u, FindFd(s.clients, fd), cmd, o, f.order, stale);
      } else {
        RequestSame(r, s, u, fd, cmd, o, f.order);
      }
    case Hangup(fd) => HangupSame(r, s, u, fd);
    case Datagram(m) => FanOutSame(s.conns, u.conns, s.clients, TopicAt(s, KeyOf(m)).subs, m);
    case Exit => EndAllSame(s.conns, u.conns, s.clients);
  }

  lemma {:induction false} RunSame(r: Rules, es: seq<Event>, fs: seq<Event>)
    requires Legal(r, es) && Legal(r, fs) && SameButOrder(es, fs)
    ensures SameState(Run(r, es), Run(r, fs))
  {
    if es != [] {
      var n := |es| - 1;
      RunSame(r, es[..n], fs[..n]);
      RunSound(r, es[..n]);
      RunSound(r, fs[..n]);
      assert WithOrder(es[n], []) == WithOrder(fs[n], []);
      StepSame(r, Run(r, es[..n]), Run(r, fs[..n]), es[n], fs[n]);
    }
  }

  lemma {:induction false} DeliveredSame(conns: seq<Conn>, cs: seq<Conn>, sessions: seq<nat>, t: Name)
    requires SameConns(conns, cs)
    ensures DeliveredOn(conns, sessions, t) == DeliveredOn(cs, sessions, t)
  {
    if sessions != [] {
      var n := |sessions| - 1;
      DeliveredSame(conns, cs, sessions[..n], t);
      if sessions[n] < |conns| { assert SameConn(conns[sessions[n]], cs[sessions[n]]); }
    }
  }

  lemma {:induction false} ProjectSame(s: State, u: State, t: Name)
    requires SameState(s, u)
    ensures Project(s, t) == Project(u, t)
  {
    forall i | 0 <= i < |s.clients| ensures Delivered(s, i, t) == Delivered(u, i, t) {
      DeliveredSame(s.conns, u.conns, s.clients[i].sessions, t);
    }
  }

  /**
   Under any rules, runs that differ only in the orders in which replays visit the topics end with the
   same records, topics and connections, the same messages of each topic and the same other packets on
   every connection, whoever has hung up on it, and so the same view of each topic.
   */
  lemma {:induction false} OrderIsIrrelevant(r: Rules, es: seq<Event>, fs: seq<Event>, t: Name)
    requires Legal(r, es) && Legal(r, fs) && SameButOrder(es, fs)
    ensures SameState(Run(r, es), Run(r, fs))
    ensures Project(Run(r, es), t) == Project(Run(r, fs), t)
  {
    RunSame(r, es, fs);
    ProjectSame(Run(r, es), Run(r, fs), t);
  }
}
