/**
 What every event keeps whatever the rules in force: distinct descriptors among the records, and on
 every open socket that no record holds, nothing. With it, what a record that has never hung up as
 written can count on.
 */
module AnyRules {
  import opened Protocol
  import opened BrokerSpec

  // ---------- runs ----------

  lemma RunMore(r: Rules, es: seq<Event>, e: Event)
    ensures Run(r, es + [e]) == Step(r, Run(r, es), e)
    ensures Legal(r, es + [e]) <==> Legal(r, es) && Enabled(Run(r, es), e)
  {
    assert (es + [e])[..|es|] == es;
  }

  lemma {:induction false} LegalPrefix(r: Rules, es: seq<Event>, k: nat)
    requires Legal(r, es) && k <= |es|
    ensures Legal(r, es[..k])
    ensures Run(r, es).running ==> Run(r, es[..k]).running
  {
    if k == |es| {
      assert es[..k] == es;
    } else {
      LegalPrefix(r, es[..|es| - 1], k);
      assert es[..|es| - 1][..k] == es[..k];
    }
  }

  lemma RunAt(r: Rules, es: seq<Event>, k: nat)
    requires Legal(r, es) && k < |es|
    ensures Run(r, es[..k + 1]) == Step(r, Run(r, es[..k]), es[k])
    ensures Enabled(Run(r, es[..k]), es[k])
  {
    LegalPrefix(r, es, k + 1);
    assert es[..k + 1][..k] == es[..k];
  }

  lemma StepRunsUntilExit(r: Rules, s: State, e: Event)
    requires s.running
    ensures Step(r, s, e).running == !e.Exit?
  {
  }

  // ---------- the invariant ----------

  ghost predicate AllNew(wire: seq<Packet>)
  {
    forall k :: 0 <= k < |wire| ==> wire[k].MsgNew?
  }

  /** The session grammar: one refusal, or any number of messages optionally ended by one CONN_END. */
  ghost predicate SessionGrammar(wire: seq<Packet>)
  {
    || wire == [ConnNo]
    || AllNew(wire)
    || (wire != [] && AllNew(wire[..|wire| - 1]) && wire[|wire| - 1] == ConnEnd)
  }

  ghost predicate IdsDistinct(clients: seq<ClientRec>)
  {
    forall i, j :: 0 <= i < j < |clients| ==> clients[i].id != clients[j].id
  }

  ghost predicate FdsDistinct(conns: seq<Conn>)
  {
    forall a, b :: 0 <= a < |conns| && 0 <= b < |conns| && conns[a].open && conns[b].open && conns[a].fd == conns[b].fd
      ==> a == b
  }

  ghost predicate TopicInv(topic: Topic, t: Name, clients: nat)
  {
    && (forall k :: 0 <= k < |topic.log| ==> KeyOf(topic.log[k]) == t)
    && (forall k :: 0 <= k < |topic.subs| ==> topic.subs[k].client < clients && topic.subs[k].cursor >= -1)
  }

  ghost predicate TopicsInv(topics: map<Name, Topic>, clients: nat)
  {
    forall t :: t in topics ==> TopicInv(topics[t], t, clients)
  }

  /** Connected records have pairwise distinct descriptors; the others have none. */
  ghost predicate RecordsOk(clients: seq<ClientRec>)
  {
    && IdsDistinct(clients)
    && (forall i :: 0 <= i < |clients| ==> if clients[i].connected then clients[i].fd >= 0 else clients[i].fd == -1)
    && (forall i, j :: 0 <= i < j < |clients| && clients[i].fd == clients[j].fd ==> clients[i].fd == -1)
  }

  predicate Held(clients: seq<ClientRec>, fd: int)
  {
    FindFd(clients, fd) < |clients|
  }

  ghost predicate WireOk(c: Conn, clients: seq<ClientRec>)
  {
    && SessionGrammar(c.wire)
    && (c.open ==> c.fd >= 0 && AllNew(c.wire) && (!Held(clients, c.fd) ==> c.wire == []))
  }

  ghost predicate Sound(clients: seq<ClientRec>, conns: seq<Conn>)
  {
    && RecordsOk(clients)
    && FdsDistinct(conns)
    && (forall a :: 0 <= a < |conns| ==> WireOk(conns[a], clients))
  }

  ghost predicate SoundState(s: State)
  {
    Sound(s.clients, s.conns) && TopicsInv(s.topics, |s.clients|)
  }

  lemma HeldBy(clients: seq<ClientRec>, i: nat)
    requires RecordsOk(clients) && IsOn(clients, i)
    ensures FindFd(clients, clients[i].fd) == i
  {
  }

  /** The lookup by id string and the lookup by pointer select the same entry. */
  lemma LookupsAgree(clients: seq<ClientRec>, subs: seq<Entry>, i: nat)
    requires IdsDistinct(clients) && i < |clients|
    requires forall k :: 0 <= k < |subs| ==> subs[k].client < |clients|
    ensures FindEntryById(clients, subs, clients[i].id) == FindEntry(subs, i)
  {
    var k, l := FindEntryById(clients, subs, clients[i].id), FindEntry(subs, i);
    assert forall e: Entry :: e.client < |clients| ==> (HasId(clients, e, clients[i].id) <==> e.client == i);
    if k < |subs| { assert subs[k].client == i; }
    if l < |subs| { assert HasId(clients, subs[l], clients[i].id); }
  }

  // ---------- the topics ----------

  lemma PostKeeps(topic: Topic, on: seq<bool>, m: Message, n: nat)
    requires TopicInv(topic, KeyOf(m), n)
    ensures TopicInv(PostTopic(topic, on, m), KeyOf(m), n)
  {
  }

  lemma RemoveKeeps(r: Rules, topic: Topic, i: nat, stale: bool, t: Name, n: nat)
    requires TopicInv(topic, t, n)
    ensures TopicInv(RemoveEntry(r, topic, i, stale), t, n)
  {
  }

  lemma {:induction false} ReplayKeepsTopics(r: Rules, s: State, i: nat, order: seq<Name>, n: nat)
    requires i < |s.clients| && TopicsInv(s.topics, n)
    ensures TopicsInv(Replay(r, s, i, order).topics, n) && Replay(r, s, i, order).topics.Keys == s.topics.Keys
  {
    if order != [] {
      var s', t := Replay(r, s, i, order[..|order| - 1]), order[|order| - 1];
      ReplayKeepsTopics(r, s, i, order[..|order| - 1], n);
      var k := FindEntryById(s'.clients, TopicAt(s', t).subs, s'.clients[i].id);
      if t in s'.topics && k < |TopicAt(s', t).subs| {
        assert TopicInv(s'.topics[t], t, n);
        assert TopicInv(CaughtUp(r, s'.topics[t], k), t, n);
      }
    }
  }

  lemma MoreClients(topics: map<Name, Topic>, n: nat, m: nat)
    requires TopicsInv(topics, n) && n <= m
    ensures TopicsInv(topics, m)
  {
    forall t | t in topics ensures TopicInv(topics[t], t, m) { assert TopicInv(topics[t], t, n); }
  }

  lemma {:induction false} CommandKeepsTopics(r: Rules, s: State, i: nat, cmd: Command, order: seq<Name>, stale: bool)
    requires i < |s.clients| && TopicsInv(s.topics, |s.clients|)
    ensures TopicsInv(HandleComplete(r, s, i, cmd, order, stale).topics, |s.clients|)
    ensures |HandleComplete(r, s, i, cmd, order, stale).clients| == |s.clients|
  {
    match cmd
    case ConnReq(_) =>
      var j := FindTwin(s.clients, s.clients[i]);
      if j < |s.clients| { ReplayKeepsTopics(r, Attach(s, j, s.clients[i].fd), j, order, |s.clients|); }
    case Subscribe(t, sf) =>
      assert TopicInv(TopicAt(s, t), t, |s.clients|);
      assert TopicInv(AddEntry(r, TopicAt(s, t), i, sf), t, |s.clients|);
    case Unsubscribe(t) =>
      if t in s.topics { RemoveKeeps(r, s.topics[t], i, stale, t, |s.clients|); }
    case Quit =>
    case Other =>
  }

  lemma {:induction false} NewConnectionKeepsTopics(r: Rules, s: State, fd: int, cmd: Command, order: seq<Name>)
    requires TopicsInv(s.topics, |s.clients|)
    ensures var s' := HandleNewConnection(r, s, fd, cmd, order); TopicsInv(s'.topics, |s'.clients|)
  {
    if cmd.ConnReq? {
      var i := FindId(s.clients, cmd.id);
      if i == |s.clients| {
        MoreClients(s.topics, i, i + 1);
      } else {
        ReplayKeepsTopics(r, Attach(s, i, fd), i, order, |s.clients|);
      }
    }
  }

  /** Under any rules: logs hold messages of their topic, and entries refer to records. */
  lemma {:induction false} StepKeepsTopics(r: Rules, s: State, e: Event)
    requires TopicsInv(s.topics, |s.clients|)
    ensures TopicsInv(Step(r, s, e).topics, |Step(r, s, e).clients|)
  {
    match e
    case Receive(fd, cmd, order, stale) =>
      var i := FindFd(s.clients, fd);
      if i < |s.clients| { CommandKeepsTopics(r, s, i, cmd, order, stale); }
      else { NewConnectionKeepsTopics(r, s, fd, cmd, order); }
    case Datagram(m) =>
      assert TopicInv(TopicAt(s, KeyOf(m)), KeyOf(m), |s.clients|);
      PostKeeps(TopicAt(s, KeyOf(m)), Flags(s.clients), m, |s.clients|);
    case _ =>
  }

  // ---------- the handlers keep it ----------

  lemma SendSound(clients: seq<ClientRec>, conns: seq<Conn>, fd: int, ps: seq<Packet>)
    requires Sound(clients, conns) && Held(clients, fd) && AllNew(ps)
    ensures Sound(clients, Send(conns, fd, ps))
  {
    var cs := Send(conns, fd, ps);
    forall a | 0 <= a < |cs| ensures WireOk(cs[a], clients) {
      assert WireOk(conns[a], clients);
    }
  }

  lemma {:induction false} FanOutSound(clients: seq<ClientRec>, conns: seq<Conn>, subs: seq<Entry>, m: Message)
    requires Sound(clients, conns)
    ensures Sound(clients, FanOut(conns, clients, subs, m))
  {
    if subs != [] {
      var i := subs[|subs| - 1].client;
      FanOutSound(clients, conns, subs[..|subs| - 1], m);
      if IsOn(clients, i) {
        HeldBy(clients, i);
        SendSound(clients, FanOut(conns, clients, subs[..|subs| - 1], m), clients[i].fd, [MsgNew(m)]);
      }
    }
  }

  lemma {:induction false} ReplaySound(r: Rules, s: State, i: nat, order: seq<Name>)
    requires Sound(s.clients, s.conns) && IsOn(s.clients, i)
    ensures Sound(s.clients, Replay(r, s, i, order).conns)
  {
    if order != [] {
      var s', t := Replay(r, s, i, order[..|order| - 1]), order[|order| - 1];
      ReplaySound(r, s, i, order[..|order| - 1]);
      HeldBy(s.clients, i);
      var k := FindEntryById(s'.clients, TopicAt(s', t).subs, s'.clients[i].id);
      if k < |TopicAt(s', t).subs| {
        var log, cursor := TopicAt(s', t).log, TopicAt(s', t).subs[k].cursor;
        SendSound(s.clients, s'.conns, s.clients[i].fd, News(Missing(log, cursor)));
      }
    }
  }

  lemma AcceptSound(clients: seq<ClientRec>, conns: seq<Conn>, fd: int)
    requires Sound(clients, conns) && fd >= 0 && !IsOpen(conns, fd)
    ensures Sound(clients, conns + [Conn(fd, true, -1, [])])
  {
    var cs := conns + [Conn(fd, true, -1, [])];
    forall a | 0 <= a < |cs| ensures WireOk(cs[a], clients) {
      if a < |conns| { assert WireOk(conns[a], clients); }
    }
  }

  lemma RegisterSound(clients: seq<ClientRec>, conns: seq<Conn>, id: Name)
    requires Sound(clients, conns) && FindId(clients, id) == |clients|
    ensures Sound(clients + [ClientRec(id, -1, false, [])], conns)
  {
    var cs := clients + [ClientRec(id, -1, false, [])];
    forall a | 0 <= a < |conns| ensures WireOk(conns[a], cs) {
      assert WireOk(conns[a], clients);
      if conns[a].open && Held(clients, conns[a].fd) { assert cs[FindFd(clients, conns[a].fd)].fd == conns[a].fd; }
    }
  }

  lemma AttachRecords(clients: seq<ClientRec>, i: nat, c: ClientRec)
    requires RecordsOk(clients) && i < |clients| && !clients[i].connected
    requires c.id == clients[i].id && c.connected && c.fd >= 0 && !Held(clients, c.fd)
    ensures RecordsOk(clients[i := c])
    ensures forall fd :: fd >= 0 && Held(clients, fd) ==> Held(clients[i := c], fd)
  {
    forall fd | fd >= 0 && Held(clients, fd) ensures Held(clients[i := c], fd) {
      assert clients[i := c][FindFd(clients, fd)].fd == fd;
    }
  }

  lemma AttachSound(s: State, i: nat, fd: int)
    requires Sound(s.clients, s.conns) && i < |s.clients| && !s.clients[i].connected
    requires IsOpen(s.conns, fd) && !Held(s.clients, fd)
    ensures Sound(Attach(s, i, fd).clients, Attach(s, i, fd).conns)
  {
    var s' := Attach(s, i, fd);
    assert WireOk(s.conns[FindOpen(s.conns, fd)], s.clients);
    AttachRecords(s.clients, i, s'.clients[i]);
    forall a | 0 <= a < |s'.conns| ensures WireOk(s'.conns[a], s'.clients) {
      assert WireOk(s.conns[a], s.clients);
    }
  }

  lemma DetachRecords(clients: seq<ClientRec>, i: nat, c: ClientRec)
    requires RecordsOk(clients) && IsOn(clients, i) && c.id == clients[i].id && !c.connected && c.fd == -1
    ensures RecordsOk(clients[i := c])
    ensures forall fd :: fd >= 0 && fd != clients[i].fd && Held(clients, fd) ==> Held(clients[i := c], fd)
  {
    forall fd | fd >= 0 && fd != clients[i].fd && Held(clients, fd) ensures Held(clients[i := c], fd) {
      assert clients[i := c][FindFd(clients, fd)].fd == fd;
    }
  }

  lemma DetachSound(s: State, i: nat)
    requires Sound(s.clients, s.conns) && IsOn(s.clients, i)
    ensures Sound(Detach(s, i).clients, Detach(s, i).conns)
  {
    var s' := Detach(s, i);
    DetachRecords(s.clients, i, s'.clients[i]);
    forall a | 0 <= a < |s'.conns| ensures WireOk(s'.conns[a], s'.clients) {
      assert WireOk(s.conns[a], s.clients);
    }
  }

  lemma CloseSound(clients: seq<ClientRec>, conns: seq<Conn>, fd: int)
    requires Sound(clients, conns)
    ensures Sound(clients, Close(conns, fd))
  {
    forall a | 0 <= a < |conns| ensures WireOk(Close(conns, fd)[a], clients) {
      assert WireOk(conns[a], clients);
    }
  }

  lemma RefuseSound(s: State, fd: int)
    requires Sound(s.clients, s.conns) && !Held(s.clients, fd)
    ensures Sound(s.clients, Refuse(s, fd).conns)
  {
    forall a | 0 <= a < |s.conns| ensures WireOk(Refuse(s, fd).conns[a], s.clients) {
      assert WireOk(s.conns[a], s.clients);
      assert [] + [ConnNo] == [ConnNo];
    }
  }

  /** A header-only CONN_REQ from a registered client changes nothing, because nobody else has its id. */
  lemma ConnReqChangesNothing(r: Rules, s: State, i: nat, order: seq<Name>)
    requires IdsDistinct(s.clients) && IsOn(s.clients, i)
    ensures HandleConnectionRequest(r, s, i, order) == s
  {
    assert FindTwin(s.clients, s.clients[i]) == |s.clients|;
    assert s.clients[i := s.clients[i].(connected := true)] == s.clients;
  }

  lemma CommandSound(r: Rules, s: State, i: nat, cmd: Command, order: seq<Name>, stale: bool)
    requires Sound(s.clients, s.conns) && IsOn(s.clients, i)
    ensures var s' := HandleComplete(r, s, i, cmd, order, stale); Sound(s'.clients, s'.conns)
  {
    match cmd
    case ConnReq(_) => ConnReqChangesNothing(r, s, i, order);
    case Quit => DetachSound(s, i);
    case _ =>
  }

  lemma RequestSound(r: Rules, s: State, fd: int, cmd: Command, order: seq<Name>)
    requires Sound(s.clients, s.conns) && IsOpen(s.conns, fd) && !Held(s.clients, fd)
    ensures var s' := HandleNewConnection(r, s, fd, cmd, order); Sound(s'.clients, s'.conns)
  {
    if cmd.ConnReq? {
      var i := FindId(s.clients, cmd.id);
      if i == |s.clients| {
        RegisterSound(s.clients, s.conns, cmd.id);
        AttachSound(s.(clients := s.clients + [ClientRec(cmd.id, -1, false, [])]), i, fd);
      } else if s.clients[i].connected {
        RefuseSound(s, fd);
      } else {
        AttachSound(s, i, fd);
        ReplaySound(r, Attach(s, i, fd), i, order);
      }
    }
  }

  lemma OpenFd(clients: seq<ClientRec>, conns: seq<Conn>, fd: int)
    requires Sound(clients, conns) && IsOpen(conns, fd)
    ensures fd >= 0 && FindOpen(conns, fd) < |conns|
    ensures Held(clients, fd) ==> IsOn(clients, FindFd(clients, fd))
  {
    var a := FindOpen(conns, fd);
    assert WireOk(conns[a], clients);
  }

  lemma HangupSound(r: Rules, s: State, fd: int)
    requires Sound(s.clients, s.conns) && IsOpen(s.conns, fd)
    ensures var s' := HandleHangup(r, s, fd); Sound(s'.clients, s'.conns)
  {
    OpenFd(s.clients, s.conns, fd);
    if Held(s.clients, fd) && !r.eofLeavesRecord {
      DetachSound(s, FindFd(s.clients, fd));
    } else {
      CloseSound(s.clients, s.conns, fd);
    }
  }

  lemma {:induction false} StepSound(r: Rules, s: State, e: Event)
    requires SoundState(s) && Enabled(s, e) && !e.Exit?
    ensures SoundState(Step(r, s, e))
  {
    StepKeepsTopics(r, s, e);
    match e
    case Accept(fd) => AcceptSound(s.clients, s.conns, fd);
    case Receive(fd, cmd, order, stale) =>
      OpenFd(s.clients, s.conns, fd);
      if Held(s.clients, fd) {
        CommandSound(r, s, FindFd(s.clients, fd), cmd, order, stale);
      } else {
        RequestSound(r, s, fd, cmd, order);
      }
    case Hangup(fd) => HangupSound(r, s, fd);
    case Datagram(m) => FanOutSound(s.clients, s.conns, TopicAt(s, KeyOf(m)).subs, m);
    case Exit =>
  }

  /** Under any rules, every reachable state before `exit` is sound. */
  lemma {:induction false} RunSound(r: Rules, es: seq<Event>)
    requires Legal(r, es) && Run(r, es).running
    ensures SoundState(Run(r, es))
  {
    if es != [] {
      RunSound(r, es[..|es| - 1]);
      StepSound(r, Run(r, es[..|es| - 1]), es[|es| - 1]);
    }
  }

  // ---------- the session grammar ----------

  /** What `cleanup` may do to a connection: one CONN_END and a close, if it is open. */
  ghost predicate EndedAtMost(c: Conn, c': Conn)
  {
    c' == c || (c.open && c' == c.(wire := c.wire + [ConnEnd], open := false))
  }

  lemma {:induction false} EndAllEndsOnce(conns: seq<Conn>, clients: seq<ClientRec>)
    ensures |EndAll(conns, clients)| == |conns|
    ensures forall a :: 0 <= a < |conns| ==> EndedAtMost(conns[a], EndAll(conns, clients)[a])
  {
    if clients != [] {
      EndAllEndsOnce(conns, clients[..|clients| - 1]);
      forall a | 0 <= a < |conns| ensures EndedAtMost(conns[a], EndAll(conns, clients)[a]) {
        assert EndedAtMost(conns[a], EndAll(conns, clients[..|clients| - 1])[a]);
      }
    }
  }

  /**
   Under any rules, over any run, what is written to each accepted connection follows the session
   grammar: one refusal, or messages optionally ended by one CONN_END.
   */
  lemma {:induction false} SessionGrammarOverRuns(r: Rules, es: seq<Event>, a: nat)
    requires Legal(r, es) && a < |Run(r, es).conns|
    ensures SessionGrammar(Run(r, es).conns[a].wire)
  {
    if Run(r, es).running {
      RunSound(r, es);
      assert WireOk(Run(r, es).conns[a], Run(r, es).clients);
    } else {
      var s := Run(r, es[..|es| - 1]);
      RunSound(r, es[..|es| - 1]);
      StepRunsUntilExit(r, s, es[|es| - 1]);
      EndAllEndsOnce(s.conns, s.clients);
      assert WireOk(s.conns[a], s.clients) && EndedAtMost(s.conns[a], Run(r, es).conns[a]);
      assert (s.conns[a].wire + [ConnEnd])[..|s.conns[a].wire|] == s.conns[a].wire;
    }
  }

  // ---------- what stays ----------

  ghost predicate WiresKept(conns: seq<Conn>, cs: seq<Conn>)
  {
    |conns| <= |cs| && forall a :: 0 <= a < |conns| ==>
      conns[a].wire <= cs[a].wire && (!conns[a].open ==> !cs[a].open && cs[a].wire == conns[a].wire)
  }

  lemma {:induction false} FanOutKeepsWires(conns: seq<Conn>, clients: seq<ClientRec>, subs: seq<Entry>, m: Message)
    ensures WiresKept(conns, FanOut(conns, clients, subs, m)) && |FanOut(conns, clients, subs, m)| == |conns|
  {
    if subs != [] { FanOutKeepsWires(conns, clients, subs[..|subs| - 1], m); }
  }

  lemma {:induction false} ReplayKeepsWires(r: Rules, s: State, i: nat, order: seq<Name>)
    requires i < |s.clients|
    ensures WiresKept(s.conns, Replay(r, s, i, order).conns)
  {
    if order != [] { ReplayKeepsWires(r, s, i, order[..|order| - 1]); }
  }

  lemma {:induction false} EndAllKeepsWires(conns: seq<Conn>, clients: seq<ClientRec>)
    ensures WiresKept(conns, EndAll(conns, clients)) && |EndAll(conns, clients)| == |conns|
  {
    if clients != [] { EndAllKeepsWires(conns, clients[..|clients| - 1]); }
  }

  lemma WiresKeptTwice(conns: seq<Conn>, cs: seq<Conn>, ds: seq<Conn>)
    requires WiresKept(conns, cs) && WiresKept(cs, ds)
    ensures WiresKept(conns, ds)
  {
  }

  lemma ReconnectKeepsWires(r: Rules, s: State, i: nat, fd: int, order: seq<Name>)
    requires i < |s.clients|
    ensures WiresKept(s.conns, Attach(s, i, fd).conns)
    ensures WiresKept(s.conns, Replay(r, Attach(s, i, fd), i, order).conns)
  {
    ReplayKeepsWires(r, Attach(s, i, fd), i, order);
    WiresKeptTwice(s.conns, Attach(s, i, fd).conns, Replay(r, Attach(s, i, fd), i, order).conns);
  }

  lemma RefuseKeepsWires(s: State, fd: int)
    ensures WiresKept(s.conns, Refuse(s, fd).conns)
  {
  }

  lemma CommandKeepsWires(r: Rules, s: State, i: nat, cmd: Command, order: seq<Name>, stale: bool)
    requires i < |s.clients|
    ensures WiresKept(s.conns, HandleComplete(r, s, i, cmd, order, stale).conns)
  {
    var j := FindTwin(s.clients, s.clients[i]);
    if cmd.ConnReq? && j < |s.clients| {
      ReconnectKeepsWires(r, s, j, s.clients[i].fd, order);
    }
  }

  lemma NewConnectionKeepsWires(r: Rules, s: State, fd: int, cmd: Command, order: seq<Name>)
    ensures WiresKept(s.conns, HandleNewConnection(r, s, fd, cmd, order).conns)
  {
    if cmd.ConnReq? {
      var j := FindId(s.clients, cmd.id);
      if j < |s.clients| {
        RefuseKeepsWires(s, fd);
        ReconnectKeepsWires(r, s, j, fd, order);
      } else {
        ReconnectKeepsWires(r, s.(clients := s.clients + [ClientRec(cmd.id, -1, false, [])]), j, fd, []);
      }
    }
  }

  /** Under any rules: what was written stays written, and a closed connection is never written to again. */
  lemma {:induction false} NothingAfterClose(r: Rules, s: State, e: Event)
    ensures WiresKept(s.conns, Step(r, s, e).conns)
  {
    match e
    case Receive(fd, cmd, order, stale) =>
      var i := FindFd(s.clients, fd);
      if i < |s.clients| { CommandKeepsWires(r, s, i, cmd, order, stale); }
      else { NewConnectionKeepsWires(r, s, fd, cmd, order); }
    case Datagram(m) => FanOutKeepsWires(s.conns, s.clients, TopicAt(s, KeyOf(m)).subs, m);
    case Exit => EndAllKeepsWires(s.conns, s.clients);
    case Accept(_) =>
    case Hangup(_) =>
  }

  /** So over any stretch of a run. */
  lemma {:induction false} NothingAfterCloseOverRuns(r: Rules, es: seq<Event>, k: nat)
    requires k <= |es|
    ensures WiresKept(Run(r, es[..k]).conns, Run(r, es).conns)
  {
    if k == |es| {
      assert es[..k] == es;
    } else {
      var n := |es| - 1;
      NothingAfterCloseOverRuns(r, es[..n], k);
      assert es[..n][..k] == es[..k];
      NothingAfterClose(r, Run(r, es[..n]), es[n]);
      WiresKeptTwice(Run(r, es[..k]).conns, Run(r, es[..n]).conns, Run(r, es).conns);
    }
  }

  ghost predicate IdsKept(clients: seq<ClientRec>, cs: seq<ClientRec>)
  {
    |clients| <= |cs| && forall i :: 0 <= i < |clients| ==> cs[i].id == clients[i].id
  }

  lemma CommandKeepsIds(r: Rules, s: State, i: nat, cmd: Command, order: seq<Name>, stale: bool)
    requires i < |s.clients|
    ensures IdsKept(s.clients, HandleComplete(r, s, i, cmd, order, stale).clients)
  {
  }

  lemma NewConnectionKeepsIds(r: Rules, s: State, fd: int, cmd: Command, order: seq<Name>)
    ensures IdsKept(s.clients, HandleNewConnection(r, s, fd, cmd, order).clients)
  {
  }

  /** Records are never removed or re-identified, under any rules. */
  lemma {:induction false} RecordsPersist(r: Rules, s: State, e: Event)
    ensures IdsKept(s.clients, Step(r, s, e).clients)
  {
    match e
    case Receive(fd, cmd, order, stale) =>
      var i := FindFd(s.clients, fd);
      if i < |s.clients| { CommandKeepsIds(r, s, i, cmd, order, stale); }
      else { NewConnectionKeepsIds(r, s, fd, cmd, order); }
    case _ =>
  }

  // ---------- a record that has not hung up as written ----------

  /** All sessions of a record are closed but the last, and that is open on its descriptor while it is connected. */
  ghost predicate Up(c: ClientRec, conns: seq<Conn>)
  {
    && (forall k :: 0 <= k < |c.sessions| ==>
          c.sessions[k] < |conns| && (conns[c.sessions[k]].open ==> c.connected && k == |c.sessions| - 1))
    && (c.connected ==>
          c.sessions != [] && var conn := conns[c.sessions[|c.sessions| - 1]]; conn.open && conn.fd == c.fd)
  }

  /** Record i is up, if there is one. */
  ghost predicate UpAt(s: State, i: nat)
  {
    i < |s.clients| ==> Up(s.clients[i], s.conns)
  }

  /** The event is not an end-of-file of record i that leaves it connected. */
  predicate Spares(r: Rules, s: State, e: Event, i: nat)
  {
    r.eofLeavesRecord && e.Hangup? && i < |s.clients| ==> FindFd(s.clients, e.fd) != i
  }

  ghost predicate SameSockets(conns: seq<Conn>, cs: seq<Conn>)
  {
    |conns| <= |cs| && forall a :: 0 <= a < |conns| ==> cs[a].open == conns[a].open && cs[a].fd == conns[a].fd
  }

  lemma SameSocketsUp(c: ClientRec, conns: seq<Conn>, cs: seq<Conn>)
    requires Up(c, conns) && SameSockets(conns, cs)
    ensures Up(c, cs)
  {
  }

  lemma {:induction false} FanOutSameSockets(conns: seq<Conn>, clients: seq<ClientRec>, subs: seq<Entry>, m: Message)
    ensures SameSockets(conns, FanOut(conns, clients, subs, m)) && |FanOut(conns, clients, subs, m)| == |conns|
  {
    if subs != [] { FanOutSameSockets(conns, clients, subs[..|subs| - 1], m); }
  }

  lemma {:induction false} ReplaySameSockets(r: Rules, s: State, i: nat, order: seq<Name>)
    requires i < |s.clients|
    ensures SameSockets(s.conns, Replay(r, s, i, order).conns) && |Replay(r, s, i, order).conns| == |s.conns|
  {
    if order != [] { ReplaySameSockets(r, s, i, order[..|order| - 1]); }
  }

  lemma AttachUp(s: State, i: nat, fd: int, j: nat)
    requires i < |s.clients| && !s.clients[i].connected && IsOpen(s.conns, fd) && UpAt(s, j)
    ensures UpAt(Attach(s, i, fd), j)
  {
  }

  lemma DetachUp(s: State, i: nat, j: nat)
    requires RecordsOk(s.clients) && IsOn(s.clients, i) && UpAt(s, j)
    ensures UpAt(Detach(s, i), j)
  {
  }

  lemma CloseUp(conns: seq<Conn>, c: ClientRec, fd: int)
    requires Up(c, conns) && (c.connected ==> c.fd != fd)
    ensures Up(c, Close(conns, fd))
  {
  }

  lemma CommandUp(r: Rules, s: State, i: nat, cmd: Command, order: seq<Name>, stale: bool, j: nat)
    requires RecordsOk(s.clients) && IsOn(s.clients, i) && UpAt(s, j)
    ensures UpAt(HandleComplete(r, s, i, cmd, order, stale), j)
  {
    match cmd
    case ConnReq(_) => ConnReqChangesNothing(r, s, i, order);
    case Quit => DetachUp(s, i, j);
    case _ =>
  }

  lemma RequestUp(r: Rules, s: State, fd: int, cmd: Command, order: seq<Name>, j: nat)
    requires IsOpen(s.conns, fd) && !Held(s.clients, fd) && UpAt(s, j)
    ensures UpAt(HandleNewConnection(r, s, fd, cmd, order), j)
  {
    if cmd.ConnReq? {
      var i := FindId(s.clients, cmd.id);
      if i == |s.clients| {
        AttachUp(s.(clients := s.clients + [ClientRec(cmd.id, -1, false, [])]), i, fd, j);
      } else if s.clients[i].connected {
        if j < |s.clients| {
          SameSocketsUp(s.clients[j], s.conns, Send(s.conns, fd, [ConnNo]));
          CloseUp(Send(s.conns, fd, [ConnNo]), s.clients[j], fd);
        }
      } else {
        var s1 := Attach(s, i, fd);
        AttachUp(s, i, fd, j);
        ReplaySameSockets(r, s1, i, order);
        if j < |s.clients| { SameSocketsUp(s1.clients[j], s1.conns, Replay(r, s1, i, order).conns); }
      }
    }
  }

  lemma HangupUp(r: Rules, s: State, fd: int, j: nat)
    requires Sound(s.clients, s.conns) && IsOpen(s.conns, fd) && UpAt(s, j) && Spares(r, s, Hangup(fd), j)
    ensures UpAt(HandleHangup(r, s, fd), j)
  {
    OpenFd(s.clients, s.conns, fd);
    if Held(s.clients, fd) && !r.eofLeavesRecord {
      DetachUp(s, FindFd(s.clients, fd), j);
    } else if j < |s.clients| {
      if s.clients[j].connected { HeldBy(s.clients, j); }
      CloseUp(s.conns, s.clients[j], fd);
    }
  }

  /** No event but its own end-of-file as written takes a record's socket away without its leaving. */
  lemma {:induction false} StepUp(r: Rules, s: State, e: Event, j: nat)
    requires SoundState(s) && Enabled(s, e) && !e.Exit? && UpAt(s, j) && Spares(r, s, e, j)
    ensures UpAt(Step(r, s, e), j)
  {
    match e
    case Accept(fd) =>
      if j < |s.clients| { SameSocketsUp(s.clients[j], s.conns, Step(r, s, e).conns); }
    case Receive(fd, cmd, order, stale) =>
      OpenFd(s.clients, s.conns, fd);
      if Held(s.clients, fd) {
        CommandUp(r, s, FindFd(s.clients, fd), cmd, order, stale, j);
      } else {
        RequestUp(r, s, fd, cmd, order, j);
      }
    case Hangup(fd) => HangupUp(r, s, fd, j);
    case Datagram(m) =>
      FanOutSameSockets(s.conns, s.clients, TopicAt(s, KeyOf(m)).subs, m);
      if j < |s.clients| { SameSocketsUp(s.clients[j], s.conns, Step(r, s, e).conns); }
    case Exit =>
  }

  /** Record i never hangs up in a way that leaves it connected; with the intended rule, no record does. */
  ghost predicate StaysUp(r: Rules, es: seq<Event>, i: nat)
  {
    forall k :: 0 <= k < |es| ==> Spares(r, Run(r, es[..k]), es[k], i)
  }

  lemma StaysUpPrefix(r: Rules, es: seq<Event>, k: nat, i: nat)
    requires StaysUp(r, es, i) && k <= |es|
    ensures StaysUp(r, es[..k], i)
    ensures k < |es| ==> Spares(r, Run(r, es[..k]), es[k], i)
  {
    assert forall n :: 0 <= n <= k ==> es[..k][..n] == es[..n];
  }

  lemma {:induction false} RunUp(r: Rules, es: seq<Event>, i: nat)
    requires Legal(r, es) && Run(r, es).running && StaysUp(r, es, i)
    ensures UpAt(Run(r, es), i)
  {
    if es != [] {
      var n := |es| - 1;
      StaysUpPrefix(r, es, n, i);
      RunUp(r, es[..n], i);
      RunSound(r, es[..n]);
      StepUp(r, Run(r, es[..n]), es[n], i);
    }
  }

  lemma RepairedStaysUp(r: Rules, es: seq<Event>, i: nat)
    requires !r.eofLeavesRecord
    ensures StaysUp(r, es, i)
  {
  }

  /** The n-th session of record i is over: there is a later one, or the record is not connected. */
  predicate OldSession(s: State, i: nat, n: nat)
  {
    i < |s.clients| && n < |s.clients[i].sessions| &&
    (n < |s.clients[i].sessions| - 1 || !s.clients[i].connected)
  }

  /**
   Subscriptions survive reconnections on the new socket alone: of a record that has stayed up for k
   events, a session that is over is closed, and for the rest of the run, whatever happens in it, nothing
   is added to what it was sent.
   */
  lemma {:induction false} OldSessionsAreSilent(r: Rules, es: seq<Event>, k: nat, i: nat, n: nat)
    requires k <= |es| && Legal(r, es[..k]) && Run(r, es[..k]).running && StaysUp(r, es[..k], i)
    requires OldSession(Run(r, es[..k]), i, n)
    ensures var a := Run(r, es[..k]).clients[i].sessions[n];
            && a < |Run(r, es[..k]).conns| <= |Run(r, es).conns|
            && !Run(r, es[..k]).conns[a].open && !Run(r, es).conns[a].open
            && Run(r, es).conns[a].wire == Run(r, es[..k]).conns[a].wire
  {
    RunUp(r, es[..k], i);
    NothingAfterCloseOverRuns(r, es, k);
  }
}
