/**
 Running the whole broker and looking at one topic is running the one-topic broker on the
 connection events and that topic's events.
 */
module Projection {
  import opened Protocol
  import opened BrokerSpec
  import opened AnyRules
  import opened Lane

  function Inboxes(s: State, t: Name): (got: seq<seq<Message>>)
    ensures |got| == |s.clients|
  {
    seq(|s.clients|, i requires 0 <= i < |s.clients| => Delivered(s, i, t))
  }

  function Project(s: State, t: Name): LaneState
  {
    LaneState.Lane(Flags(s.clients), TopicAt(s, t), Inboxes(s, t))
  }

  function CommandOn(i: nat, cmd: Command, stale: bool, t: Name): LaneEvent
  {
    match cmd
    case Subscribe(u, sf) => if u == t then Enter(i, sf) else Idle
    case Unsubscribe(u) => if u == t then Withdraw(i, stale) else Idle
    case Quit => Leave(i)
    case _ => Idle
  }

  function FirstRequestOn(s: State, cmd: Command): LaneEvent
  {
    if !cmd.ConnReq? then Idle
    else
      var j := FindId(s.clients, cmd.id);
      if j == |s.clients| then Join else if s.clients[j].connected then Idle else Rejoin(j)
  }

  /**
   What an event of the broker means for topic t. The replay order plays no part in it; an end-of-file
   as written takes nobody off line.
   */
  function EventOn(r: Rules, s: State, e: Event, t: Name): LaneEvent
  {
    match e
    case Receive(fd, cmd, _, stale) =>
      var i := FindFd(s.clients, fd);
      if i < |s.clients| then CommandOn(i, cmd, stale, t) else FirstRequestOn(s, cmd)
    case Hangup(fd) =>
      var i := FindFd(s.clients, fd);
      if i < |s.clients| && !r.eofLeavesRecord then Leave(i) else Idle
    case Datagram(m) => if KeyOf(m) == t then Post(m) else Idle
    case _ => Idle
  }

  function Trace(r: Rules, es: seq<Event>, t: Name): (ls: seq<LaneEvent>)
    ensures |ls| == |es|
  {
    if es == [] then []
    else Trace(r, es[..|es| - 1], t) + [EventOn(r, Run(r, es[..|es| - 1]), es[|es| - 1], t)]
  }

  // ---------- packets and inboxes ----------

  lemma {:induction false} OnTopicAppend(w: seq<Packet>, ps: seq<Packet>, t: Name)
    ensures OnTopic(w + ps, t) == OnTopic(w, t) + OnTopic(ps, t)
  {
    if ps == [] {
      assert w + ps == w;
    } else {
      assert (w + ps)[..|w + ps| - 1] == w + ps[..|ps| - 1];
      OnTopicAppend(w, ps[..|ps| - 1], t);
    }
  }

  lemma NewsLast(ms: seq<Message>)
    requires ms != []
    ensures News(ms)[..|ms| - 1] == News(ms[..|ms| - 1]) && News(ms)[|ms| - 1] == MsgNew(ms[|ms| - 1])
    ensures ms == ms[..|ms| - 1] + [ms[|ms| - 1]]
  {
  }

  lemma {:induction false} OnTopicNews(ms: seq<Message>, u: Name, t: Name)
    requires forall k :: 0 <= k < |ms| ==> KeyOf(ms[k]) == u
    ensures OnTopic(News(ms), t) == if u == t then ms else []
  {
    if ms != [] {
      var n := |ms| - 1;
      NewsLast(ms);
      OnTopicNews(ms[..n], u, t);
    }
  }

  lemma {:induction false} DeliveredFrame(conns: seq<Conn>, cs: seq<Conn>, sessions: seq<nat>, t: Name)
    requires |conns| <= |cs|
    requires forall k :: 0 <= k < |sessions| ==>
      sessions[k] < |conns| && OnTopic(conns[sessions[k]].wire, t) == OnTopic(cs[sessions[k]].wire, t)
    ensures DeliveredOn(cs, sessions, t) == DeliveredOn(conns, sessions, t)
  {
    if sessions != [] { DeliveredFrame(conns, cs, sessions[..|sessions| - 1], t); }
  }

  lemma {:induction false} DeliveredOnLast(conns: seq<Conn>, cs: seq<Conn>, sessions: seq<nat>,
                                           ps: seq<Packet>, t: Name)
    requires sessions != [] && |conns| <= |cs| && forall k :: 0 <= k < |sessions| ==> sessions[k] < |conns|
    requires forall k :: 0 <= k < |sessions| - 1 ==> cs[sessions[k]].wire == conns[sessions[k]].wire
    requires cs[sessions[|sessions| - 1]].wire == conns[sessions[|sessions| - 1]].wire + ps
    ensures DeliveredOn(cs, sessions, t) == DeliveredOn(conns, sessions, t) + OnTopic(ps, t)
  {
    var n := |sessions| - 1;
    var wire := conns[sessions[n]].wire;
    DeliveredFrame(conns, cs, sessions[..n], t);
    OnTopicAppend(wire, ps, t);
    Associative(DeliveredOn(conns, sessions[..n], t), OnTopic(wire, t), OnTopic(ps, t));
  }

  lemma SendReachesOwn(c: ClientRec, conns: seq<Conn>, ps: seq<Packet>, t: Name)
    requires Up(c, conns) && c.connected
    ensures DeliveredOn(Send(conns, c.fd, ps), c.sessions, t) == DeliveredOn(conns, c.sessions, t) + OnTopic(ps, t)
  {
    DeliveredOnLast(conns, Send(conns, c.fd, ps), c.sessions, ps, t);
  }

  lemma SendSparesOthers(c: ClientRec, conns: seq<Conn>, fd: int, ps: seq<Packet>, t: Name)
    requires Up(c, conns) && (c.connected ==> c.fd != fd)
    ensures DeliveredOn(Send(conns, fd, ps), c.sessions, t) == DeliveredOn(conns, c.sessions, t)
  {
    DeliveredFrame(conns, Send(conns, fd, ps), c.sessions, t);
  }

  /** Of the records that are up, what is written to a connected one's descriptor reaches that one and no other. */
  lemma {:induction false} DeliveredAfterSend(clients: seq<ClientRec>, conns: seq<Conn>, i: nat, ps: seq<Packet>,
                                              j: nat, t: Name)
    requires RecordsOk(clients) && IsOn(clients, i) && j < |clients| && Up(clients[j], conns)
    ensures DeliveredOn(Send(conns, clients[i].fd, ps), clients[j].sessions, t)
         == DeliveredOn(conns, clients[j].sessions, t) + if i == j then OnTopic(ps, t) else []
  {
    if i == j {
      SendReachesOwn(clients[i], conns, ps, t);
    } else {
      SendSparesOthers(clients[j], conns, clients[i].fd, ps, t);
    }
  }

  lemma OneOnTopic(m: Message, t: Name)
    ensures OnTopic([MsgNew(m)], t) == Repeat(m, if KeyOf(m) == t then 1 else 0)
  {
    assert [MsgNew(m)][..0] == [];
  }

  lemma {:induction false} DeliveredAfterSendTo(clients: seq<ClientRec>, conns: seq<Conn>, i: nat, m: Message,
                                                j: nat, t: Name)
    requires RecordsOk(clients) && j < |clients| && Up(clients[j], conns)
    ensures DeliveredOn(SendTo(conns, clients, i, m), clients[j].sessions, t)
         == DeliveredOn(conns, clients[j].sessions, t)
          + Repeat(m, if KeyOf(m) == t && clients[j].connected && i == j then 1 else 0)
  {
    if IsOn(clients, i) {
      DeliveredAfterSend(clients, conns, i, [MsgNew(m)], j, t);
      OneOnTopic(m, t);
    }
  }

  lemma MoreCopies(got: seq<Message>, m: Message, a: nat, b: nat)
    ensures got + Repeat(m, a) + Repeat(m, b) == got + Repeat(m, a + b)
  {
  }

  /** How many copies of m the entries of record j call for. */
  function CalledFor(clients: seq<ClientRec>, subs: seq<Entry>, m: Message, j: nat, t: Name): nat
    requires j < |clients|
  {
    if KeyOf(m) == t && clients[j].connected then |Mine(subs, j)| else 0
  }

  lemma CalledForMore(clients: seq<ClientRec>, subs: seq<Entry>, m: Message, j: nat, t: Name)
    requires j < |clients| && subs != []
    ensures CalledFor(clients, subs, m, j, t) == CalledFor(clients, subs[..|subs| - 1], m, j, t) +
            if KeyOf(m) == t && clients[j].connected && subs[|subs| - 1].client == j then 1 else 0
  {
  }

  lemma {:induction false} UpAfterFanOut(
    clients: seq<ClientRec>, conns: seq<Conn>, subs: seq<Entry>, m: Message, j: nat)
    requires j < |clients| && Up(clients[j], conns)
    ensures Up(clients[j], FanOut(conns, clients, subs, m))
  {
    FanOutSameSockets(conns, clients, subs, m);
    SameSocketsUp(clients[j], conns, FanOut(conns, clients, subs, m));
  }

  lemma {:induction false} DeliveredAfterFanOut(
    clients: seq<ClientRec>, conns: seq<Conn>, subs: seq<Entry>, m: Message, j: nat, t: Name)
    requires RecordsOk(clients) && j < |clients| && Up(clients[j], conns)
    ensures DeliveredOn(FanOut(conns, clients, subs, m), clients[j].sessions, t)
         == DeliveredOn(conns, clients[j].sessions, t) + Repeat(m, CalledFor(clients, subs, m, j, t))
  {
    if subs != [] {
      var n := |subs| - 1;
      var a, b := CalledFor(clients, subs[..n], m, j, t), CalledFor(clients, subs, m, j, t);
      UpAfterFanOut(clients, conns, subs[..n], m, j);
      DeliveredAfterFanOut(clients, conns, subs[..n], m, j, t);
      DeliveredAfterSendTo(clients, FanOut(conns, clients, subs[..n], m), subs[n].client, m, j, t);
      CalledForMore(clients, subs, m, j, t);
      MoreCopies(DeliveredOn(conns, clients[j].sessions, t), m, a, b - a);
    }
  }

  // ---------- replay ----------

  /** s' is s after what a replay to client i does for topic t, if `done`, as far as client j can tell. */
  ghost predicate ReplayedOn(r: Rules, s: State, s': State, i: nat, j: nat, t: Name, done: bool)
    requires i < |s.clients|
  {
    && s'.clients == s.clients
    && TopicAt(s', t) == (if done then Repaid(r, TopicAt(s, t), i) else TopicAt(s, t))
    && (j < |s.clients| ==>
          Delivered(s', j, t) == Delivered(s, j, t) + if done && i == j then Owed(TopicAt(s, t), i) else [])
  }

  lemma SendNone(conns: seq<Conn>, fd: int)
    ensures Send(conns, fd, News([])) == conns
  {
    forall a | 0 <= a < |conns| ensures Send(conns, fd, News([]))[a] == conns[a] {
      assert conns[a].wire + News([]) == conns[a].wire;
    }
  }

  /** A replay of one topic, in terms of the lookup by pointer. */
  lemma ReplayTopicByPointer(r: Rules, s: State, i: nat, u: Name)
    requires SoundState(s) && IsOn(s.clients, i) && u in s.topics
    ensures ReplayTopic(r, s, i, u) ==
            s.(topics := s.topics[u := Repaid(r, s.topics[u], i)],
               conns := Send(s.conns, s.clients[i].fd, News(Owed(s.topics[u], i))))
  {
    var topic := s.topics[u];
    assert TopicInv(topic, u, |s.clients|);
    LookupsAgree(s.clients, topic.subs, i);
    var k := FindEntry(topic.subs, i);
    if k == |topic.subs| || !topic.subs[k].sf {
      assert s.topics[u := topic] == s.topics;
      SendNone(s.conns, s.clients[i].fd);
    }
  }

  lemma {:induction false} ReplayTopicOn(r: Rules, s: State, i: nat, u: Name, j: nat, t: Name)
    requires SoundState(s) && UpAt(s, j) && IsOn(s.clients, i) && u in s.topics
    ensures ReplayedOn(r, s, ReplayTopic(r, s, i, u), i, j, t, u == t)
  {
    var owed := Owed(s.topics[u], i);
    ReplayTopicByPointer(r, s, i, u);
    assert TopicInv(s.topics[u], u, |s.clients|);
    OnTopicNews(owed, u, t);
    if j < |s.clients| { DeliveredAfterSend(s.clients, s.conns, i, News(owed), j, t); }
  }

  lemma AppendedOnce<T>(a: seq<T>, b: seq<T>, c: seq<T>, x: seq<T>, first: bool, second: bool)
    requires b == a + (if first then x else []) && c == b + (if second then x else []) && !(first && second)
    ensures c == a + if first || second then x else []
  {
  }

  lemma {:induction false} ReplayedTwice(r: Rules, s: State, s1: State, s2: State, i: nat, j: nat, t: Name,
                                         first: bool, second: bool)
    requires i < |s.clients| && ReplayedOn(r, s, s1, i, j, t, first) && ReplayedOn(r, s1, s2, i, j, t, second)
    requires !(first && second)
    ensures ReplayedOn(r, s, s2, i, j, t, first || second)
  {
    if j < |s.clients| {
      AppendedOnce(Delivered(s, j, t), Delivered(s1, j, t), Delivered(s2, j, t), Owed(TopicAt(s, t), i),
                   first && i == j, second && i == j);
    }
  }

  lemma {:induction false} ReplayKeepsSound(r: Rules, s: State, i: nat, order: seq<Name>, j: nat)
    requires SoundState(s) && UpAt(s, j) && IsOn(s.clients, i)
    ensures SoundState(Replay(r, s, i, order)) && UpAt(Replay(r, s, i, order), j)
    ensures Replay(r, s, i, order).topics.Keys == s.topics.Keys
  {
    ReplaySound(r, s, i, order);
    ReplayKeepsTopics(r, s, i, order, |s.clients|);
    ReplaySameSockets(r, s, i, order);
    if j < |s.clients| { SameSocketsUp(s.clients[j], s.conns, Replay(r, s, i, order).conns); }
  }

  /** A replay does for each topic the same thing, at whatever place the visiting order puts it. */
  lemma {:induction false} ReplayOn(r: Rules, s: State, i: nat, order: seq<Name>, j: nat, t: Name)
    requires SoundState(s) && UpAt(s, j) && IsOn(s.clients, i)
    requires forall u :: u in order ==> u in s.topics
    requires forall a, b :: 0 <= a < b < |order| ==> order[a] != order[b]
    ensures ReplayedOn(r, s, Replay(r, s, i, order), i, j, t, t in order)
  {
    if order != [] {
      var n := |order| - 1;
      var s' := Replay(r, s, i, order[..n]);
      assert order == order[..n] + [order[n]];
      ReplayOn(r, s, i, order[..n], j, t);
      ReplayKeepsSound(r, s, i, order[..n], j);
      ReplayTopicOn(r, s', i, order[n], j, t);
      ReplayedTwice(r, s, s', Replay(r, s, i, order), i, j, t, t in order[..n], order[n] == t);
    }
  }

  lemma RepaidNothing(r: Rules, s: State, i: nat, t: Name)
    requires t !in s.topics
    ensures Repaid(r, TopicAt(s, t), i) == TopicAt(s, t) && Owed(TopicAt(s, t), i) == []
  {
  }

  // ---------- one event ----------

  /** The same topic, the same clients on line, and the same sent to client j. */
  ghost predicate SameFor(l: LaneState, l': LaneState, j: nat)
  {
    && l.on == l'.on && l.topic == l'.topic && |l.got| == |l'.got|
    && (j < |l.got| ==> l.got[j] == l'.got[j])
  }

  lemma SameForAll(l: LaneState, l': LaneState)
    requires forall j: nat :: j <= |l.got| ==> SameFor(l, l', j)
    ensures l == l'
  {
    assert SameFor(l, l', 0);
    forall j | 0 <= j < |l.got| ensures l.got[j] == l'.got[j] {
      assert SameFor(l, l', j);
    }
    assert l.got == l'.got;
  }

  lemma LaneOfBroker(s: State, t: Name)
    requires TopicsInv(s.topics, |s.clients|)
    ensures LaneOk(Project(s, t))
  {
    if t in s.topics { assert TopicInv(s.topics[t], t, |s.clients|); }
  }

  lemma SameInbox(s: State, s': State, j: nat, t: Name)
    requires UpAt(s, j) && j < |s.clients| <= |s'.clients| && |s.conns| <= |s'.conns|
    requires s'.clients[j].sessions == s.clients[j].sessions
    requires forall a :: 0 <= a < |s.conns| ==> OnTopic(s'.conns[a].wire, t) == OnTopic(s.conns[a].wire, t)
    ensures Delivered(s', j, t) == Delivered(s, j, t)
  {
    DeliveredFrame(s.conns, s'.conns, s.clients[j].sessions, t);
  }

  lemma {:induction false} AttachOn(s: State, i: nat, fd: int, j: nat, t: Name)
    requires Sound(s.clients, s.conns) && UpAt(s, j) && i < |s.clients|
    requires IsOpen(s.conns, fd) && !Held(s.clients, fd)
    ensures Flags(Attach(s, i, fd).clients) == Flags(s.clients)[i := true]
    ensures j < |s.clients| ==> Delivered(Attach(s, i, fd), j, t) == Delivered(s, j, t)
  {
    var s', a := Attach(s, i, fd), FindOpen(s.conns, fd);
    assert WireOk(s.conns[a], s.clients);
    assert s'.conns[a].wire == [];
    if j < |s.clients| {
      DeliveredFrame(s.conns, s'.conns, s.clients[j].sessions, t);
      if j == i { assert s'.clients[j].sessions[..|s.clients[j].sessions|] == s.clients[j].sessions; }
    }
  }

  lemma FlagsOfNew(clients: seq<ClientRec>, id: Name)
    ensures Flags(clients + [ClientRec(id, -1, false, [])])[|clients| := true] == Flags(clients) + [true]
  {
  }

  lemma SameForJoin(r: Rules, l: LaneState, l': LaneState, j: nat)
    requires LaneOk(l) && l'.on == l.on + [true] && l'.topic == l.topic && |l'.got| == |l.got| + 1
    requires j <= |l.got| ==> l'.got[j] == if j < |l.got| then l.got[j] else []
    ensures SameFor(l', LaneStep(r, l, Join), j)
  {
  }

  lemma InboxOfNew(s: State, id: Name, j: nat, t: Name)
    requires j <= |s.clients|
    ensures Delivered(s.(clients := s.clients + [ClientRec(id, -1, false, [])]), j, t)
         == if j < |s.clients| then Delivered(s, j, t) else []
  {
  }

  lemma {:induction false} JoinOn(r: Rules, s: State, fd: int, id: Name, j: nat, t: Name)
    requires SoundState(s) && UpAt(s, j) && IsOpen(s.conns, fd) && !Held(s.clients, fd)
    requires FindId(s.clients, id) == |s.clients|
    ensures LaneOk(Project(s, t))
    ensures var s1 := s.(clients := s.clients + [ClientRec(id, -1, false, [])]);
            SameFor(Project(Attach(s1, |s.clients|, fd), t), LaneStep(r, Project(s, t), Join), j)
  {
    var s1 := s.(clients := s.clients + [ClientRec(id, -1, false, [])]);
    LaneOfBroker(s, t);
    RegisterSound(s.clients, s.conns, id);
    AttachOn(s1, |s.clients|, fd, j, t);
    FlagsOfNew(s.clients, id);
    if j <= |s.clients| { InboxOfNew(s, id, j, t); }
    SameForJoin(r, Project(s, t), Project(Attach(s1, |s.clients|, fd), t), j);
  }

  lemma {:induction false} RejoinOn(r: Rules, s: State, i: nat, fd: int, order: seq<Name>, j: nat, t: Name)
    requires SoundState(s) && UpAt(s, j) && IsOrder(s.topics.Keys, order)
    requires i < |s.clients| && !s.clients[i].connected && IsOpen(s.conns, fd) && !Held(s.clients, fd)
    ensures LaneOk(Project(s, t))
    ensures SameFor(Project(Replay(r, Attach(s, i, fd), i, order), t), LaneStep(r, Project(s, t), Rejoin(i)), j)
  {
    var s1 := Attach(s, i, fd);
    LaneOfBroker(s, t);
    AttachSound(s, i, fd);
    AttachUp(s, i, fd, j);
    AttachOn(s, i, fd, j, t);
    ReplayOn(r, s1, i, order, j, t);
    if t !in s.topics { RepaidNothing(r, s1, i, t); }
  }

  lemma RefuseOn(s: State, fd: int, j: nat, t: Name)
    requires UpAt(s, j)
    ensures SameFor(Project(Refuse(s, fd), t), Project(s, t), j)
  {
    var s' := Refuse(s, fd);
    forall b | 0 <= b < |s.conns| ensures OnTopic(s'.conns[b].wire, t) == OnTopic(s.conns[b].wire, t) {
      OnTopicAppend(s.conns[b].wire, [ConnNo], t);
    }
    if j < |s.clients| { SameInbox(s, s', j, t); }
  }

  lemma {:induction false} RequestOn(r: Rules, s: State, fd: int, cmd: Command, order: seq<Name>, j: nat, t: Name)
    requires SoundState(s) && UpAt(s, j) && IsOrder(s.topics.Keys, order)
    requires IsOpen(s.conns, fd) && !Held(s.clients, fd)
    ensures LaneOk(Project(s, t)) && LaneEnabled(Project(s, t), FirstRequestOn(s, cmd))
    ensures SameFor(Project(HandleNewConnection(r, s, fd, cmd, order), t),
                    LaneStep(r, Project(s, t), FirstRequestOn(s, cmd)), j)
  {
    LaneOfBroker(s, t);
    if cmd.ConnReq? {
      var i := FindId(s.clients, cmd.id);
      if i == |s.clients| {
        JoinOn(r, s, fd, cmd.id, j, t);
      } else if s.clients[i].connected {
        RefuseOn(s, fd, j, t);
      } else {
        RejoinOn(r, s, i, fd, order, j, t);
      }
    }
  }

  lemma DetachOn(s: State, i: nat, j: nat, t: Name)
    requires UpAt(s, j) && IsOn(s.clients, i)
    ensures SameFor(Project(Detach(s, i), t), Project(s, t).(on := Flags(s.clients)[i := false]), j)
  {
    if j < |s.clients| { SameInbox(s, Detach(s, i), j, t); }
    assert Flags(Detach(s, i).clients) == Flags(s.clients)[i := false];
  }

  lemma {:induction false} CommandStepOn(r: Rules, s: State, i: nat, cmd: Command, order: seq<Name>,
                                         stale: bool, j: nat, t: Name)
    requires SoundState(s) && UpAt(s, j) && IsOn(s.clients, i)
    ensures LaneOk(Project(s, t)) && LaneEnabled(Project(s, t), CommandOn(i, cmd, stale, t))
    ensures SameFor(Project(HandleComplete(r, s, i, cmd, order, stale), t),
                    LaneStep(r, Project(s, t), CommandOn(i, cmd, stale, t)), j)
  {
    LaneOfBroker(s, t);
    match cmd
    case ConnReq(_) => ConnReqChangesNothing(r, s, i, order);
    case Quit => DetachOn(s, i, j, t);
    case _ =>
  }

  lemma {:induction false} PublishOn(r: Rules, s: State, m: Message, j: nat, t: Name)
    requires SoundState(s) && UpAt(s, j)
    ensures LaneOk(Project(s, t))
    ensures SameFor(Project(Publish(s, m), t), LaneStep(r, Project(s, t), EventOn(r, s, Datagram(m), t)), j)
  {
    LaneOfBroker(s, t);
    if j < |s.clients| {
      DeliveredAfterFanOut(s.clients, s.conns, TopicAt(s, KeyOf(m)).subs, m, j, t);
    }
  }

  lemma ExitOn(s: State, j: nat, t: Name)
    requires UpAt(s, j)
    ensures SameFor(Project(s.(conns := EndAll(s.conns, s.clients), running := false), t), Project(s, t), j)
  {
    var s' := s.(conns := EndAll(s.conns, s.clients), running := false);
    EndAllEndsOnce(s.conns, s.clients);
    forall a | 0 <= a < |s.conns| ensures OnTopic(s'.conns[a].wire, t) == OnTopic(s.conns[a].wire, t) {
      assert EndedAtMost(s.conns[a], s'.conns[a]);
      OnTopicAppend(s.conns[a].wire, [ConnEnd], t);
    }
    if j < |s.clients| { SameInbox(s, s', j, t); }
  }

  lemma {:induction false} HangupOn(r: Rules, s: State, fd: int, j: nat, t: Name)
    requires SoundState(s) && UpAt(s, j) && IsOpen(s.conns, fd)
    ensures LaneOk(Project(s, t)) && LaneEnabled(Project(s, t), EventOn(r, s, Hangup(fd), t))
    ensures SameFor(Project(HandleHangup(r, s, fd), t), LaneStep(r, Project(s, t), EventOn(r, s, Hangup(fd), t)), j)
  {
    LaneOfBroker(s, t);
    OpenFd(s.clients, s.conns, fd);
    if Held(s.clients, fd) && !r.eofLeavesRecord {
      DetachOn(s, FindFd(s.clients, fd), j, t);
    } else if j < |s.clients| {
      SameInbox(s, HandleHangup(r, s, fd), j, t);
    }
  }

  /**
   Under any rules, one event of the broker, seen from topic t, is one step of the one-topic broker; of
   what clients have been sent, this is told of any record that is up.
   */
  lemma {:induction false} StepFor(r: Rules, s: State, e: Event, j: nat, t: Name)
    requires SoundState(s) && Enabled(s, e) && UpAt(s, j)
    ensures LaneOk(Project(s, t)) && LaneEnabled(Project(s, t), EventOn(r, s, e, t))
    ensures SameFor(Project(Step(r, s, e), t), LaneStep(r, Project(s, t), EventOn(r, s, e, t)), j)
  {
    LaneOfBroker(s, t);
    match e
    case Accept(fd) => if j < |s.clients| { SameInbox(s, Step(r, s, e), j, t); }
    case Receive(fd, cmd, order, stale) =>
      OpenFd(s.clients, s.conns, fd);
      if Held(s.clients, fd) {
        CommandStepOn(r, s, FindFd(s.clients, fd), cmd, order, stale, j, t);
      } else {
        RequestOn(r, s, fd, cmd, order, j, t);
      }
    case Hangup(fd) => HangupOn(r, s, fd, j, t);
    case Datagram(m) => PublishOn(r, s, m, j, t);
    case Exit => ExitOn(s, j, t);
  }

  /** With every record up, one event of the broker, seen from topic t, is one step of the one-topic broker. */
  lemma {:induction false} StepOn(r: Rules, s: State, e: Event, t: Name)
    requires SoundState(s) && Enabled(s, e) && forall j :: 0 <= j < |s.clients| ==> UpAt(s, j)
    ensures LaneOk(Project(s, t)) && LaneEnabled(Project(s, t), EventOn(r, s, e, t))
    ensures Project(Step(r, s, e), t) == LaneStep(r, Project(s, t), EventOn(r, s, e, t))
  {
    StepFor(r, s, e, |s.clients|, t);
    var l, l' := Project(Step(r, s, e), t), LaneStep(r, Project(s, t), EventOn(r, s, e, t));
    forall j: nat | j <= |l.got| ensures SameFor(l, l', j) { StepFor(r, s, e, j, t); }
    SameForAll(l, l');
  }

  // ---------- whole runs ----------

  lemma StepSameFor(r: Rules, l: LaneState, l': LaneState, e: LaneEvent, j: nat)
    requires LaneOk(l) && LaneEnabled(l, e) && LaneOk(l') && SameFor(l, l', j)
    ensures LaneEnabled(l', e) && SameFor(LaneStep(r, l, e), LaneStep(r, l', e), j)
  {
  }

  /**
   Under any rules, projecting a run to a topic gives the run of the one-topic broker on the projected
   events: the same topic, the same clients on line, and the same sent to a client that stays up.
   */
  lemma {:induction false} RunFor(r: Rules, es: seq<Event>, j: nat, t: Name)
    requires Legal(r, es) && StaysUp(r, es, j)
    ensures LaneLegal(r, NOBODY, Trace(r, es, t)) && LaneOk(Project(Run(r, es), t))
    ensures SameFor(Project(Run(r, es), t), LaneRun(r, NOBODY, Trace(r, es, t)), j)
  {
    if es == [] {
      assert Project(INIT, t) == NOBODY;
    } else {
      var n := |es| - 1;
      var s, ls := Run(r, es[..n]), Trace(r, es[..n], t);
      StaysUpPrefix(r, es, n, j);
      RunFor(r, es[..n], j, t);
      RunSound(r, es[..n]);
      RunUp(r, es[..n], j);
      StepFor(r, s, es[n], j, t);
      assert Trace(r, es, t)[..n] == ls;
      LaneRunOk(r, NOBODY, ls);
      StepSameFor(r, Project(s, t), LaneRun(r, NOBODY, ls), EventOn(r, s, es[n], t), j);
      StepKeepsTopics(r, s, es[n]);
      LaneOfBroker(Run(r, es), t);
    }
  }

  /** With end-of-file handled as a disconnection, it gives the very run of the one-topic broker. */
  lemma {:induction false} RunOn(r: Rules, es: seq<Event>, t: Name)
    requires !r.eofLeavesRecord && Legal(r, es)
    ensures LaneLegal(r, NOBODY, Trace(r, es, t))
    ensures Project(Run(r, es), t) == LaneRun(r, NOBODY, Trace(r, es, t))
  {
    var l, l' := Project(Run(r, es), t), LaneRun(r, NOBODY, Trace(r, es, t));
    RepairedStaysUp(r, es, 0);
    RunFor(r, es, 0, t);
    forall j: nat | j <= |l.got| ensures SameFor(l, l', j) {
      RepairedStaysUp(r, es, j);
      RunFor(r, es, j, t);
    }
    SameForAll(l, l');
  }

  /** The traces tell the same publishes. */
  ghost predicate SamePublishes(es: seq<Event>, ls: seq<LaneEvent>, t: Name)
  {
    |es| == |ls| && forall k :: 0 <= k < |es| ==> Published([es[k]], t) == Posts([ls[k]])
  }

  lemma OnePublish(e: Event, l: LaneEvent, t: Name)
    ensures Published([e], t) == if e.Datagram? && KeyOf(e.msg) == t then [e.msg] else []
    ensures Posts([l]) == if l.Post? then [l.msg] else []
  {
    assert [e][..0] == [] && [l][..0] == [];
  }

  lemma {:induction false} SamePublishesAgree(es: seq<Event>, ls: seq<LaneEvent>, t: Name)
    requires SamePublishes(es, ls, t)
    ensures Posts(ls) == Published(es, t)
  {
    if es != [] {
      var n := |es| - 1;
      SamePublishesAgree(es[..n], ls[..n], t);
      OnePublish(es[n], ls[n], t);
      assert Published([es[n]], t) == Posts([ls[n]]);
    }
  }

  lemma {:induction false} TraceLast(r: Rules, es: seq<Event>, t: Name)
    requires es != []
    ensures Trace(r, es, t)[..|es| - 1] == Trace(r, es[..|es| - 1], t)
    ensures Trace(r, es, t)[|es| - 1] == EventOn(r, Run(r, es[..|es| - 1]), es[|es| - 1], t)
  {
  }

  lemma {:induction false} TraceAt(r: Rules, es: seq<Event>, k: nat, t: Name)
    requires k < |es|
    ensures Trace(r, es, t)[k] == EventOn(r, Run(r, es[..k]), es[k], t)
  {
    var n := |es| - 1;
    TraceLast(r, es, t);
    if k < n {
      TraceAt(r, es[..n], k, t);
      assert es[..n][..k] == es[..k];
      assert Trace(r, es, t)[k] == Trace(r, es[..n], t)[k];
    }
  }

  lemma EventTellsPublish(r: Rules, s: State, e: Event, t: Name)
    ensures Published([e], t) == Posts([EventOn(r, s, e, t)])
  {
    OnePublish(e, EventOn(r, s, e, t), t);
  }

  lemma {:induction false} TraceTellsPublishes(r: Rules, es: seq<Event>, t: Name)
    ensures SamePublishes(es, Trace(r, es, t), t)
  {
    var ls := Trace(r, es, t);
    forall k | 0 <= k < |es| ensures Published([es[k]], t) == Posts([ls[k]]) {
      TraceAt(r, es, k, t);
      EventTellsPublish(r, Run(r, es[..k]), es[k], t);
    }
  }
}
