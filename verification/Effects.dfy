/**
 What each event does, told without the handlers: a relation between the state before and after, in terms
 of records, topics and connections. Every step of the state machine satisfies it, and it leaves nothing
 open but the order in which a replay interleaves the topics on one wire.
 */
module Effects {
  import opened Protocol
  import opened BrokerSpec
  import opened AnyRules
  import opened Lane
  import opened Projection
  import opened ReplayOrder

  // ---------- records and connections ----------

  predicate Holds(clients: seq<ClientRec>, i: nat, fd: int)
  {
    i < |clients| && clients[i].fd == fd
  }

  ghost predicate NobodyHolds(clients: seq<ClientRec>, fd: int)
  {
    forall i :: 0 <= i < |clients| ==> clients[i].fd != fd
  }

  predicate Named(clients: seq<ClientRec>, i: nat, id: Name)
  {
    i < |clients| && clients[i].id == id
  }

  ghost predicate NobodyNamed(clients: seq<ClientRec>, id: Name)
  {
    forall i :: 0 <= i < |clients| ==> clients[i].id != id
  }

  predicate OpenOn(conns: seq<Conn>, a: nat, fd: int)
  {
    a < |conns| && conns[a].open && conns[a].fd == fd
  }

  /** A connected record has this descriptor. */
  ghost predicate ServedOn(clients: seq<ClientRec>, fd: int)
  {
    exists i :: 0 <= i < |clients| && clients[i].connected && clients[i].fd == fd
  }

  /** The open connection on fd is closed, with nothing written to it, and no other is touched. */
  ghost predicate Closed(conns: seq<Conn>, cs: seq<Conn>, fd: int)
  {
    |cs| == |conns| && forall a :: 0 <= a < |conns| ==>
      cs[a] == if OpenOn(conns, a, fd) then conns[a].(open := false) else conns[a]
  }

  // ---------- requests of registered clients ----------

  /** Topic t may have changed; nothing else has. */
  ghost predicate OnlyTopic(s: State, s': State, t: Name)
  {
    && s'.clients == s.clients && s'.conns == s.conns && s'.running == s.running
    && s'.topics.Keys == s.topics.Keys + {t}
    && forall u :: u in s.topics && u != t ==> s'.topics[u] == s.topics[u]
  }

  ghost predicate Subscribed(r: Rules, topic: Topic, topic': Topic, i: nat, sf: bool)
  {
    && topic'.log == topic.log
    && topic'.sfCount == topic.sfCount + (if sf then 1 else 0)
    && |topic'.subs| == |topic.subs| + 1 && topic.subs <= topic'.subs
    && topic'.subs[|topic.subs|] == Entry(i, sf, if r.cursorFromZero then 0 else |topic.log| - 1)
  }

  /** Position k holds the first entry of client i. */
  ghost predicate FirstEntry(subs: seq<Entry>, k: nat, i: nat)
  {
    k < |subs| && subs[k].client == i && forall j :: 0 <= j < k ==> subs[j].client != i
  }

  ghost predicate NoEntry(topic: Topic, i: nat)
  {
    forall k :: 0 <= k < |topic.subs| ==> topic.subs[k].client != i
  }

  /** The entry at k is gone; as written, the flag is read at k afterwards. */
  ghost predicate Unsubscribed(r: Rules, topic: Topic, topic': Topic, k: nat, stale: bool)
    requires k < |topic.subs|
  {
    && topic'.subs == topic.subs[..k] + topic.subs[k + 1..]
    && var read := if !r.readAfterErase then topic.subs[k].sf
                   else if k < |topic'.subs| then topic'.subs[k].sf else stale;
       && topic'.sfCount == topic.sfCount - (if read then 1 else 0)
       && topic'.log == if topic'.sfCount == 0 then [] else topic.log
  }

  ghost predicate UnsubscribeEffect(r: Rules, s: State, i: nat, t: Name, stale: bool, s': State)
  {
    if NoEntry(TopicAt(s, t), i) then s' == s
    else
      && OnlyTopic(s, s', t)
      && forall k: nat :: FirstEntry(s.topics[t].subs, k, i) ==>
           Unsubscribed(r, s.topics[t], s'.topics[t], k, stale)
  }

  /** Record i is off line, and its socket closed without a word. */
  ghost predicate LeaveEffect(s: State, i: nat, fd: int, s': State)
    requires i < |s.clients|
  {
    && s'.clients == s.clients[i := ClientRec(s.clients[i].id, -1, false, s.clients[i].sessions)]
    && s'.topics == s.topics && s'.running == s.running
    && Closed(s.conns, s'.conns, fd)
  }

  ghost predicate CommandEffect(r: Rules, s: State, i: nat, fd: int, cmd: Command, stale: bool, s': State)
    requires i < |s.clients|
  {
    match cmd
    case ConnReq(_) => s' == s
    case Subscribe(t, sf) => OnlyTopic(s, s', t) && Subscribed(r, TopicAt(s, t), s'.topics[t], i, sf)
    case Unsubscribe(t) => UnsubscribeEffect(r, s, i, t, stale, s')
    case Quit => LeaveEffect(s, i, fd, s')
    case Other => s' == s
  }

  // ---------- first requests ----------

  ghost predicate RegisterEffect(s: State, fd: int, id: Name, s': State)
  {
    && s'.topics == s.topics && s'.running == s.running
    && forall a: nat :: OpenOn(s.conns, a, fd) ==>
         && s'.clients == s.clients + [ClientRec(id, fd, true, [a])]
         && s'.conns == s.conns[a := s.conns[a].(owner := |s.clients|)]
  }

  /** The connection gets a CONN_NO and is closed. */
  ghost predicate RefuseEffect(s: State, fd: int, s': State)
  {
    && s'.clients == s.clients && s'.topics == s.topics && s'.running == s.running
    && |s'.conns| == |s.conns|
    && forall a :: 0 <= a < |s.conns| ==>
         s'.conns[a] == if !OpenOn(s.conns, a, fd) then s.conns[a]
                        else s.conns[a].(wire := s.conns[a].wire + [ConnNo], open := false)
  }

  /** Nothing of the topic changes but, with the intended rule, the cursor of the client's first entry with SF. */
  ghost predicate CursorMoved(r: Rules, topic: Topic, topic': Topic, i: nat)
  {
    && topic'.log == topic.log && topic'.sfCount == topic.sfCount && |topic'.subs| == |topic.subs|
    && forall k :: 0 <= k < |topic.subs| ==>
         topic'.subs[k] == if FirstEntry(topic.subs, k, i) && topic.subs[k].sf && !r.replayKeepsCursor
                           then Entry(i, true, |topic.log| - 1) else topic.subs[k]
  }

  /** If client i has an entry, and its first one is with SF, then the log after the cursor; else nothing. */
  ghost predicate IsOwed(topic: Topic, i: nat, ms: seq<Message>)
  {
    && (NoEntry(topic, i) ==> ms == [])
    && forall k: nat :: FirstEntry(topic.subs, k, i) ==>
         if topic.subs[k].sf && 0 <= topic.subs[k].cursor + 1 < |topic.log|
         then topic.log == topic.log[..topic.subs[k].cursor + 1] + ms
         else ms == []
  }

  ghost predicate Paid(topic: Topic, i: nat, before: seq<Message>, after: seq<Message>)
  {
    before <= after && IsOwed(topic, i, after[|before|..])
  }

  /** The connection is client j's, and has been sent what the topics owe it; whatever else is as it was. */
  ghost predicate Caught(s: State, c: Conn, j: nat, c': Conn)
  {
    && c'.fd == c.fd && c'.open && c'.owner == j && Controls(c'.wire) == Controls(c.wire)
    && forall t :: Paid(TopicAt(s, t), j, OnTopic(c.wire, t), OnTopic(c'.wire, t))
  }

  ghost predicate ReconnectEffect(r: Rules, s: State, fd: int, j: nat, s': State)
    requires j < |s.clients|
  {
    && s'.running == s.running
    && s'.topics.Keys == s.topics.Keys
    && (forall t :: t in s.topics ==> CursorMoved(r, s.topics[t], s'.topics[t], j))
    && |s'.conns| == |s.conns|
    && forall a :: 0 <= a < |s.conns| ==>
         if OpenOn(s.conns, a, fd)
         then Caught(s, s.conns[a], j, s'.conns[a]) && s'.clients ==
              s.clients[j := ClientRec(s.clients[j].id, fd, true, s.clients[j].sessions + [a])]
         else s'.conns[a] == s.conns[a]
  }

  ghost predicate RequestEffect(r: Rules, s: State, fd: int, cmd: Command, s': State)
  {
    if !cmd.ConnReq? then s' == s
    else
      && (NobodyNamed(s.clients, cmd.id) ==> RegisterEffect(s, fd, cmd.id, s'))
      && forall j: nat :: Named(s.clients, j, cmd.id) ==>
           if s.clients[j].connected then RefuseEffect(s, fd, s') else ReconnectEffect(r, s, fd, j, s')
  }

  // ---------- the other events ----------

  ghost predicate HangupEffect(r: Rules, s: State, fd: int, s': State)
  {
    && s'.topics == s.topics && s'.running == s.running
    && Closed(s.conns, s'.conns, fd)
    && (r.eofLeavesRecord || NobodyHolds(s.clients, fd) ==> s'.clients == s.clients)
    && forall i: nat :: Holds(s.clients, i, fd) && !r.eofLeavesRecord ==> LeaveEffect(s, i, fd, s')
  }

  /** How many of the entries are those of connected records with this descriptor. */
  function Reaching(clients: seq<ClientRec>, subs: seq<Entry>, fd: int): nat
  {
    if subs == [] then 0
    else
      var i := subs[|subs| - 1].client;
      Reaching(clients, subs[..|subs| - 1], fd) +
      if i < |clients| && clients[i].connected && clients[i].fd == fd then 1 else 0
  }

  /** n times the packet of m. */
  function Packets(m: Message, n: nat): seq<Packet>
  {
    seq(n, _ => MsgNew(m))
  }

  /** Logged while the count is not zero; the cursors of connected subscribers are at the end of the log. */
  ghost predicate Posted(clients: seq<ClientRec>, topic: Topic, topic': Topic, m: Message)
  {
    && topic'.log == (if topic.sfCount != 0 then topic.log + [m] else topic.log)
    && topic'.sfCount == topic.sfCount && |topic'.subs| == |topic.subs|
    && forall k :: 0 <= k < |topic.subs| ==>
         topic'.subs[k] == Entry(topic.subs[k].client, topic.subs[k].sf,
                                 if IsOn(clients, topic.subs[k].client) then |topic'.log| - 1
                                 else topic.subs[k].cursor)
  }

  ghost predicate PublishEffect(s: State, m: Message, s': State)
  {
    && OnlyTopic(s.(conns := []), s'.(conns := []), KeyOf(m))
    && Posted(s.clients, TopicAt(s, KeyOf(m)), s'.topics[KeyOf(m)], m)
    && |s'.conns| == |s.conns|
    && forall a :: 0 <= a < |s.conns| ==>
         s'.conns[a] == if !s.conns[a].open then s.conns[a]
                        else s.conns[a].(wire := s.conns[a].wire +
                          Packets(m, Reaching(s.clients, TopicAt(s, KeyOf(m)).subs, s.conns[a].fd)))
  }

  /** Every open connection of a connected record gets a CONN_END and is closed; no other is touched. */
  ghost predicate ExitEffect(s: State, s': State)
  {
    && s'.clients == s.clients && s'.topics == s.topics && !s'.running
    && |s'.conns| == |s.conns|
    && forall a :: 0 <= a < |s.conns| ==>
         s'.conns[a] == if s.conns[a].open && ServedOn(s.clients, s.conns[a].fd)
                        then s.conns[a].(wire := s.conns[a].wire + [ConnEnd], open := false) else s.conns[a]
  }

  ghost predicate AcceptEffect(s: State, fd: int, s': State)
  {
    && s'.clients == s.clients && s'.topics == s.topics && s'.running == s.running
    && |s'.conns| == |s.conns| + 1 && s.conns <= s'.conns && s'.conns[|s.conns|] == Conn(fd, true, -1, [])
  }

  ghost predicate Effect(r: Rules, s: State, e: Event, s': State)
  {
    match e
    case Accept(fd) => AcceptEffect(s, fd, s')
    case Receive(fd, cmd, _, stale) =>
      && (NobodyHolds(s.clients, fd) ==> RequestEffect(r, s, fd, cmd, s'))
      && forall i: nat :: Holds(s.clients, i, fd) ==> CommandEffect(r, s, i, fd, cmd, stale, s')
    case Hangup(fd) => HangupEffect(r, s, fd, s')
    case Datagram(m) => PublishEffect(s, m, s')
    case Exit => ExitEffect(s, s')
  }

  // ---------- the state machine does this ----------

  lemma OpenIsOne(conns: seq<Conn>, fd: int)
    requires FdsDistinct(conns) && IsOpen(conns, fd)
    ensures OpenOn(conns, FindOpen(conns, fd), fd)
    ensures forall a: nat :: OpenOn(conns, a, fd) ==> a == FindOpen(conns, fd)
  {
  }

  lemma HolderIsOne(clients: seq<ClientRec>, fd: int)
    requires RecordsOk(clients) && fd >= 0
    ensures NobodyHolds(clients, fd) <==> !Held(clients, fd)
    ensures forall i: nat :: Holds(clients, i, fd) <==> Held(clients, fd) && i == FindFd(clients, fd)
  {
  }

  lemma NamedIsOne(clients: seq<ClientRec>, id: Name)
    requires IdsDistinct(clients)
    ensures NobodyNamed(clients, id) <==> FindId(clients, id) == |clients|
    ensures forall j: nat :: Named(clients, j, id) <==> FindId(clients, id) < |clients| && j == FindId(clients, id)
  {
  }

  lemma FirstIsFound(topic: Topic, i: nat)
    ensures NoEntry(topic, i) <==> FindEntry(topic.subs, i) == |topic.subs|
    ensures forall k: nat :: FirstEntry(topic.subs, k, i) <==>
              FindEntry(topic.subs, i) < |topic.subs| && k == FindEntry(topic.subs, i)
  {
  }

  lemma CloseCloses(conns: seq<Conn>, fd: int)
    ensures Closed(conns, Close(conns, fd), fd)
  {
  }

  lemma DetachLeaves(s: State, i: nat)
    requires i < |s.clients|
    ensures LeaveEffect(s, i, s.clients[i].fd, Detach(s, i))
  {
    CloseCloses(s.conns, s.clients[i].fd);
  }

  lemma EntryRemoved(r: Rules, topic: Topic, i: nat, stale: bool)
    requires FindEntry(topic.subs, i) < |topic.subs|
    ensures Unsubscribed(r, topic, RemoveEntry(r, topic, i, stale), FindEntry(topic.subs, i), stale)
  {
  }

  lemma UnsubscribeDoes(r: Rules, s: State, i: nat, t: Name, order: seq<Name>, stale: bool)
    requires i < |s.clients|
    ensures UnsubscribeEffect(r, s, i, t, stale, HandleComplete(r, s, i, Unsubscribe(t), order, stale))
  {
    FirstIsFound(TopicAt(s, t), i);
    if t in s.topics {
      var topic := s.topics[t];
      if NoEntry(topic, i) {
        assert s.topics[t := topic] == s.topics;
      } else {
        EntryRemoved(r, topic, i, stale);
      }
    }
  }

  lemma {:induction false} CommandDoes(r: Rules, s: State, i: nat, cmd: Command, order: seq<Name>, stale: bool)
    requires RecordsOk(s.clients) && IsOn(s.clients, i)
    ensures CommandEffect(r, s, i, s.clients[i].fd, cmd, stale, HandleComplete(r, s, i, cmd, order, stale))
  {
    match cmd
    case ConnReq(_) => ConnReqChangesNothing(r, s, i, order);
    case Unsubscribe(t) => UnsubscribeDoes(r, s, i, t, order, stale);
    case Quit => DetachLeaves(s, i);
    case _ =>
  }

  lemma RegisterDoes(s: State, fd: int, id: Name)
    requires FdsDistinct(s.conns) && IsOpen(s.conns, fd)
    ensures var s1 := s.(clients := s.clients + [ClientRec(id, -1, false, [])]);
            RegisterEffect(s, fd, id, Attach(s1, |s.clients|, fd))
  {
    OpenIsOne(s.conns, fd);
    var s' := Attach(s.(clients := s.clients + [ClientRec(id, -1, false, [])]), |s.clients|, fd);
    assert [] + [FindOpen(s.conns, fd)] == [FindOpen(s.conns, fd)];
    assert s'.clients == s.clients + [ClientRec(id, fd, true, [FindOpen(s.conns, fd)])];
  }

  lemma RefuseDoes(s: State, fd: int)
    ensures RefuseEffect(s, fd, Refuse(s, fd))
  {
  }

  lemma RepaidMoves(r: Rules, topic: Topic, i: nat)
    ensures CursorMoved(r, topic, Repaid(r, topic, i), i)
  {
    FirstIsFound(topic, i);
  }

  /** This is what the state machine calls owed. */
  lemma OwedIsOwed(topic: Topic, i: nat, ms: seq<Message>)
    ensures IsOwed(topic, i, ms) <==> ms == Owed(topic, i)
  {
    FirstIsFound(topic, i);
    var k := FindEntry(topic.subs, i);
    if k < |topic.subs| && topic.subs[k].sf && 0 <= topic.subs[k].cursor + 1 < |topic.log| {
      assert FirstEntry(topic.subs, k, i);
      var seen := topic.log[..topic.subs[k].cursor + 1];
      assert topic.log == seen + Owed(topic, i);
      if topic.log == seen + ms { assert ms == topic.log[|seen|..]; }
    }
  }

  lemma PaidIsOwed(topic: Topic, i: nat, before: seq<Message>, after: seq<Message>)
    ensures Paid(topic, i, before, after) <==> after == before + Owed(topic, i)
  {
    if before <= after {
      OwedIsOwed(topic, i, after[|before|..]);
      assert after == before + after[|before|..];
    }
    if after == before + Owed(topic, i) { assert after[|before|..] == Owed(topic, i); }
  }

  ghost predicate Returns(s: State, j: nat, fd: int, order: seq<Name>)
  {
    && SoundState(s) && j < |s.clients| && !s.clients[j].connected
    && IsOpen(s.conns, fd) && !Held(s.clients, fd) && IsOrder(s.topics.Keys, order)
  }

  lemma {:induction false} ReturnIsReplayable(s: State, j: nat, fd: int, order: seq<Name>)
    requires Returns(s, j, fd, order)
    ensures Replayable(Attach(s, j, fd), j, order)
  {
    AttachSound(s, j, fd);
  }

  lemma {:induction false} ReturnOnTopic(r: Rules, s: State, j: nat, fd: int, order: seq<Name>, t: Name)
    requires Returns(s, j, fd, order) && t in s.topics
    ensures var s' := Replay(r, Attach(s, j, fd), j, order);
            t in s'.topics && CursorMoved(r, s.topics[t], s'.topics[t], j)
  {
    ReturnIsReplayable(s, j, fd, order);
    ReplayTopicAt(r, Attach(s, j, fd), j, order, t);
    RepaidMoves(r, s.topics[t], j);
  }

  /** What the connection of a returning client carries on topic t. */
  lemma {:induction false} ReturnOnWire(r: Rules, s: State, j: nat, fd: int, order: seq<Name>, a: nat, t: Name)
    requires Returns(s, j, fd, order) && a < |s.conns|
    ensures |Replay(r, Attach(s, j, fd), j, order).conns| == |s.conns|
    ensures OnTopic(Replay(r, Attach(s, j, fd), j, order).conns[a].wire, t)
         == OnTopic(s.conns[a].wire, t) + if OpenOn(s.conns, a, fd) then Owed(TopicAt(s, t), j) else []
  {
    ReturnIsReplayable(s, j, fd, order);
    ReplayWire(r, Attach(s, j, fd), j, order, a, t);
    if t !in s.topics { RepaidNothing(r, s, j, t); }
  }

  /** A replay to client j writes to the open connection with its descriptor alone. */
  lemma {:induction false} ReplaySparesOthers(r: Rules, s: State, j: nat, order: seq<Name>, a: nat)
    requires j < |s.clients| && a < |s.conns| && !OpenOn(s.conns, a, s.clients[j].fd)
    ensures |Replay(r, s, j, order).conns| == |s.conns| && Replay(r, s, j, order).conns[a] == s.conns[a]
  {
    if order != [] { ReplaySparesOthers(r, s, j, order[..|order| - 1], a); }
  }

  lemma {:induction false} ReturnCatchesUp(r: Rules, s: State, j: nat, fd: int, order: seq<Name>, a: nat)
    requires Returns(s, j, fd, order) && OpenOn(s.conns, a, fd)
    ensures |Replay(r, Attach(s, j, fd), j, order).conns| == |s.conns|
    ensures Caught(s, s.conns[a], j, Replay(r, Attach(s, j, fd), j, order).conns[a])
  {
    var s' := Replay(r, Attach(s, j, fd), j, order);
    OpenIsOne(s.conns, fd);
    ReplayIsOnlyNews(r, Attach(s, j, fd), j, order, a);
    forall t ensures Paid(TopicAt(s, t), j, OnTopic(s.conns[a].wire, t), OnTopic(s'.conns[a].wire, t)) {
      ReturnOnWire(r, s, j, fd, order, a, t);
      PaidIsOwed(TopicAt(s, t), j, OnTopic(s.conns[a].wire, t), OnTopic(s'.conns[a].wire, t));
    }
  }

  lemma {:induction false} ReturnDoes(r: Rules, s: State, j: nat, fd: int, order: seq<Name>)
    requires Returns(s, j, fd, order)
    ensures ReconnectEffect(r, s, fd, j, Replay(r, Attach(s, j, fd), j, order))
  {
    var s1 := Attach(s, j, fd);
    var s' := Replay(r, s1, j, order);
    OpenIsOne(s.conns, fd);
    ReplaySameSockets(r, s1, j, order);
    ReplayKeepsTopics(r, s1, j, order, |s.clients|);
    forall t | t in s.topics ensures CursorMoved(r, s.topics[t], s'.topics[t], j) {
      ReturnOnTopic(r, s, j, fd, order, t);
    }
    forall a | 0 <= a < |s.conns|
      ensures if OpenOn(s.conns, a, fd) then Caught(s, s.conns[a], j, s'.conns[a]) else s'.conns[a] == s.conns[a]
    {
      if OpenOn(s.conns, a, fd) {
        ReturnCatchesUp(r, s, j, fd, order, a);
      } else {
        ReplaySparesOthers(r, s1, j, order, a);
      }
    }
  }

  lemma {:induction false} RequestDoes(r: Rules, s: State, fd: int, cmd: Command, order: seq<Name>)
    requires SoundState(s) && IsOpen(s.conns, fd) && !Held(s.clients, fd) && IsOrder(s.topics.Keys, order)
    ensures RequestEffect(r, s, fd, cmd, HandleNewConnection(r, s, fd, cmd, order))
  {
    if cmd.ConnReq? {
      NamedIsOne(s.clients, cmd.id);
      var j := FindId(s.clients, cmd.id);
      if j == |s.clients| {
        RegisterDoes(s, fd, cmd.id);
      } else if s.clients[j].connected {
        RefuseDoes(s, fd);
      } else {
        ReturnDoes(r, s, j, fd, order);
      }
    }
  }

  lemma {:induction false} HangupDoes(r: Rules, s: State, fd: int)
    requires RecordsOk(s.clients) && fd >= 0
    ensures HangupEffect(r, s, fd, HandleHangup(r, s, fd))
  {
    HolderIsOne(s.clients, fd);
    CloseCloses(s.conns, fd);
    if Held(s.clients, fd) { DetachLeaves(s, FindFd(s.clients, fd)); }
  }

  lemma OnePacketMore(c: Conn, m: Message, n: nat)
    ensures c.wire + Packets(m, n) + [MsgNew(m)] == c.wire + Packets(m, n + 1)
  {
  }

  lemma {:induction false} FanOutReaches(conns: seq<Conn>, clients: seq<ClientRec>, subs: seq<Entry>,
                                         m: Message, a: nat)
    requires a < |conns|
    ensures |FanOut(conns, clients, subs, m)| == |conns|
    ensures FanOut(conns, clients, subs, m)[a] ==
            if !conns[a].open then conns[a]
            else conns[a].(wire := conns[a].wire + Packets(m, Reaching(clients, subs, conns[a].fd)))
  {
    if subs == [] {
      assert conns[a].wire + Packets(m, 0) == conns[a].wire;
    } else {
      var n := |subs| - 1;
      FanOutReaches(conns, clients, subs[..n], m, a);
      OnePacketMore(conns[a], m, Reaching(clients, subs[..n], conns[a].fd));
    }
  }

  lemma {:induction false} PublishDoes(s: State, m: Message)
    ensures PublishEffect(s, m, Publish(s, m))
  {
    var subs := TopicAt(s, KeyOf(m)).subs;
    FanOutKeepsWires(s.conns, s.clients, subs, m);
    forall a | 0 <= a < |s.conns|
      ensures Publish(s, m).conns[a] == if !s.conns[a].open then s.conns[a]
              else s.conns[a].(wire := s.conns[a].wire + Packets(m, Reaching(s.clients, subs, s.conns[a].fd)))
    {
      FanOutReaches(s.conns, s.clients, subs, m, a);
    }
  }

  lemma ServedMore(clients: seq<ClientRec>, fd: int)
    requires clients != []
    ensures ServedOn(clients, fd) <==>
            ServedOn(clients[..|clients| - 1], fd)
            || (clients[|clients| - 1].connected && clients[|clients| - 1].fd == fd)
  {
    var n := |clients| - 1;
    if ServedOn(clients[..n], fd) {
      var i :| 0 <= i < n && clients[..n][i].connected && clients[..n][i].fd == fd;
      assert clients[i].connected && clients[i].fd == fd;
    }
    if ServedOn(clients, fd) {
      var i :| 0 <= i < |clients| && clients[i].connected && clients[i].fd == fd;
      if i < n { assert clients[..n][i].connected && clients[..n][i].fd == fd; }
    }
  }

  lemma {:induction false} EndAllReaches(conns: seq<Conn>, clients: seq<ClientRec>, a: nat)
    requires a < |conns|
    ensures |EndAll(conns, clients)| == |conns|
    ensures EndAll(conns, clients)[a] ==
            if conns[a].open && ServedOn(clients, conns[a].fd)
            then conns[a].(wire := conns[a].wire + [ConnEnd], open := false) else conns[a]
  {
    if clients != [] {
      EndAllReaches(conns, clients[..|clients| - 1], a);
      ServedMore(clients, conns[a].fd);
    }
  }

  lemma {:induction false} ExitDoes(r: Rules, s: State)
    ensures ExitEffect(s, Step(r, s, Exit))
  {
    EndAllKeepsWires(s.conns, s.clients);
    forall a | 0 <= a < |s.conns|
      ensures Step(r, s, Exit).conns[a] == if s.conns[a].open && ServedOn(s.clients, s.conns[a].fd)
              then s.conns[a].(wire := s.conns[a].wire + [ConnEnd], open := false) else s.conns[a]
    {
      EndAllReaches(s.conns, s.clients, a);
    }
  }

  lemma {:induction false} ReceiveDoes(r: Rules, s: State, e: Event)
    requires SoundState(s) && Enabled(s, e) && e.Receive?
    ensures Effect(r, s, e, Step(r, s, e))
  {
    OpenFd(s.clients, s.conns, e.fd);
    HolderIsOne(s.clients, e.fd);
    if Held(s.clients, e.fd) {
      CommandDoes(r, s, FindFd(s.clients, e.fd), e.cmd, e.order, e.stale);
    } else {
      RequestDoes(r, s, e.fd, e.cmd, e.order);
    }
  }

  /** Each event has its effect. */
  lemma {:induction false} StepDoes(r: Rules, s: State, e: Event)
    requires SoundState(s) && Enabled(s, e)
    ensures Effect(r, s, e, Step(r, s, e))
  {
    match e
    case Accept(_) =>
    case Receive(_, _, _, _) => ReceiveDoes(r, s, e);
    case Hangup(fd) =>
      OpenFd(s.clients, s.conns, fd);
      HangupDoes(r, s, fd);
    case Datagram(m) => PublishDoes(s, m);
    case Exit => ExitDoes(r, s);
  }

  // ---------- and nothing else does ----------

  lemma OnlyTopicIs(s: State, s': State, t: Name)
    requires OnlyTopic(s, s', t)
    ensures s' == s.(topics := s.topics[t := s'.topics[t]])
  {
  }

  lemma SubscribeOnlyDoes(r: Rules, s: State, i: nat, t: Name, sf: bool, s': State)
    requires OnlyTopic(s, s', t) && Subscribed(r, TopicAt(s, t), s'.topics[t], i, sf)
    ensures s' == s.(topics := s.topics[t := AddEntry(r, TopicAt(s, t), i, sf)])
  {
    OnlyTopicIs(s, s', t);
    var was, subs := TopicAt(s, t).subs, s'.topics[t].subs;
    assert subs == subs[..|was|] + [subs[|was|]] && subs[..|was|] == was;
    assert s'.topics[t] == AddEntry(r, TopicAt(s, t), i, sf);
  }

  lemma UnsubscribeOnlyDoes(r: Rules, s: State, i: nat, t: Name, order: seq<Name>, stale: bool, s': State)
    requires i < |s.clients| && UnsubscribeEffect(r, s, i, t, stale, s')
    ensures s' == HandleComplete(r, s, i, Unsubscribe(t), order, stale)
  {
    UnsubscribeDoes(r, s, i, t, order, stale);
    if !NoEntry(TopicAt(s, t), i) {
      var u, k := HandleComplete(r, s, i, Unsubscribe(t), order, stale), FindEntry(s.topics[t].subs, i);
      FirstIsFound(s.topics[t], i);
      OnlyTopicIs(s, s', t);
      OnlyTopicIs(s, u, t);
      assert FirstEntry(s.topics[t].subs, k, i);
      assert s'.topics[t] == u.topics[t];
    }
  }

  lemma ClosedIsClose(conns: seq<Conn>, cs: seq<Conn>, fd: int)
    requires Closed(conns, cs, fd)
    ensures cs == Close(conns, fd)
  {
  }

  lemma LeaveOnlyDoes(s: State, i: nat, s': State)
    requires i < |s.clients| && LeaveEffect(s, i, s.clients[i].fd, s')
    ensures s' == Detach(s, i)
  {
    ClosedIsClose(s.conns, s'.conns, s.clients[i].fd);
  }

  lemma {:induction false} CommandOnlyDoes(r: Rules, s: State, i: nat, cmd: Command, order: seq<Name>,
                                           stale: bool, s': State)
    requires RecordsOk(s.clients) && IsOn(s.clients, i)
    requires CommandEffect(r, s, i, s.clients[i].fd, cmd, stale, s')
    ensures s' == HandleComplete(r, s, i, cmd, order, stale)
  {
    match cmd
    case ConnReq(_) => ConnReqChangesNothing(r, s, i, order);
    case Subscribe(t, sf) => SubscribeOnlyDoes(r, s, i, t, sf, s');
    case Unsubscribe(t) => UnsubscribeOnlyDoes(r, s, i, t, order, stale, s');
    case Quit => LeaveOnlyDoes(s, i, s');
    case Other =>
  }

  lemma RegisterOnlyDoes(s: State, fd: int, id: Name, s': State)
    requires FdsDistinct(s.conns) && IsOpen(s.conns, fd) && RegisterEffect(s, fd, id, s')
    ensures s' == Attach(s.(clients := s.clients + [ClientRec(id, -1, false, [])]), |s.clients|, fd)
  {
    OpenIsOne(s.conns, fd);
    RegisterDoes(s, fd, id);
  }

  lemma RefuseOnlyDoes(s: State, fd: int, s': State)
    requires RefuseEffect(s, fd, s')
    ensures s' == Refuse(s, fd)
  {
    RefuseDoes(s, fd);
    assert s'.conns == Refuse(s, fd).conns;
  }

  lemma MovedIsOne(r: Rules, topic: Topic, x: Topic, y: Topic, i: nat)
    requires CursorMoved(r, topic, x, i) && CursorMoved(r, topic, y, i)
    ensures x == y
  {
    assert x.subs == y.subs;
  }

  lemma CaughtIsOne(s: State, c: Conn, j: nat, d: Conn, e: Conn)
    requires Caught(s, c, j, d) && Caught(s, c, j, e)
    ensures SameConn(d, e)
  {
    forall t ensures OnTopic(d.wire, t) == OnTopic(e.wire, t) {
      PaidIsOwed(TopicAt(s, t), j, OnTopic(c.wire, t), OnTopic(d.wire, t));
      PaidIsOwed(TopicAt(s, t), j, OnTopic(c.wire, t), OnTopic(e.wire, t));
    }
  }

  lemma {:induction false} ReconnectIsOne(r: Rules, s: State, fd: int, j: nat, x: State, y: State)
    requires j < |s.clients| && IsOpen(s.conns, fd)
    requires ReconnectEffect(r, s, fd, j, x) && ReconnectEffect(r, s, fd, j, y)
    ensures SameState(x, y)
  {
    assert OpenOn(s.conns, FindOpen(s.conns, fd), fd);
    forall t | t in s.topics ensures x.topics[t] == y.topics[t] {
      MovedIsOne(r, s.topics[t], x.topics[t], y.topics[t], j);
    }
    forall a | 0 <= a < |s.conns| ensures SameConn(x.conns[a], y.conns[a]) {
      if OpenOn(s.conns, a, fd) { CaughtIsOne(s, s.conns[a], j, x.conns[a], y.conns[a]); }
    }
  }

  lemma {:induction false} RequestOnlyDoes(r: Rules, s: State, fd: int, cmd: Command, order: seq<Name>, s': State)
    requires SoundState(s) && IsOpen(s.conns, fd) && !Held(s.clients, fd) && IsOrder(s.topics.Keys, order)
    requires RequestEffect(r, s, fd, cmd, s')
    ensures SameState(s', HandleNewConnection(r, s, fd, cmd, order))
  {
    if cmd.ConnReq? {
      NamedIsOne(s.clients, cmd.id);
      var j := FindId(s.clients, cmd.id);
      if j == |s.clients| {
        RegisterOnlyDoes(s, fd, cmd.id, s');
      } else if s.clients[j].connected {
        assert Named(s.clients, j, cmd.id);
        RefuseOnlyDoes(s, fd, s');
      } else {
        assert Named(s.clients, j, cmd.id);
        ReturnDoes(r, s, j, fd, order);
        ReconnectIsOne(r, s, fd, j, s', HandleNewConnection(r, s, fd, cmd, order));
      }
    }
  }

  lemma {:induction false} HangupOnlyDoes(r: Rules, s: State, fd: int, s': State)
    requires RecordsOk(s.clients) && fd >= 0 && HangupEffect(r, s, fd, s')
    ensures s' == HandleHangup(r, s, fd)
  {
    HolderIsOne(s.clients, fd);
    ClosedIsClose(s.conns, s'.conns, fd);
    if Held(s.clients, fd) && !r.eofLeavesRecord {
      assert Holds(s.clients, FindFd(s.clients, fd), fd);
      LeaveOnlyDoes(s, FindFd(s.clients, fd), s');
    }
  }

  lemma PostedIsOne(clients: seq<ClientRec>, topic: Topic, x: Topic, y: Topic, m: Message)
    requires Posted(clients, topic, x, m) && Posted(clients, topic, y, m)
    ensures x == y
  {
    assert x.subs == y.subs;
  }

  lemma {:induction false} PublishOnlyDoes(s: State, m: Message, s': State)
    requires PublishEffect(s, m, s')
    ensures s' == Publish(s, m)
  {
    var t, u := KeyOf(m), Publish(s, m);
    PublishDoes(s, m);
    OnlyTopicIs(s.(conns := []), s'.(conns := []), t);
    OnlyTopicIs(s.(conns := []), u.(conns := []), t);
    PostedIsOne(s.clients, TopicAt(s, t), s'.topics[t], u.topics[t], m);
    assert s'.conns == u.conns;
  }

  lemma {:induction false} ExitOnlyDoes(r: Rules, s: State, s': State)
    requires ExitEffect(s, s')
    ensures s' == Step(r, s, Exit)
  {
    ExitDoes(r, s);
    assert s'.conns == Step(r, s, Exit).conns;
  }

  lemma {:induction false} ReceiveOnlyDoes(r: Rules, s: State, e: Event, s': State)
    requires SoundState(s) && Enabled(s, e) && e.Receive? && Effect(r, s, e, s')
    ensures SameState(s', Step(r, s, e))
  {
    OpenFd(s.clients, s.conns, e.fd);
    HolderIsOne(s.clients, e.fd);
    var i := FindFd(s.clients, e.fd);
    if Held(s.clients, e.fd) {
      assert Holds(s.clients, i, e.fd);
      CommandOnlyDoes(r, s, i, e.cmd, e.order, e.stale, s');
    } else {
      RequestOnlyDoes(r, s, e.fd, e.cmd, e.order, s');
    }
  }

  /** A state that is the effect of an event is the state after its step, up to the order a replay is free in. */
  lemma {:induction false} StepOnlyDoes(r: Rules, s: State, e: Event, s': State)
    requires SoundState(s) && Enabled(s, e) && Effect(r, s, e, s')
    ensures SameState(s', Step(r, s, e))
  {
    match e
    case Accept(_) => assert s'.conns == s'.conns[..|s.conns|] + [s'.conns[|s.conns|]];
    case Receive(_, _, _, _) => ReceiveOnlyDoes(r, s, e, s');
    case Hangup(fd) =>
      OpenFd(s.clients, s.conns, fd);
      HangupOnlyDoes(r, s, fd, s');
    case Datagram(m) => PublishOnlyDoes(s, m, s');
    case Exit => ExitOnlyDoes(r, s, s');
  }

  /**
   Under any rules, over every run, each event has its effect, and no other state is that effect, up to the
   order in which a replay interleaves the topics.
   */
  lemma {:induction false} EffectsOverRuns(r: Rules, es: seq<Event>, e: Event, s': State)
    requires Legal(r, es + [e])
    ensures Effect(r, Run(r, es), e, Run(r, es + [e]))
    ensures Effect(r, Run(r, es), e, s') ==> SameState(s', Run(r, es + [e]))
  {
    RunMore(r, es, e);
    RunSound(r, es);
    StepDoes(r, Run(r, es), e);
    if Effect(r, Run(r, es), e, s') { StepOnlyDoes(r, Run(r, es), e, s'); }
  }

  /** After an end-of-file its descriptor is free, whoever held it. */
  lemma {:induction false} EofFreesDescriptor(r: Rules, es: seq<Event>, fd: int)
    requires Legal(r, es + [Hangup(fd)])
    ensures !IsOpen(Run(r, es + [Hangup(fd)]).conns, fd)
    ensures Legal(r, es + [Hangup(fd)] + [Accept(fd)])
  {
    RunMore(r, es, Hangup(fd));
    RunSound(r, es);
    OpenFd(Run(r, es).clients, Run(r, es).conns, fd);
    EffectsOverRuns(r, es, Hangup(fd), INIT);
    RunMore(r, es + [Hangup(fd)], Accept(fd));
  }
}
