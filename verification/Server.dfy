/**
 The server's handlers over its mutable state: client records reached by pointer, a map of topics
 updated in place, and the sockets. Every handler is proved against the state machine of
 `BrokerSpec`.
 */
module Server {
  import opened Bytes
  import opened Protocol
  import opened Cursor
  import opened BrokerSpec
  import opened AnyRules
  import opened Lane
  import opened Projection
  import opened Commands
  import opened Inputs

  const CLIENT_BUF := 256

  /** struct tcp_client; `slot` is the record's place in the table, which never changes. */
  class Client {
    var id: Name
    var fd: int
    var connected: bool
    var action: nat
    var lastMsgLen: nat
    const inbuf: array<byte>
    ghost const slot: nat

    /** new_client */
    constructor (ghost slot: nat)
      ensures id == [] && fd == -1 && !connected && this.slot == slot
      ensures fresh(inbuf) && inbuf.Length == CLIENT_BUF
    {
      id, fd, connected, action, lastMsgLen := [], -1, false, 0, 0;
      inbuf := new byte[CLIENT_BUF](_ => 0);
      this.slot := slot;
    }
  }

  /** struct subscriber: it aliases a client record. */
  datatype Subscriber = Subscriber(client: Client, sf: bool, last: int)

  /** struct topic: a value of the topic map, updated in place through the map. */
  datatype TopicData = TopicData(messages: seq<Stored>, subs: seq<Subscriber>, sfCount: int)

  /** The kernel's side of an accepted connection: every byte sent on it so far. */
  datatype Socket = Socket(fd: int, open: bool, sent: seq<byte>)

  // ---------- sockets and the connections they stand for ----------

  function SendOnSocket(k: Socket, fd: int, b: seq<byte>): Socket
  {
    if k.open && k.fd == fd then k.(sent := k.sent + b) else k
  }

  function SendBytes(sockets: seq<Socket>, fd: int, b: seq<byte>): (ss: seq<Socket>)
    ensures |ss| == |sockets| && forall a :: 0 <= a < |ss| ==> ss[a] == SendOnSocket(sockets[a], fd, b)
  {
    seq(|sockets|, a requires 0 <= a < |sockets| => SendOnSocket(sockets[a], fd, b))
  }

  function CloseSocket(k: Socket, fd: int): Socket
  {
    if k.fd == fd then k.(open := false) else k
  }

  function CloseSockets(sockets: seq<Socket>, fd: int): (ss: seq<Socket>)
    ensures |ss| == |sockets| && forall a :: 0 <= a < |ss| ==> ss[a] == CloseSocket(sockets[a], fd)
  {
    seq(|sockets|, a requires 0 <= a < |sockets| => CloseSocket(sockets[a], fd))
  }

  /** The bytes on each socket are those of the connection's packets. */
  ghost predicate SocketsMatch(sockets: seq<Socket>, conns: seq<Conn>)
  {
    |sockets| == |conns| && forall a :: 0 <= a < |sockets| ==>
      sockets[a] == Socket.Socket(conns[a].fd, conns[a].open, WireBytes(conns[a].wire))
  }

  lemma SendTwice(sockets: seq<Socket>, fd: int, b: seq<byte>, c: seq<byte>)
    ensures SendBytes(SendBytes(sockets, fd, b), fd, c) == SendBytes(sockets, fd, b + c)
  {
    var left, right := SendBytes(SendBytes(sockets, fd, b), fd, c), SendBytes(sockets, fd, b + c);
    forall a | 0 <= a < |sockets| ensures left[a] == right[a] {
      Associative(sockets[a].sent, b, c);
    }
  }

  lemma SendPacket(sockets: seq<Socket>, conns: seq<Conn>, fd: int, p: Packet)
    requires SocketsMatch(sockets, conns)
    ensures SocketsMatch(SendBytes(sockets, fd, PacketBytes(p)), Send(conns, fd, [p]))
  {
    forall a | 0 <= a < |conns|
      ensures WireBytes(conns[a].wire + [p]) == WireBytes(conns[a].wire) + PacketBytes(p)
    {
      assert (conns[a].wire + [p])[..|conns[a].wire|] == conns[a].wire;
    }
  }

  /** The three sends of a live delivery make up one packet. */
  lemma {:induction false} LiveSends(sockets: seq<Socket>, conns: seq<Conn>, fd: int,
                                     h: seq<byte>, u: seq<byte>, d: seq<byte>, m: Message)
    requires SocketsMatch(sockets, conns) && h + u + d == PacketBytes(MsgNew(m))
    ensures SocketsMatch(SendBytes(SendBytes(SendBytes(sockets, fd, h), fd, u), fd, d), Send(conns, fd, [MsgNew(m)]))
  {
    SendTwice(sockets, fd, h, u);
    SendTwice(sockets, fd, h + u, d);
    SendPacket(sockets, conns, fd, MsgNew(m));
  }

  /** So do the four sends of a replayed one. */
  lemma {:induction false} ReplaySends(sockets: seq<Socket>, conns: seq<Conn>, fd: int,
                    h: seq<byte>, u: seq<byte>, t: seq<byte>, d: seq<byte>, m: Message)
    requires SocketsMatch(sockets, conns) && h + u + t + d == PacketBytes(MsgNew(m))
    ensures SocketsMatch(SendBytes(SendBytes(SendBytes(SendBytes(sockets, fd, h), fd, u), fd, t), fd, d),
                         Send(conns, fd, [MsgNew(m)]))
  {
    SendTwice(sockets, fd, h, u);
    SendTwice(sockets, fd, h + u, t);
    SendTwice(sockets, fd, h + u + t, d);
    SendPacket(sockets, conns, fd, MsgNew(m));
  }

  lemma CloseMatches(sockets: seq<Socket>, conns: seq<Conn>, fd: int)
    requires SocketsMatch(sockets, conns)
    ensures SocketsMatch(CloseSockets(sockets, fd), Close(conns, fd))
  {
  }

  /** Closing twice is closing once. */
  lemma CloseAgain(conns: seq<Conn>, fd: int)
    ensures Close(Close(conns, fd), fd) == Close(conns, fd)
  {
  }

  ghost function SomeOrder(keys: set<Name>): (order: seq<Name>)
    ensures IsOrder(keys, order)
  {
    if keys == {} then []
    else
      var t :| t in keys;
      SomeOrder(keys - {t}) + [t]
  }

  lemma SendMore(conns: seq<Conn>, fd: int, ps: seq<Packet>, p: Packet)
    ensures Send(Send(conns, fd, ps), fd, [p]) == Send(conns, fd, ps + [p])
  {
    forall a | 0 <= a < |conns| ensures Send(Send(conns, fd, ps), fd, [p])[a] == Send(conns, fd, ps + [p])[a] {
      Associative(conns[a].wire, ps, [p]);
    }
  }

  // ---------- records and the values they stand for ----------

  ghost predicate ClientMatches(c: Client, v: ClientRec, i: nat)
    reads c
  {
    c.id == v.id && c.fd == v.fd && c.connected == v.connected && c.inbuf.Length == CLIENT_BUF && c.slot == i
  }

  ghost predicate ClientsMatch(clients: seq<Client>, vs: seq<ClientRec>)
    reads clients
  {
    |clients| == |vs| && forall i :: 0 <= i < |clients| ==> ClientMatches(clients[i], vs[i], i)
  }

  ghost predicate SubMatches(x: Subscriber, e: Entry, clients: seq<Client>)
  {
    && e.client < |clients| && clients[e.client] == x.client
    && x.sf == e.sf && x.last == e.cursor && -1 <= e.cursor < INT_LIMIT - 1
  }

  ghost predicate SubsMatch(subs: seq<Subscriber>, es: seq<Entry>, clients: seq<Client>)
  {
    |subs| == |es| && forall k :: 0 <= k < |subs| ==> SubMatches(subs[k], es[k], clients)
  }

  ghost predicate LogMatches(messages: seq<Stored>, log: seq<Message>)
  {
    && |messages| == |log| < INT_LIMIT
    && forall k :: 0 <= k < |messages| ==> messages[k] == Split(UdpHeader(log[k]), log[k].dgram)
  }

  ghost predicate TopicMatches(x: TopicData, topic: Topic, clients: seq<Client>)
  {
    LogMatches(x.messages, topic.log) && SubsMatch(x.subs, topic.subs, clients) && x.sfCount == topic.sfCount
  }

  ghost predicate TopicsMatch(topics: map<Name, TopicData>, vs: map<Name, Topic>, clients: seq<Client>)
  {
    topics.Keys == vs.Keys && forall t :: t in topics ==> TopicMatches(topics[t], vs[t], clients)
  }

  lemma TopicsAfterUpdate(topics: map<Name, TopicData>, vs: map<Name, Topic>, key: Name,
                          x: TopicData, v: Topic, clients: seq<Client>)
    requires TopicsMatch(topics, vs, clients) && TopicMatches(x, v, clients)
    ensures TopicsMatch(topics[key := x], vs[key := v], clients)
  {
  }

  lemma ErasedMatches(subs: seq<Subscriber>, es: seq<Entry>, k: nat, clients: seq<Client>)
    requires SubsMatch(subs, es, clients) && k < |subs|
    ensures SubsMatch(subs[..k] + subs[k + 1..], es[..k] + es[k + 1..], clients)
    ensures subs[k].sf == es[k].sf && (k + 1 < |subs| ==> subs[k + 1].sf == es[k + 1].sf)
  {
    assert SubMatches(subs[k], es[k], clients);
    assert k + 1 < |subs| ==> SubMatches(subs[k + 1], es[k + 1], clients);
  }

  lemma AddedMatches(x: TopicData, v: Topic, sub: Subscriber, i: nat, r: Rules, clients: seq<Client>)
    requires TopicMatches(x, v, clients) && i < |clients| && clients[i] == sub.client
    requires sub.last == if r.cursorFromZero then 0 else |v.log| - 1
    ensures TopicMatches(x.(subs := x.subs + [sub], sfCount := x.sfCount + if sub.sf then 1 else 0),
                         AddEntry(r, v, i, sub.sf), clients)
  {
  }

  /** The fan-out loop stands at subscriber k. */
  ghost predicate ReachedUpTo(subs: seq<Subscriber>, es: seq<Entry>, k: nat, on: seq<bool>, top: int,
                              clients: seq<Client>)
  {
    |subs| == |es| && forall j :: 0 <= j < |es| ==>
      SubMatches(subs[j], if j < k then Reached(es[j], on, top) else es[j], clients)
  }

  lemma ReachedMore(subs: seq<Subscriber>, after: seq<Subscriber>, es: seq<Entry>, k: nat, on: seq<bool>, top: int,
                    clients: seq<Client>)
    requires ReachedUpTo(subs, es, k, on, top, clients) && k < |es| && |after| == |subs|
    requires forall j :: 0 <= j < |after| && j != k ==> after[j] == subs[j]
    requires SubMatches(after[k], Reached(es[k], on, top), clients)
    ensures ReachedUpTo(after, es, k + 1, on, top, clients)
  {
  }

  /** Nothing but the subscribers of one topic differs. */
  ghost predicate OnlySubsOf(key: Name, before: map<Name, TopicData>, after: map<Name, TopicData>)
  {
    && key in before && after.Keys == before.Keys
    && after[key] == before[key].(subs := after[key].subs)
    && forall t :: t in before && t != key ==> after[t] == before[t]
  }

  lemma OnlySubsTwice(key: Name, a: map<Name, TopicData>, b: map<Name, TopicData>, c: map<Name, TopicData>)
    requires OnlySubsOf(key, a, b) && OnlySubsOf(key, b, c)
    ensures OnlySubsOf(key, a, c)
  {
  }

  ghost predicate LogsBelow(vs: map<Name, Topic>, n: nat)
  {
    forall t :: t in vs ==> |vs[t].log| < n
  }

  lemma ReplayMore(r: Rules, s: State, i: nat, order: seq<Name>, key: Name)
    requires i < |s.clients|
    ensures Replay(r, s, i, order + [key]) == ReplayTopic(r, Replay(r, s, i, order), i, key)
  {
    assert (order + [key])[..|order|] == order;
  }

  lemma OrderMore(done: set<Name>, order: seq<Name>, key: Name)
    requires key !in done && IsOrder(done, order)
    ensures IsOrder(done + {key}, order + [key])
  {
  }

  lemma MoveKey(done: set<Name>, left: set<Name>, keys: set<Name>, key: Name)
    requires done + left == keys && done !! left && key in left
    ensures (done + {key}) + (left - {key}) == keys && (done + {key}) !! (left - {key})
  {
  }

  /** What a replay loop has sent when it stands at index b. */
  ghost function SentUpTo(conns: seq<Conn>, fd: int, log: seq<Message>, a: nat, b: nat): seq<Conn>
  {
    Send(conns, fd, News(if a <= b <= |log| then log[a..b] else []))
  }

  lemma SentNothing(conns: seq<Conn>, fd: int, log: seq<Message>, a: nat)
    ensures SentUpTo(conns, fd, log, a, a) == conns
    ensures a >= |log| ==> SentUpTo(conns, fd, log, a, |log|) == conns
  {
    SendNone(conns, fd);
  }

  lemma SentMore(conns: seq<Conn>, fd: int, log: seq<Message>, a: nat, b: nat)
    requires a <= b < |log|
    ensures Send(SentUpTo(conns, fd, log, a, b), fd, [MsgNew(log[b])]) == SentUpTo(conns, fd, log, a, b + 1)
  {
    assert News(log[a..b + 1]) == News(log[a..b]) + [MsgNew(log[b])];
    SendMore(conns, fd, News(log[a..b]), MsgNew(log[b]));
  }

  lemma PostedTopic(topic: Topic, on: seq<bool>, m: Message)
    ensures var log := if topic.sfCount != 0 then topic.log + [m] else topic.log;
            PostTopic(topic, on, m) == Topic.Topic(log, AllReached(topic.subs, on, |log| - 1), topic.sfCount)
  {
  }

  /** Logging and fanning out add up to a publish. */
  lemma PostedMatches(before: map<Name, TopicData>, logged: map<Name, TopicData>, after: map<Name, TopicData>,
                      key: Name, t0: Topic, on: seq<bool>, m: Message, clients: seq<Client>)
    requires key in before && key in logged && TopicMatches(before[key], t0, clients)
    requires logged == before[key := before[key].(messages := logged[key].messages)]
    requires LogMatches(logged[key].messages, if t0.sfCount != 0 then t0.log + [m] else t0.log)
    requires OnlySubsOf(key, logged, after)
    requires SubsMatch(after[key].subs, AllReached(t0.subs, on, |after[key].messages| - 1), clients)
    ensures after == before[key := after[key]] && TopicMatches(after[key], PostTopic(t0, on, m), clients)
  {
    PostedTopic(t0, on, m);
  }

  lemma PublishOnAdded(s: State, m: Message)
    ensures Publish(s.(topics := s.topics[KeyOf(m) := TopicAt(s, KeyOf(m))]), m) == Publish(s, m)
  {
    var added := s.(topics := s.topics[KeyOf(m) := TopicAt(s, KeyOf(m))]);
    assert Publish(added, m).topics == Publish(s, m).topics == added.topics[KeyOf(m) := Publish(s, m).topics[KeyOf(m)]];
  }

  /** Of a first request, only a CONN_REQ has any effect, and that has no payload. */
  lemma OnlyConnReqCounts(r: Rules, s: State, fd: int, raw: RawRequest)
    requires Complete(raw) && (FlagsField(raw.header) == CONN_REQ ==> raw.payload == [])
    ensures forall order :: HandleNewConnection(r, s, fd, Decode(raw.header, []), order)
                         == HandleNewConnection(r, s, fd, Decode(raw.header, raw.payload), order)
  {
  }

  lemma {:induction false} ReplayKeepsLogs(r: Rules, s: State, i: nat, order: seq<Name>, n: nat)
    requires i < |s.clients| && LogsBelow(s.topics, n)
    ensures LogsBelow(Replay(r, s, i, order).topics, n)
  {
    if order != [] { ReplayKeepsLogs(r, s, i, order[..|order| - 1], n); }
  }

  /** An event adds at most one message to a log. */
  lemma StepGrowsLogs(r: Rules, s: State, e: Event, n: nat)
    requires LogsBelow(s.topics, n) && n > 0
    ensures LogsBelow(Step(r, s, e).topics, n + 1)
  {
    if e.Receive? && e.cmd.ConnReq? {
      var i := FindFd(s.clients, e.fd);
      if i < |s.clients| {
        var j := FindTwin(s.clients, s.clients[i]);
        if j < |s.clients| { ReplayKeepsLogs(r, Attach(s, j, s.clients[i].fd), j, e.order, n); }
      } else {
        var j := FindId(s.clients, e.cmd.id);
        if j < |s.clients| { ReplayKeepsLogs(r, Attach(s, j, e.fd), j, e.order, n); }
      }
    }
  }

  lemma LogsStayBelow(s: State, n: nat, m: nat)
    requires LogsBelow(s.topics, n) && n <= m
    ensures LogsBelow(s.topics, m)
  {
  }

  class Broker {
    const rules: Rules
    var clients: seq<Client>
    var topics: map<Name, TopicData>
    var sockets: seq<Socket>
    var running: bool
    const inbuf: array<byte>
    ghost var st: State

    ghost predicate Valid()
      reads this, clients
    {
      && inbuf.Length == MAX_UDP_LEN
      && ClientsMatch(clients, st.clients)
      && TopicsMatch(topics, st.topics, clients)
      && SocketsMatch(sockets, st.conns)
      && running == st.running
    }

    /** The state is that of the legal run of es. */
    ghost predicate HasRun(es: seq<Event>)
      reads this, clients
    {
      Valid() && Legal(rules, es) && st == Run(rules, es)
    }

    constructor (rules: Rules)
      ensures Valid() && st == INIT && this.rules == rules
      ensures fresh(inbuf) && clients == []
    {
      this.rules := rules;
      clients, topics, sockets, running := [], map[], [], true;
      inbuf := new byte[MAX_UDP_LEN](_ => 0);
      st := INIT;
    }

    // ---------- kernel calls ----------

    /** send: all bytes are accepted by the open socket that holds the descriptor. */
    method SendRaw(fd: int, b: seq<byte>)
      modifies this`sockets
      ensures sockets == SendBytes(old(sockets), fd, b)
    {
      sockets := SendBytes(sockets, fd, b);
    }

    method CloseFd(fd: int)
      modifies this`sockets
      ensures sockets == CloseSockets(old(sockets), fd)
    {
      sockets := CloseSockets(sockets, fd);
    }

    // ---------- publishing ----------

    /** The three sends of a live delivery; n bytes of `inbuf` hold the datagram. */
    method SendLive(fd: int, header: seq<byte>, udp: seq<byte>, n: nat, ghost m: Message, ghost conns: seq<Conn>)
      requires n <= inbuf.Length && inbuf[..n] == m.dgram && udp == UdpHeader(m)
      requires header == HeaderBytes(Zeros(ID_LEN), MSG_NEW, HEADER_LEN + UDP_HEADER_LEN + n)
      requires SocketsMatch(sockets, conns)
      modifies this`sockets
      ensures SocketsMatch(sockets, BrokerSpec.Send(conns, fd, [MsgNew(m)]))
    {
      ReplayIsLive(m);
      LiveSends(sockets, conns, fd, header, udp, inbuf[..n], m);
      SendRaw(fd, header);
      SendRaw(fd, udp);
      SendRaw(fd, inbuf[..n]);
    }

    /** One turn of the fan-out loop: subscriber k of a topic. */
    method SendToSubscriber(key: Name, k: nat, header: seq<byte>, udp: seq<byte>, n: nat,
                            ghost m: Message, ghost e: Entry, ghost conns: seq<Conn>)
      requires n <= inbuf.Length && inbuf[..n] == m.dgram && udp == UdpHeader(m)
      requires header == HeaderBytes(Zeros(ID_LEN), MSG_NEW, HEADER_LEN + UDP_HEADER_LEN + n)
      requires SocketsMatch(sockets, conns) && ClientsMatch(clients, st.clients)
      requires key in topics && k < |topics[key].subs| && |topics[key].messages| < INT_LIMIT
      requires SubMatches(topics[key].subs[k], e, clients)
      modifies this`topics, this`sockets
      ensures OnlySubsOf(key, old(topics), topics) && |topics[key].subs| == |old(topics)[key].subs|
      ensures forall j :: 0 <= j < |topics[key].subs| && j != k ==> topics[key].subs[j] == old(topics)[key].subs[j]
      ensures SubMatches(topics[key].subs[k], Reached(e, Flags(st.clients), |topics[key].messages| - 1), clients)
      ensures SocketsMatch(sockets, SendTo(conns, st.clients, e.client, m))
    {
      var topic, sub := topics[key], topics[key].subs[k];
      assert ClientMatches(sub.client, st.clients[e.client], e.client);
      if sub.client.connected {
        StoredEndExact(|topic.messages|);
        topics := topics[key := topic.(subs := topic.subs[k := sub.(last := StoredEnd(|topic.messages|))])];
        var sck := sub.client.fd;
        SendLive(sck, header, udp, n, m, conns);
      }
    }

    /** The fan-out loop over a topic's subscribers. */
    method FanOutLoop(key: Name, header: seq<byte>, udp: seq<byte>, n: nat, ghost m: Message, ghost es: seq<Entry>)
      requires n <= inbuf.Length && inbuf[..n] == m.dgram && udp == UdpHeader(m)
      requires header == HeaderBytes(Zeros(ID_LEN), MSG_NEW, HEADER_LEN + UDP_HEADER_LEN + n)
      requires SocketsMatch(sockets, st.conns) && ClientsMatch(clients, st.clients)
      requires key in topics && SubsMatch(topics[key].subs, es, clients) && |topics[key].messages| < INT_LIMIT
      modifies this`topics, this`sockets
      ensures OnlySubsOf(key, old(topics), topics)
      ensures SubsMatch(topics[key].subs, AllReached(es, Flags(st.clients), |topics[key].messages| - 1), clients)
      ensures SocketsMatch(sockets, FanOut(st.conns, st.clients, es, m))
    {
      ghost var on, top := Flags(st.clients), |topics[key].messages| - 1;
      for k := 0 to |topics[key].subs|
        invariant OnlySubsOf(key, old(topics), topics)
        invariant ReachedUpTo(topics[key].subs, es, k, on, top, clients)
        invariant SocketsMatch(sockets, FanOut(st.conns, st.clients, es[..k], m))
      {
        assert es[..k + 1][..k] == es[..k];
        ghost var before := topics;
        SendToSubscriber(key, k, header, udp, n, m, es[k], FanOut(st.conns, st.clients, es[..k], m));
        OnlySubsTwice(key, old(topics), before, topics);
        ReachedMore(before[key].subs, topics[key].subs, es, k, on, top, clients);
      }
      assert es[..|es|] == es;
    }

    /** The topic is created on first use. */
    method AddTopic(key: Name)
      requires Valid()
      modifies this`topics, this`st
      ensures Valid() && st == old(st).(topics := old(st).topics[key := TopicAt(old(st), key)])
    {
      if key !in topics {
        topics := topics[key := TopicData.TopicData([], [], 0)];
      }
      st := st.(topics := st.topics[key := TopicAt(st, key)]);
    }

    /** The datagram is stored if the topic has SF subscribers. */
    method LogDatagram(key: Name, udp: seq<byte>, n: nat, ghost m: Message, ghost t0: Topic)
      requires n <= inbuf.Length && inbuf[..n] == m.dgram && udp == UdpHeader(m)
      requires key in topics && TopicMatches(topics[key], t0, clients) && |t0.log| < INT_LIMIT - 1
      modifies this`topics
      ensures key in topics && topics == old(topics)[key := old(topics)[key].(messages := topics[key].messages)]
      ensures LogMatches(topics[key].messages, if t0.sfCount != 0 then t0.log + [m] else t0.log)
    {
      var topic := topics[key];
      if topic.sfCount != 0 {
        topic := topic.(messages := topic.messages + [Split(udp, inbuf[..n])]);
      }
      topics := topics[key := topic];
    }

    /** Logs the datagram if the topic has SF subscribers and sends it to those on line. */
    method PostOnTopic(key: Name, header: seq<byte>, udp: seq<byte>, n: nat, ghost m: Message, ghost t0: Topic)
      requires n <= inbuf.Length && inbuf[..n] == m.dgram && udp == UdpHeader(m)
      requires header == HeaderBytes(Zeros(ID_LEN), MSG_NEW, HEADER_LEN + UDP_HEADER_LEN + n)
      requires SocketsMatch(sockets, st.conns) && ClientsMatch(clients, st.clients)
      requires key in topics && TopicMatches(topics[key], t0, clients) && |t0.log| < INT_LIMIT - 1
      modifies this`sockets, this`topics
      ensures key in topics && topics == old(topics)[key := topics[key]]
      ensures TopicMatches(topics[key], PostTopic(t0, Flags(st.clients), m), clients)
      ensures SocketsMatch(sockets, FanOut(st.conns, st.clients, t0.subs, m))
    {
      LogDatagram(key, udp, n, m, t0);
      ghost var logged := topics;
      FanOutLoop(key, header, udp, n, m, t0.subs);
      PostedMatches(old(topics), logged, topics, key, t0, Flags(st.clients), m, clients);
    }

    method PostOnAdded(key: Name, header: seq<byte>, udp: seq<byte>, n: nat, ghost m: Message)
      requires Valid() && n <= inbuf.Length && inbuf[..n] == m.dgram && udp == UdpHeader(m)
      requires header == HeaderBytes(Zeros(ID_LEN), MSG_NEW, HEADER_LEN + UDP_HEADER_LEN + n)
      requires key == KeyOf(m) && key in topics && |st.topics[key].log| < INT_LIMIT - 1
      modifies this`sockets, this`topics, this`st
      ensures Valid() && st == Publish(old(st), m)
    {
      PostOnTopic(key, header, udp, n, m, st.topics[key]);
      st := Publish(st, m);
    }

    /** send_to_clients */
    method SendToClients(header: seq<byte>, udp: seq<byte>, n: nat, ghost m: Message)
      requires Valid() && n <= inbuf.Length && inbuf[..n] == m.dgram && udp == UdpHeader(m)
      requires header == HeaderBytes(Zeros(ID_LEN), MSG_NEW, HEADER_LEN + UDP_HEADER_LEN + n)
      requires LogsBelow(st.topics, INT_LIMIT - 1)
      modifies this`topics, this`sockets, this`st
      ensures Valid() && st == Publish(old(st), m)
    {
      var key := DatagramKey(inbuf[..n]);
      AddTopic(key);
      PostOnAdded(key, header, udp, n, m);
      PublishOnAdded(old(st), m);
    }

    /** handle_incoming_message: the datagram is received into `inbuf`. */
    method HandleIncomingMessage(m: Message)
      requires Valid() && LogsBelow(st.topics, INT_LIMIT - 1)
      modifies this`topics, this`sockets, this`st, inbuf
      ensures Valid() && st == Step(rules, old(st), Datagram(m))
    {
      var rc := |m.dgram|;
      forall k | 0 <= k < rc { inbuf[k] := m.dgram[k]; }
      assert inbuf[..rc] == m.dgram;
      var header := HeaderBytes(Zeros(ID_LEN), MSG_NEW, HEADER_LEN + UDP_HEADER_LEN + rc);
      SendToClients(header, UdpHeader(m), rc, m);
    }

    // ---------- replay ----------

    /** send_queued_message */
    method SendQueuedMessage(fd: int, msg: Stored, ghost m: Message, ghost conns: seq<Conn>)
      requires msg == Split(UdpHeader(m), m.dgram) && SocketsMatch(sockets, conns)
      modifies this`sockets
      ensures SocketsMatch(sockets, BrokerSpec.Send(conns, fd, [MsgNew(m)]))
    {
      var header := HeaderBytes(Zeros(ID_LEN), MSG_NEW, |msg.content| + HEADER_LEN + UDP_HEADER_LEN + UDP_MESSAGE_LEN);
      ReplayIsLive(m);
      ReplaySends(sockets, conns, fd, header, msg.hdr, msg.topic + [msg.kind], msg.content, m);
      SendRaw(fd, header);
      SendRaw(fd, msg.hdr);
      SendRaw(fd, msg.topic + [msg.kind]);
      SendRaw(fd, msg.content);
    }

    /** The loop of a replay: sends the log from an index on. */
    method SendLogFrom(fd: int, messages: seq<Stored>, first: nat, ghost log: seq<Message>, ghost conns: seq<Conn>)
      requires LogMatches(messages, log) && first < INT_LIMIT && SocketsMatch(sockets, conns)
      modifies this`sockets
      ensures SocketsMatch(sockets, SentUpTo(conns, fd, log, first, |log|))
    {
      SentNothing(conns, fd, log, first);
      var i := first;
      ghost var cs := conns;
      while i < |messages|
        invariant first <= i && (i <= |messages| || i == first)
        invariant cs == SentUpTo(conns, fd, log, first, i) && SocketsMatch(sockets, cs)
      {
        SendQueuedMessage(fd, messages[i], log[i], cs);
        SentMore(conns, fd, log, first, i);
        cs := BrokerSpec.Send(cs, fd, [MsgNew(log[i])]);
        NextIndex(i);
        i := ToUint(i + 1);
      }
      assert cs == SentUpTo(conns, fd, log, first, |log|);
    }

    /** The guard of a replay, on machine integers: what is sent is exactly what comes after the cursor. */
    method SendLogAfter(fd: int, messages: seq<Stored>, last: int, ghost log: seq<Message>, ghost conns: seq<Conn>)
      requires LogMatches(messages, log) && -1 <= last < INT_LIMIT - 1 && SocketsMatch(sockets, conns)
      modifies this`sockets
      ensures SocketsMatch(sockets, BrokerSpec.Send(conns, fd, News(Missing(log, last))))
    {
      GuardExact(|messages|, last);
      SendNone(conns, fd);
      if Behind(|messages|, last) {
        SendLogFrom(fd, messages, FirstIndex(last), log, conns);
        assert last + 1 <= |log| ==> log[last + 1..|log|] == log[last + 1..];
      }
    }

    /** The search by id string among a topic's subscribers. */
    method FindSubById(subs: seq<Subscriber>, id: Name, ghost es: seq<Entry>) returns (k: nat)
      requires ClientsMatch(clients, st.clients) && SubsMatch(subs, es, clients)
      ensures k == FindEntryById(st.clients, es, id)
    {
      k := 0;
      while k < |subs| && subs[k].client.id != id
        invariant k <= |subs|
        invariant forall j :: 0 <= j < k ==> !HasId(st.clients, es[j], id)
      {
        assert SubMatches(subs[k], es[k], clients);
        assert ClientMatches(clients[es[k].client], st.clients[es[k].client], es[k].client);
        k := k + 1;
      }
      if k < |subs| {
        assert SubMatches(subs[k], es[k], clients);
        assert ClientMatches(clients[es[k].client], st.clients[es[k].client], es[k].client);
        assert HasId(st.clients, es[k], id);
      }
    }

    /** One turn of send_missing_messages, for the subscriber found at position k. */
    method SendMissingTo(fd: int, key: Name, k: nat, ghost t0: Topic)
      requires SocketsMatch(sockets, st.conns) && key in topics && TopicMatches(topics[key], t0, clients)
      requires k < |t0.subs| && t0.subs[k].sf
      modifies this`sockets, this`topics
      ensures key in topics && topics == old(topics)[key := topics[key]]
      ensures TopicMatches(topics[key], CaughtUp(rules, t0, k), clients)
      ensures SocketsMatch(sockets, BrokerSpec.Send(st.conns, fd, News(Missing(t0.log, t0.subs[k].cursor))))
    {
      var topic, sub := topics[key], topics[key].subs[k];
      assert SubMatches(sub, t0.subs[k], clients);
      SendLogAfter(fd, topic.messages, sub.last, t0.log, st.conns);
      if !rules.replayKeepsCursor {
        StoredEndExact(|topic.messages|);
        topics := topics[key := topic.(subs := topic.subs[k := sub.(last := StoredEnd(|topic.messages|))])];
      } else {
        assert topics == topics[key := topics[key]];
      }
    }

    method SendMissingFound(fd: int, key: Name, k: nat, ghost i: nat)
      requires Valid() && key in topics && i < |st.clients| && st.clients[i].fd == fd
      requires k == FindEntryById(st.clients, st.topics[key].subs, st.clients[i].id) < |st.topics[key].subs|
      requires st.topics[key].subs[k].sf
      modifies this`sockets, this`topics, this`st
      ensures Valid() && st == ReplayTopic(rules, old(st), i, key)
    {
      SendMissingTo(fd, key, k, st.topics[key]);
      st := ReplayTopic(rules, st, i, key);
    }

    /** One turn of send_missing_messages. */
    method SendMissingOn(c: Client, key: Name)
      requires Valid() && key in topics && c.slot < |clients| && clients[c.slot] == c
      modifies this`sockets, this`topics, this`st
      ensures Valid() && st == ReplayTopic(rules, old(st), c.slot, key)
    {
      ghost var i, t0 := c.slot, st.topics[key];
      assert ClientMatches(c, st.clients[i], i) && TopicMatches(topics[key], t0, clients);
      var k := FindSubById(topics[key].subs, c.id, t0.subs);
      if k < |topics[key].subs| {
        assert SubMatches(topics[key].subs[k], t0.subs[k], clients);
        if topics[key].subs[k].sf {
          SendMissingFound(c.fd, key, k, i);
        }
      }
    }

    method SendMissingTurn(c: Client, key: Name, ghost s0: State, ghost order: seq<Name>)
      requires Valid() && key in topics && c.slot < |clients| && clients[c.slot] == c
      requires c.slot < |s0.clients| && st == Replay(rules, s0, c.slot, order)
      modifies this`sockets, this`topics, this`st
      ensures Valid() && topics.Keys == old(topics).Keys && st == Replay(rules, s0, c.slot, order + [key])
    {
      SendMissingOn(c, key);
      ReplayMore(rules, s0, c.slot, order, key);
    }

    /** send_missing_messages: the topics are visited in an order of the map's choosing. */
    method SendMissingMessages(c: Client) returns (ghost order: seq<Name>)
      requires Valid() && c.slot < |clients| && clients[c.slot] == c
      modifies this`sockets, this`topics, this`st
      ensures Valid() && IsOrder(old(st).topics.Keys, order) && st == Replay(rules, old(st), c.slot, order)
    {
      order := [];
      var left := topics.Keys;
      ghost var done: set<Name> := {};
      while left != {}
        invariant Valid() && done + left == topics.Keys == old(st).topics.Keys && done !! left
        invariant IsOrder(done, order)
        invariant st == Replay(rules, old(st), c.slot, order)
        decreases left
      {
        var key :| key in left;
        SendMissingTurn(c, key, old(st), order);
        OrderMore(done, order, key);
        MoveKey(done, left, topics.Keys, key);
        order, done, left := order + [key], done + {key}, left - {key};
      }
    }

    // ---------- connections ----------

    /** accept_incoming_connection */
    method AcceptIncomingConnection(fd: int)
      requires Valid()
      modifies this`sockets, this`st
      ensures Valid() && st == Step(rules, old(st), Accept(fd))
    {
      sockets := sockets + [Socket.Socket(fd, true, [])];
      st := Step(rules, st, Accept(fd));
    }

    /** Puts a record on line on a descriptor. */
    method AttachClient(c: Client, fd: int)
      requires Valid() && c.slot < |clients| && clients[c.slot] == c
      modifies c`connected, c`fd, this`st
      ensures Valid() && st == Attach(old(st), c.slot, fd)
    {
      assert ClientMatches(c, st.clients[c.slot], c.slot);
      c.connected := true;
      c.fd := fd;
      st := Attach(st, c.slot, fd);
      assert ClientMatches(c, st.clients[c.slot], c.slot);
    }

    /** refuse_connection: CONN_NO, then close. */
    method RefuseConnection(fd: int)
      requires Valid()
      modifies this`sockets, this`st
      ensures Valid() && st == Refuse(old(st), fd)
    {
      HeaderOnlyBytes();
      SendPacket(sockets, st.conns, fd, ConnNo);
      SendRaw(fd, HeaderBytes(Zeros(ID_LEN), CONN_NO, HEADER_LEN));
      CloseMatches(sockets, BrokerSpec.Send(st.conns, fd, [ConnNo]), fd);
      CloseFd(fd);
      st := Refuse(st, fd);
    }

    /** The search by id in the client table. */
    method FindClientById(id: Name) returns (i: nat)
      requires Valid()
      ensures i == FindId(st.clients, id)
    {
      i := 0;
      while i < |clients| && clients[i].id != id
        invariant i <= |clients|
        invariant forall j :: 0 <= j < i ==> st.clients[j].id != id
      {
        assert ClientMatches(clients[i], st.clients[i], i);
        i := i + 1;
      }
      assert i < |clients| ==> ClientMatches(clients[i], st.clients[i], i);
    }

    /** find_client_by_fd */
    method FindClientByFd(fd: int) returns (i: nat)
      requires Valid()
      ensures i == FindFd(st.clients, fd)
    {
      i := 0;
      while i < |clients| && clients[i].fd != fd
        invariant i <= |clients|
        invariant forall j :: 0 <= j < i ==> st.clients[j].fd != fd
      {
        assert ClientMatches(clients[i], st.clients[i], i);
        i := i + 1;
      }
      assert i < |clients| ==> ClientMatches(clients[i], st.clients[i], i);
    }

    /** client_is_connected: the first other record with this client's id. */
    method FindClientTwin(c: Client) returns (j: nat)
      requires Valid() && c.slot < |clients| && clients[c.slot] == c
      ensures j == FindTwin(st.clients, st.clients[c.slot])
    {
      assert ClientMatches(c, st.clients[c.slot], c.slot);
      j := 0;
      while j < |clients| && !(clients[j].id == c.id && clients[j].fd != c.fd)
        invariant j <= |clients|
        invariant forall k :: 0 <= k < j ==> !(st.clients[k].id == c.id && st.clients[k].fd != c.fd)
      {
        assert ClientMatches(clients[j], st.clients[j], j);
        j := j + 1;
      }
      assert j < |clients| ==> ClientMatches(clients[j], st.clients[j], j);
    }

    /** A record is created for an id that connects for the first time. */
    method AddClient(id: Name) returns (c: Client)
      requires Valid()
      modifies this`clients, this`st
      ensures Valid() && fresh(c) && fresh(c.inbuf) && clients == old(clients) + [c] && c.slot == |old(clients)|
      ensures st == old(st).(clients := old(st).clients + [ClientRec(id, -1, false, [])])
    {
      c := new Client(|clients|);
      c.id := id;
      clients := clients + [c];
      st := st.(clients := st.clients + [ClientRec(id, -1, false, [])]);
      assert ClientMatches(c, st.clients[|st.clients| - 1], c.slot);
    }

    /** A connection under an id that is in use: refused, and closed once more. */
    method RefuseNewConnection(fd: int)
      requires Valid()
      modifies this`sockets, this`st
      ensures Valid() && st == Refuse(old(st), fd)
    {
      RefuseConnection(fd);
      CloseMatches(sockets, st.conns, fd);
      CloseAgain(BrokerSpec.Send(old(st).conns, fd, [ConnNo]), fd);
      CloseFd(fd);
    }

    /** A registered client comes back. */
    method Reconnect(c: Client, fd: int) returns (ghost order: seq<Name>)
      requires Valid() && c.slot < |clients| && clients[c.slot] == c
      modifies this`sockets, this`topics, this`st, c`connected, c`fd
      ensures Valid() && IsOrder(old(st).topics.Keys, order)
      ensures st == Replay(rules, Attach(old(st), c.slot, fd), c.slot, order)
    {
      AttachClient(c, fd);
      order := SendMissingMessages(c);
    }

    /** The table keeps its records, and only fresh ones are added. */
    twostate predicate ClientsKept()
      reads this, clients
    {
      && |old(clients)| <= |clients|
      && (forall i :: 0 <= i < |old(clients)| ==> clients[i] == old(clients)[i])
      && (forall i :: |old(clients)| <= i < |clients| ==> fresh(clients[i]) && fresh(clients[i].inbuf))
    }

    /** An id connects for the first time. */
    method Register(id: Name, fd: int)
      requires Valid()
      modifies this`clients, this`st
      ensures Valid() && ClientsKept()
      ensures st == Attach(old(st).(clients := old(st).clients + [ClientRec(id, -1, false, [])]), |old(st).clients|, fd)
    {
      var c := AddClient(id);
      AttachClient(c, fd);
    }

    /** handle_new_connection, once the header has been read. */
    method HandleNewConnection(fd: int, header: seq<byte>) returns (ghost order: seq<Name>)
      requires Valid() && |header| == HEADER_LEN
      modifies this`clients, this`sockets, this`topics, this`st, clients
      ensures Valid() && IsOrder(old(st).topics.Keys, order) && ClientsKept()
      ensures st == BrokerSpec.HandleNewConnection(rules, old(st), fd, Decode(header, []), order)
    {
      order := SomeOrder(st.topics.Keys);
      if FlagsField(header) == CONN_REQ {
        var id := CString(header[..ID_LEN]);
        var i := FindClientById(id);
        if i == |clients| {
          Register(id, fd);
        } else {
          var c := clients[i];
          assert ClientMatches(c, st.clients[i], i);
          if c.connected {
            RefuseNewConnection(fd);
          } else {
            order := Reconnect(c, fd);
          }
        }
      }
    }

    /** handle_connection_request, for a header-only request: the id is left as it is. */
    method HandleConnectionRequest(c: Client) returns (ghost order: seq<Name>)
      requires Valid() && c.slot < |clients| && clients[c.slot] == c
      modifies this`sockets, this`topics, this`st, clients
      ensures Valid() && IsOrder(old(st).topics.Keys, order)
      ensures st == BrokerSpec.HandleConnectionRequest(rules, old(st), c.slot, order)
    {
      order := SomeOrder(st.topics.Keys);
      assert ClientMatches(c, st.clients[c.slot], c.slot);
      var j := FindClientTwin(c);
      if j == |clients| {
        c.connected := true;
        st := st.(clients := st.clients[c.slot := st.clients[c.slot].(connected := true)]);
      } else {
        var d := clients[j];
        assert ClientMatches(d, st.clients[j], j);
        if !d.connected {
          order := Reconnect(d, c.fd);
        }
      }
    }

    /** handle_connection_close */
    method HandleConnectionClose(c: Client)
      requires Valid() && c.slot < |clients| && clients[c.slot] == c
      modifies this`sockets, this`st, c`connected, c`fd
      ensures Valid() && st == Detach(old(st), c.slot)
    {
      assert ClientMatches(c, st.clients[c.slot], c.slot);
      CloseMatches(sockets, st.conns, c.fd);
      c.connected := false;
      CloseFd(c.fd);
      c.fd := -1;
      st := Detach(st, c.slot);
      assert ClientMatches(c, st.clients[c.slot], c.slot);
    }

    /** End-of-file on a socket, in read_from_client or read_connection_header. */
    method HandleEof(fd: int)
      requires Valid()
      modifies this`sockets, this`st, clients
      ensures Valid() && st == Step(rules, old(st), Hangup(fd))
    {
      var i := FindClientByFd(fd);
      if i < |clients| && !rules.eofLeavesRecord {
        assert ClientMatches(clients[i], st.clients[i], i);
        HandleConnectionClose(clients[i]);
      } else {
        CloseMatches(sockets, st.conns, fd);
        CloseFd(fd);
        st := st.(conns := BrokerSpec.Close(st.conns, fd));
      }
    }

    // ---------- subscriptions ----------

    /** handle_new_subscription; the topic is the payload in the client's buffer. */
    method HandleNewSubscription(c: Client, sf: bool)
      requires Valid() && c.slot < |clients| && clients[c.slot] == c
      requires HEADER_LEN <= c.lastMsgLen <= HEADER_LEN + TOPIC_LEN && c.inbuf.Length == CLIENT_BUF
      modifies this`topics, this`st
      ensures Valid()
      ensures var key := RequestKey(c.inbuf[HEADER_LEN..c.lastMsgLen]);
              st == old(st).(topics := old(st).topics[key := AddEntry(rules, TopicAt(old(st), key), c.slot, sf)])
    {
      var key := RequestKey(c.inbuf[HEADER_LEN..c.lastMsgLen]);
      var topic := if key in topics then topics[key] else TopicData.TopicData([], [], 0);
      assert TopicMatches(topic, TopicAt(st, key), clients);
      StoredEndExact(|topic.messages|);
      var newSub := Subscriber.Subscriber(c, sf, if rules.cursorFromZero then 0 else StoredEnd(|topic.messages|));
      var sfInc := if sf then 1 else 0;
      AddedMatches(topic, TopicAt(st, key), newSub, c.slot, rules, clients);
      topic := topic.(subs := topic.subs + [newSub], sfCount := topic.sfCount + sfInc);
      TopicsAfterUpdate(topics, st.topics, key, topic, AddEntry(rules, TopicAt(st, key), c.slot, sf), clients);
      topics := topics[key := topic];
      st := st.(topics := st.topics[key := AddEntry(rules, TopicAt(st, key), c.slot, sf)]);
    }

    /** The search by pointer among a topic's subscribers. */
    method FindSubByClient(subs: seq<Subscriber>, c: Client, ghost es: seq<Entry>) returns (k: nat)
      requires Valid() && c.slot < |clients| && clients[c.slot] == c && SubsMatch(subs, es, clients)
      ensures k == FindEntry(es, c.slot)
    {
      k := 0;
      while k < |subs| && subs[k].client != c
        invariant k <= |subs|
        invariant forall j :: 0 <= j < k ==> es[j].client != c.slot
      {
        assert SubMatches(subs[k], es[k], clients);
        k := k + 1;
      }
      if k < |subs| {
        assert SubMatches(subs[k], es[k], clients);
        assert ClientMatches(clients[es[k].client], st.clients[es[k].client], es[k].client);
      }
    }

    /** Erases the client's first entry, reads an SF flag, and clears the log when the count drops to zero. */
    method RemoveSub(data: TopicData, c: Client, stale: bool, ghost t0: Topic) returns (topic: TopicData)
      requires Valid() && c.slot < |clients| && clients[c.slot] == c && TopicMatches(data, t0, clients)
      ensures TopicMatches(topic, RemoveEntry(rules, t0, c.slot, stale), clients)
    {
      topic := data;
      var k := FindSubByClient(topic.subs, c, t0.subs);
      if k < |topic.subs| {
        var erased := topic.subs[k];
        ErasedMatches(topic.subs, t0.subs, k, clients);
        topic := topic.(subs := topic.subs[..k] + topic.subs[k + 1..]);
        var flag := if !rules.readAfterErase then erased.sf else if k < |topic.subs| then topic.subs[k].sf else stale;
        if flag {
          topic := topic.(sfCount := topic.sfCount - 1);
        }
        if topic.sfCount == 0 {
          topic := topic.(messages := []);
        }
      }
    }

    /** handle_unsubscription; `stale` is the SF flag found one past the end of the vector. */
    method HandleUnsubscription(c: Client, stale: bool)
      requires Valid() && c.slot < |clients| && clients[c.slot] == c
      requires HEADER_LEN <= c.lastMsgLen <= HEADER_LEN + TOPIC_LEN && c.inbuf.Length == CLIENT_BUF
      modifies this`topics, this`st
      ensures Valid()
      ensures var key := RequestKey(c.inbuf[HEADER_LEN..c.lastMsgLen]);
              st == if key !in old(st).topics then old(st)
                    else old(st).(topics :=
                      old(st).topics[key := RemoveEntry(rules, old(st).topics[key], c.slot, stale)])
    {
      var key := RequestKey(c.inbuf[HEADER_LEN..c.lastMsgLen]);
      if key in topics {
        ghost var after := RemoveEntry(rules, st.topics[key], c.slot, stale);
        var topic := RemoveSub(topics[key], c, stale, st.topics[key]);
        TopicsAfterUpdate(topics, st.topics, key, topic, after, clients);
        topics := topics[key := topic];
        st := st.(topics := st.topics[key := after]);
      }
    }

    // ---------- requests from registered clients ----------

    /** handle_complete_message */
    method HandleCompleteMessage(c: Client, stale: bool, ghost id: Name) returns (ghost order: seq<Name>)
      requires Valid() && c.slot < |clients| && clients[c.slot] == c && c.inbuf.Length == CLIENT_BUF
      requires HEADER_LEN <= c.lastMsgLen <= HEADER_LEN + TOPIC_LEN
      modifies this`sockets, this`topics, this`st, clients
      ensures Valid() && IsOrder(old(st).topics.Keys, order)
      ensures st == HandleComplete(rules, old(st), c.slot,
                                   CommandOf(old(c.action), id, old(c.inbuf[HEADER_LEN..c.lastMsgLen])), order, stale)
    {
      order := SomeOrder(st.topics.Keys);
      if c.action == CONN_REQ {
        order := HandleConnectionRequest(c);
      } else if c.action == SUB_NOSF {
        HandleNewSubscription(c, false);
      } else if c.action == SUB_SF {
        HandleNewSubscription(c, true);
      } else if c.action == UNSUB {
        HandleUnsubscription(c, stale);
      } else if c.action == CONN_END {
        HandleConnectionClose(c);
      }
    }

    /** The request's header and payload arrive in the client's buffer. */
    method FillBuffer(c: Client, header: seq<byte>, payload: seq<byte>)
      requires Valid() && c.slot < |clients| && clients[c.slot] == c && c.inbuf.Length == CLIENT_BUF
      requires |header| == HEADER_LEN && LengthField(header) == HEADER_LEN + |payload| && |payload| <= TOPIC_LEN
      modifies c`action, c`lastMsgLen, c.inbuf
      ensures Valid() && c.action == FlagsField(header) && c.lastMsgLen == HEADER_LEN + |payload|
      ensures c.inbuf[HEADER_LEN..c.lastMsgLen] == payload
    {
      forall k | 0 <= k < HEADER_LEN { c.inbuf[k] := header[k]; }
      c.lastMsgLen := LengthField(header);
      c.action := FlagsField(header);
      forall k | HEADER_LEN <= k < HEADER_LEN + |payload| { c.inbuf[k] := payload[k - HEADER_LEN]; }
      assert ClientMatches(c, st.clients[c.slot], c.slot);
      assert ClientsMatch(clients, st.clients);
    }

    /** read_from_client: header, then payload if there is one, then the handler. */
    method ReadFromClient(c: Client, header: seq<byte>, payload: seq<byte>, stale: bool)
      returns (ghost order: seq<Name>)
      requires Valid() && c.slot < |clients| && clients[c.slot] == c && c.inbuf.Length == CLIENT_BUF
      requires |header| == HEADER_LEN && LengthField(header) == HEADER_LEN + |payload| && |payload| <= TOPIC_LEN
      modifies this`sockets, this`topics, this`st, clients, c.inbuf
      ensures Valid() && IsOrder(old(st).topics.Keys, order)
      ensures st == HandleComplete(rules, old(st), c.slot, Decode(header, payload), order, stale)
    {
      FillBuffer(c, header, payload);
      order := HandleCompleteMessage(c, stale, CString(header[..ID_LEN]));
      if payload != [] {
        forall k | 0 <= k < c.inbuf.Length { c.inbuf[k] := 0; }
      }
    }

    // ---------- the main loop ----------

    /** cleanup: CONN_END to every connected client. */
    method Cleanup()
      requires Valid()
      modifies this`sockets, this`running, this`st
      ensures Valid() && st == Step(rules, old(st), Exit)
    {
      ghost var cs := st.conns;
      HeaderOnlyBytes();
      for i := 0 to |clients|
        invariant st == old(st) && cs == EndAll(st.conns, st.clients[..i]) && SocketsMatch(sockets, cs)
      {
        assert ClientMatches(clients[i], st.clients[i], i);
        assert st.clients[..i + 1][..i] == st.clients[..i];
        if clients[i].connected {
          SendPacket(sockets, cs, clients[i].fd, ConnEnd);
          SendRaw(clients[i].fd, HeaderBytes(Zeros(ID_LEN), CONN_END, HEADER_LEN));
          cs := BrokerSpec.Send(cs, clients[i].fd, [ConnEnd]);
          CloseMatches(sockets, cs, clients[i].fd);
          CloseFd(clients[i].fd);
          cs := BrokerSpec.Close(cs, clients[i].fd);
        }
      }
      assert st.clients[..|st.clients|] == st.clients;
      running := false;
      st := st.(conns := cs, running := false);
    }

    predicate HasOpenSocket(fd: int)
      reads this
    {
      exists a :: 0 <= a < |sockets| && sockets[a].open && sockets[a].fd == fd
    }

    /** Whether the kernel can hand the input over, from the sockets. */
    predicate CanArrive(input: Input)
      reads this
    {
      match input
      case NewConnection(fd) => fd >= 0 && !HasOpenSocket(fd)
      case Request(fd, raw, _) =>
        HasOpenSocket(fd) && Complete(raw) && (FlagsField(raw.header) == CONN_REQ ==> raw.payload == [])
      case Eof(fd) => HasOpenSocket(fd)
      case Udp(_) => true
      case ExitCommand => true
    }

    lemma OpenMatches(fd: int)
      requires Valid()
      ensures HasOpenSocket(fd) <==> IsOpen(st.conns, fd)
    {
      if HasOpenSocket(fd) {
        var a :| 0 <= a < |sockets| && sockets[a].open && sockets[a].fd == fd;
        assert st.conns[a].open;
      }
      if IsOpen(st.conns, fd) {
        var a :| 0 <= a < |st.conns| && st.conns[a].open && st.conns[a].fd == fd;
        assert sockets[a].open;
      }
    }

    lemma ArrivalsMatch(input: Input)
      requires Valid()
      ensures CanArrive(input) <==> Inputs.CanArrive(st, input)
    {
      match input
      case NewConnection(fd) => OpenMatches(fd);
      case Request(fd, _, _) => OpenMatches(fd);
      case Eof(fd) => OpenMatches(fd);
      case _ =>
    }

    /** A request on an open socket, dispatched on whether a record holds it. */
    method HandleRequest(fd: int, raw: RawRequest, stale: bool) returns (ghost order: seq<Name>)
      requires Valid() && CanArrive(Request(fd, raw, stale))
      modifies this`clients, this`sockets, this`topics, this`st, clients, set c | c in clients :: c.inbuf
      ensures Valid() && ClientsKept() && IsOrder(old(st).topics.Keys, order)
      ensures st == Step(rules, old(st), EventOf(Request(fd, raw, stale), order))
    {
      var i := FindClientByFd(fd);
      if i < |clients| {
        assert ClientMatches(clients[i], st.clients[i], i);
        order := ReadFromClient(clients[i], raw.header, raw.payload, stale);
      } else {
        OnlyConnReqCounts(rules, st, fd, raw);
        order := HandleNewConnection(fd, raw.header);
      }
    }

    /** One turn of the main loop: the handler's effect is the step of the event the input stands for. */
    method Dispatch(input: Input) returns (ghost order: seq<Name>)
      requires Valid() && running && CanArrive(input) && LogsBelow(st.topics, INT_LIMIT - 1)
      modifies this, clients, inbuf, set c | c in clients :: c.inbuf
      ensures Valid() && ClientsKept()
      ensures Enabled(old(st), EventOf(input, order)) && st == Step(rules, old(st), EventOf(input, order))
    {
      ArrivalsMatch(input);
      order := [];
      match input {
        case NewConnection(fd) =>
          AcceptIncomingConnection(fd);
        case Request(fd, raw, stale) =>
          order := HandleRequest(fd, raw, stale);
        case Eof(fd) =>
          HandleEof(fd);
        case Udp(m) =>
          HandleIncomingMessage(m);
        case ExitCommand =>
          Cleanup();
      }
    }
  }

  /** One turn of the main loop, if the server still runs and the input can arrive. */
  method Turn(broker: Broker, input: Input, ghost es: seq<Event>, ghost n: nat) returns (ghost order: seq<Name>)
    requires broker.HasRun(es)
    requires LogsBelow(broker.st.topics, n) && 0 < n < INT_LIMIT
    modifies broker, broker.clients, broker.inbuf, set c | c in broker.clients :: c.inbuf
    ensures broker.ClientsKept() && LogsBelow(broker.st.topics, n + 1)
    ensures broker.HasRun(TakenNext(broker.rules, es, input, order))
  {
    order := [];
    LogsStayBelow(broker.st, n, n + 1);
    LogsStayBelow(broker.st, n, INT_LIMIT - 1);
    broker.ArrivalsMatch(input);
    if broker.running && broker.CanArrive(input) {
      order := broker.Dispatch(input);
      StepGrowsLogs(broker.rules, old(broker.st), EventOf(input, order), n);
      RunMore(broker.rules, es, EventOf(input, order));
    }
  }

  /** es is what the main loop takes from the first k inputs. */
  ghost predicate TakenBy(rules: Rules, inputs: seq<Input>, k: nat, orders: seq<seq<Name>>, es: seq<Event>)
  {
    k <= |inputs| && |orders| == k && es == Taken(rules, inputs[..k], orders)
  }

  lemma TakenByNext(rules: Rules, inputs: seq<Input>, k: nat, orders: seq<seq<Name>>, es: seq<Event>, order: seq<Name>)
    requires k < |inputs| && TakenBy(rules, inputs, k, orders, es)
    ensures TakenBy(rules, inputs, k + 1, orders + [order], TakenNext(rules, es, inputs[k], order))
  {
    TakenMore(rules, inputs[..k], orders, inputs[k], order);
    assert inputs[..k + 1] == inputs[..k] + [inputs[k]];
  }

  /**
   main_loop: whatever arrives, and in whatever order, what the server does is the run of exactly the
   events the inputs stand for; it is a legal run of the state machine, and the bytes on every socket
   are those of the run. (What the kernel cannot hand over in the current state is passed over.)
   */
  method MainLoop(rules: Rules, inputs: seq<Input>) returns (broker: Broker, ghost orders: seq<seq<Name>>)
    requires |inputs| < INT_LIMIT - 1
    ensures |orders| == |inputs|
    ensures Legal(rules, Taken(rules, inputs, orders))
    ensures broker.Valid() && broker.rules == rules && broker.st == Run(rules, Taken(rules, inputs, orders))
    ensures SocketsMatch(broker.sockets, Run(rules, Taken(rules, inputs, orders)).conns)
  {
    broker := new Broker(rules);
    orders := [];
    ghost var es := [];
    for k := 0 to |inputs|
      invariant broker.HasRun(es) && broker.rules == rules && fresh(broker) && fresh(broker.inbuf)
      invariant forall i :: 0 <= i < |broker.clients| ==> fresh(broker.clients[i]) && fresh(broker.clients[i].inbuf)
      invariant TakenBy(rules, inputs, k, orders, es) && LogsBelow(broker.st.topics, k + 1)
    {
      ghost var order := Turn(broker, inputs[k], es, k + 1);
      TakenByNext(rules, inputs, k, orders, es, order);
      es, orders := TakenNext(rules, es, inputs[k], order), orders + [order];
    }
    assert inputs[..|inputs|] == inputs;
  }
}
