/**
 The broker as a state machine over values: the client table, the topics with their logs and
 cursors, and one packet log for every connection ever accepted. The classes in `Server` refine it.
 */
module BrokerSpec {
  import opened Protocol

  /**
   Where the code departs from its intent, the rule in force is a parameter: `true` is the code as
   written, `false` the intent.
   - eofLeavesRecord: end-of-file on a registered socket closes it but leaves `is_connected` and
     `sockfd` in the record (server.cpp:431-435).
   - readAfterErase: an unsubscribe reads the SF flag through the iterator it has just erased
     (server.cpp:376-378).
   - cursorFromZero: a new entry's cursor is 0, not the last index now in the log (server.cpp:334).
   - replayKeepsCursor: a replay does not advance the cursor (server.cpp:254-260).
   */
  datatype Rules = Rules(eofLeavesRecord: bool, readAfterErase: bool,
                         cursorFromZero: bool, replayKeepsCursor: bool)

  const AS_WRITTEN := Rules(true, true, true, true)
  const CURSORS_AS_WRITTEN := Rules(false, false, true, true)
  const REPAIRED := Rules(false, false, false, false)

  // ---------- state ----------

  /** A `tcp_client`; `sessions` is history: the connections this record has been attached to. */
  datatype ClientRec = ClientRec(id: Name, fd: int, connected: bool, sessions: seq<nat>)

  /** A `subscriber`: the client it points to (by table position), the SF flag and the cursor. */
  datatype Entry = Entry(client: nat, sf: bool, cursor: int)

  datatype Topic = Topic(log: seq<Message>, subs: seq<Entry>, sfCount: int)

  /** An accepted connection; `owner` is history: the record attached to it, or -1. */
  datatype Conn = Conn(fd: int, open: bool, owner: int, wire: seq<Packet>)

  datatype State = State(clients: seq<ClientRec>, topics: map<Name, Topic>, conns: seq<Conn>, running: bool)

  /** A complete client request, as the server decodes it. */
  datatype Command = ConnReq(id: Name) | Subscribe(name: Name, sf: bool) | Unsubscribe(name: Name) | Quit | Other

  /**
   What wakes the main loop up. A request also carries two choices of the environment: the order in
   which the unordered map is visited and what memory holds one past the end of a vector.
   */
  datatype Event =
    | Accept(fd: int)
    | Receive(fd: int, cmd: Command, order: seq<Name>, stale: bool)
    | Hangup(fd: int)
    | Datagram(msg: Message)
    | Exit

  const INIT := State([], map[], [], true)
  const NO_TOPIC := Topic([], [], 0)

  function TopicAt(s: State, t: Name): Topic
  {
    if t in s.topics then s.topics[t] else NO_TOPIC
  }

  predicate IsOn(clients: seq<ClientRec>, i: nat)
  {
    i < |clients| && clients[i].connected
  }

  function Flags(clients: seq<ClientRec>): (on: seq<bool>)
    ensures |on| == |clients| && forall i :: 0 <= i < |on| ==> on[i] == clients[i].connected
  {
    seq(|clients|, i requires 0 <= i < |clients| => clients[i].connected)
  }

  // ---------- searches: each returns the first hit, or the length when there is none ----------

  function FindFd(clients: seq<ClientRec>, fd: int): (k: nat)
    ensures k <= |clients| && (k < |clients| ==> clients[k].fd == fd)
    ensures forall j :: 0 <= j < k ==> clients[j].fd != fd
  {
    if clients == [] || clients[0].fd == fd then 0 else 1 + FindFd(clients[1..], fd)
  }

  function FindId(clients: seq<ClientRec>, id: Name): (k: nat)
    ensures k <= |clients| && (k < |clients| ==> clients[k].id == id)
    ensures forall j :: 0 <= j < k ==> clients[j].id != id
  {
    if clients == [] || clients[0].id == id then 0 else 1 + FindId(clients[1..], id)
  }

  /** `client_is_connected`: the first record with the same id on another socket. */
  function FindTwin(clients: seq<ClientRec>, c: ClientRec): (k: nat)
    ensures k <= |clients| && (k < |clients| ==> clients[k].id == c.id && clients[k].fd != c.fd)
    ensures forall j :: 0 <= j < k ==> !(clients[j].id == c.id && clients[j].fd != c.fd)
  {
    if clients == [] || (clients[0].id == c.id && clients[0].fd != c.fd) then 0
    else 1 + FindTwin(clients[1..], c)
  }

  /** The lookup by pointer. */
  function FindEntry(subs: seq<Entry>, i: nat): (k: nat)
    ensures k <= |subs| && (k < |subs| ==> subs[k].client == i)
    ensures forall j :: 0 <= j < k ==> subs[j].client != i
  {
    if subs == [] || subs[0].client == i then 0 else 1 + FindEntry(subs[1..], i)
  }

  predicate HasId(clients: seq<ClientRec>, e: Entry, id: Name)
  {
    e.client < |clients| && clients[e.client].id == id
  }

  /** The lookup by id string. */
  function FindEntryById(clients: seq<ClientRec>, subs: seq<Entry>, id: Name): (k: nat)
    ensures k <= |subs| && (k < |subs| ==> HasId(clients, subs[k], id))
    ensures forall j :: 0 <= j < k ==> !HasId(clients, subs[j], id)
  {
    if subs == [] || HasId(clients, subs[0], id) then 0 else 1 + FindEntryById(clients, subs[1..], id)
  }

  predicate IsOpen(conns: seq<Conn>, fd: int)
  {
    exists a :: 0 <= a < |conns| && conns[a].open && conns[a].fd == fd
  }

  function FindOpen(conns: seq<Conn>, fd: int): (k: nat)
    ensures k <= |conns| && (k < |conns| ==> conns[k].open && conns[k].fd == fd)
    ensures forall j :: 0 <= j < k ==> !(conns[j].open && conns[j].fd == fd)
  {
    if conns == [] || (conns[0].open && conns[0].fd == fd) then 0 else 1 + FindOpen(conns[1..], fd)
  }

  // ---------- sockets ----------

  function SendOn(c: Conn, fd: int, ps: seq<Packet>): Conn
  {
    if c.open && c.fd == fd then c.(wire := c.wire + ps) else c
  }

  /** Bytes written to a descriptor reach the open connection that holds it; without one they are lost. */
  function Send(conns: seq<Conn>, fd: int, ps: seq<Packet>): (cs: seq<Conn>)
    ensures |cs| == |conns| && forall a :: 0 <= a < |cs| ==> cs[a] == SendOn(conns[a], fd, ps)
  {
    seq(|conns|, a requires 0 <= a < |conns| => SendOn(conns[a], fd, ps))
  }

  function CloseOn(c: Conn, fd: int): Conn
  {
    if c.fd == fd then c.(open := false) else c
  }

  function Close(conns: seq<Conn>, fd: int): (cs: seq<Conn>)
    ensures |cs| == |conns| && forall a :: 0 <= a < |cs| ==> cs[a] == CloseOn(conns[a], fd)
  {
    seq(|conns|, a requires 0 <= a < |conns| => CloseOn(conns[a], fd))
  }

  // ---------- one topic ----------

  function Reached(e: Entry, on: seq<bool>, top: int): Entry
  {
    if e.client < |on| && on[e.client] then e.(cursor := top) else e
  }

  /** A publish: logged only while there are SF subscribers; the cursors of those on line move to the end. */
  function PostTopic(topic: Topic, on: seq<bool>, m: Message): Topic
  {
    var log := if topic.sfCount != 0 then topic.log + [m] else topic.log;
    Topic(log,
          seq(|topic.subs|, k requires 0 <= k < |topic.subs| => Reached(topic.subs[k], on, |log| - 1)),
          topic.sfCount)
  }

  function AddEntry(r: Rules, topic: Topic, i: nat, sf: bool): Topic
  {
    Topic(topic.log,
          topic.subs + [Entry(i, sf, if r.cursorFromZero then 0 else |topic.log| - 1)],
          topic.sfCount + if sf then 1 else 0)
  }

  /** The SF flag an unsubscribe sees; `stale` is what memory holds one past the end of the vector. */
  predicate FlagRead(r: Rules, subs: seq<Entry>, k: nat, stale: bool)
    requires k < |subs|
  {
    if !r.readAfterErase then subs[k].sf
    else if k + 1 < |subs| then subs[k + 1].sf
    else stale
  }

  function RemoveEntry(r: Rules, topic: Topic, i: nat, stale: bool): Topic
  {
    var k := FindEntry(topic.subs, i);
    if k == |topic.subs| then topic
    else
      var count := topic.sfCount - if FlagRead(r, topic.subs, k, stale) then 1 else 0;
      Topic(if count == 0 then [] else topic.log, topic.subs[..k] + topic.subs[k + 1..], count)
  }

  /** The stored messages after a cursor. */
  function Missing(log: seq<Message>, cursor: int): seq<Message>
  {
    if 0 <= cursor + 1 <= |log| then log[cursor + 1..] else []
  }

  /** The topic after a replay to the entry at position k. */
  function CaughtUp(r: Rules, topic: Topic, k: nat): Topic
    requires k < |topic.subs|
  {
    if r.replayKeepsCursor then topic
    else topic.(subs := topic.subs[k := topic.subs[k].(cursor := |topic.log| - 1)])
  }

  // ---------- handlers ----------

  function News(ms: seq<Message>): (ps: seq<Packet>)
    ensures |ps| == |ms|
  {
    seq(|ms|, k requires 0 <= k < |ms| => MsgNew(ms[k]))
  }

  function SendTo(conns: seq<Conn>, clients: seq<ClientRec>, i: nat, m: Message): seq<Conn>
  {
    if IsOn(clients, i) then Send(conns, clients[i].fd, [MsgNew(m)]) else conns
  }

  function FanOut(conns: seq<Conn>, clients: seq<ClientRec>, subs: seq<Entry>, m: Message): seq<Conn>
  {
    if subs == [] then conns
    else SendTo(FanOut(conns, clients, subs[..|subs| - 1], m), clients, subs[|subs| - 1].client, m)
  }

  function Publish(s: State, m: Message): State
  {
    var topic := TopicAt(s, KeyOf(m));
    s.(topics := s.topics[KeyOf(m) := PostTopic(topic, Flags(s.clients), m)],
       conns := FanOut(s.conns, s.clients, topic.subs, m))
  }

  function ReplayTopic(r: Rules, s: State, i: nat, t: Name): State
    requires i < |s.clients|
  {
    var topic := TopicAt(s, t);
    var k := FindEntryById(s.clients, topic.subs, s.clients[i].id);
    if t !in s.topics || k == |topic.subs| || !topic.subs[k].sf then s
    else s.(topics := s.topics[t := CaughtUp(r, topic, k)],
            conns := Send(s.conns, s.clients[i].fd, News(Missing(topic.log, topic.subs[k].cursor))))
  }

  /** `send_missing_messages`, visiting the topics in the given order. */
  function Replay(r: Rules, s: State, i: nat, order: seq<Name>): (s': State)
    requires i < |s.clients|
    ensures s'.clients == s.clients && s'.running == s.running
  {
    if order == [] then s
    else ReplayTopic(r, Replay(r, s, i, order[..|order| - 1]), i, order[|order| - 1])
  }

  /** Puts record i on line on the descriptor fd. */
  function Attach(s: State, i: nat, fd: int): (s': State)
    requires i < |s.clients|
    ensures |s'.clients| == |s.clients|
  {
    var c := FindOpen(s.conns, fd);
    s.(clients := s.clients[i := s.clients[i].(fd := fd, connected := true, sessions := s.clients[i].sessions + [c])],
       conns := if c < |s.conns| then s.conns[c := s.conns[c].(owner := i)] else s.conns)
  }

  function Refuse(s: State, fd: int): State
  {
    s.(conns := Close(Send(s.conns, fd, [ConnNo]), fd))
  }

  function Detach(s: State, i: nat): State
    requires i < |s.clients|
  {
    s.(clients := s.clients[i := s.clients[i].(fd := -1, connected := false)],
       conns := Close(s.conns, s.clients[i].fd))
  }

  function HandleNewConnection(r: Rules, s: State, fd: int, cmd: Command, order: seq<Name>): State
  {
    if !cmd.ConnReq? then s
    else
      var i := FindId(s.clients, cmd.id);
      if i == |s.clients| then
        Attach(s.(clients := s.clients + [ClientRec(cmd.id, -1, false, [])]), i, fd)
      else if s.clients[i].connected then Refuse(s, fd)
      else Replay(r, Attach(s, i, fd), i, order)
  }

  /** A CONN_REQ from a registered client; header-only, so that its id is left as it is. */
  function HandleConnectionRequest(r: Rules, s: State, i: nat, order: seq<Name>): State
    requires i < |s.clients|
  {
    var j := FindTwin(s.clients, s.clients[i]);
    if j == |s.clients| then s.(clients := s.clients[i := s.clients[i].(connected := true)])
    else if s.clients[j].connected then s
    else Replay(r, Attach(s, j, s.clients[i].fd), j, order)
  }

  function HandleComplete(r: Rules, s: State, i: nat, cmd: Command, order: seq<Name>, stale: bool): State
    requires i < |s.clients|
  {
    match cmd
    case ConnReq(_) => HandleConnectionRequest(r, s, i, order)
    case Subscribe(t, sf) => s.(topics := s.topics[t := AddEntry(r, TopicAt(s, t), i, sf)])
    case Unsubscribe(t) =>
      if t in s.topics then s.(topics := s.topics[t := RemoveEntry(r, s.topics[t], i, stale)]) else s
    case Quit => Detach(s, i)
    case Other => s
  }

  function HandleHangup(r: Rules, s: State, fd: int): State
  {
    var i := FindFd(s.clients, fd);
    if i < |s.clients| && !r.eofLeavesRecord then Detach(s, i) else s.(conns := Close(s.conns, fd))
  }

  /** The CONN_END sends of `cleanup`. */
  function EndAll(conns: seq<Conn>, clients: seq<ClientRec>): seq<Conn>
  {
    if clients == [] then conns
    else
      var cs, c := EndAll(conns, clients[..|clients| - 1]), clients[|clients| - 1];
      if c.connected then Close(Send(cs, c.fd, [ConnEnd]), c.fd) else cs
  }

  // ---------- runs ----------

  function Step(r: Rules, s: State, e: Event): State
  {
    match e
    case Accept(fd) => s.(conns := s.conns + [Conn(fd, true, -1, [])])
    case Receive(fd, cmd, order, stale) =>
      var i := FindFd(s.clients, fd);
      if i < |s.clients| then HandleComplete(r, s, i, cmd, order, stale)
      else HandleNewConnection(r, s, fd, cmd, order)
    case Hangup(fd) => HandleHangup(r, s, fd)
    case Datagram(m) => Publish(s, m)
    case Exit => s.(conns := EndAll(s.conns, s.clients), running := false)
  }

  ghost predicate IsOrder(keys: set<Name>, order: seq<Name>)
  {
    && (forall t :: t in order <==> t in keys)
    && (forall a, b :: 0 <= a < b < |order| ==> order[a] != order[b])
  }

  /** What the kernel can report: new descriptors are not open already, others are open. */
  ghost predicate Enabled(s: State, e: Event)
  {
    s.running &&
    match e
    case Accept(fd) => fd >= 0 && !IsOpen(s.conns, fd)
    case Receive(fd, _, order, _) => IsOpen(s.conns, fd) && IsOrder(s.topics.Keys, order)
    case Hangup(fd) => IsOpen(s.conns, fd)
    case Datagram(_) => true
    case Exit => true
  }

  function Run(r: Rules, es: seq<Event>): State
  {
    if es == [] then INIT else Step(r, Run(r, es[..|es| - 1]), es[|es| - 1])
  }

  ghost predicate Legal(r: Rules, es: seq<Event>)
  {
    es == [] || (Legal(r, es[..|es| - 1]) && Enabled(Run(r, es[..|es| - 1]), es[|es| - 1]))
  }

  // ---------- what clients have been sent ----------

  /** The messages of one topic among the packets written to a connection. */
  function OnTopic(wire: seq<Packet>, t: Name): seq<Message>
  {
    if wire == [] then []
    else
      var p := wire[|wire| - 1];
      OnTopic(wire[..|wire| - 1], t) + if p.MsgNew? && KeyOf(p.msg) == t then [p.msg] else []
  }

  function DeliveredOn(conns: seq<Conn>, sessions: seq<nat>, t: Name): seq<Message>
  {
    if sessions == [] then []
    else
      var c := sessions[|sessions| - 1];
      DeliveredOn(conns, sessions[..|sessions| - 1], t) + if c < |conns| then OnTopic(conns[c].wire, t) else []
  }

  /** Every message on topic t written to client i, over all its connections, in order. */
  function Delivered(s: State, i: nat, t: Name): seq<Message>
    requires i < |s.clients|
  {
    DeliveredOn(s.conns, s.clients[i].sessions, t)
  }

  /** The messages published on topic t, in order. */
  function Published(es: seq<Event>, t: Name): seq<Message>
  {
    if es == [] then []
    else
      var e := es[|es| - 1];
      Published(es[..|es| - 1], t) + if e.Datagram? && KeyOf(e.msg) == t then [e.msg] else []
  }
}
