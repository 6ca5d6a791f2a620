/**
 Runs on which the code as written fails, event by event from the initial state, next to what the
 intended rules make of the same events.
 */
module Failures {
  import opened Protocol
  import opened BrokerSpec
  import opened AnyRules
  import opened Lane
  import opened Projection
  import opened Epoch
  import opened Seat
  import opened Counts
  import opened Delivery

  /**
   Two ids, two descriptors, two messages on one topic, and what memory holds past the end of a vector:
   any that differ where they must.
   */
  datatype Setting = Setting(a: Name, b: Name, f: int, g: int, m: Message, n: Message, stale: bool)

  predicate Proper(x: Setting)
  {
    x.f >= 0 && x.g >= 0 && x.f != x.g && x.a != x.b && KeyOf(x.m) == KeyOf(x.n)
  }

  function TopicOf(x: Setting): Name { KeyOf(x.m) }

  function FirstCursor(r: Rules): int { if r.cursorFromZero then 0 else -1 }

  /** A request on descriptor fd; once there is a topic, it is all there is to visit. */
  function Asks(x: Setting, fd: int, cmd: Command): Event
  {
    Receive(fd, cmd, [TopicOf(x)], x.stale)
  }

  function AsksFirst(x: Setting, fd: int, cmd: Command): Event
  {
    Receive(fd, cmd, [], x.stale)
  }

  // ---------- one event after the other ----------

  /** Mentioned where a proof looks into a run; elsewhere where it stands is all that matters. */
  predicate Look(n: nat) { true }

  /** The run of es stands in state s after k events. */
  ghost predicate At(r: Rules, es: seq<Event>, k: nat, s: State)
  {
    k <= |es| && forall n {:trigger Look(n)} :: n == k && Look(n) ==> Legal(r, es[..n]) && Run(r, es[..n]) == s
  }

  ghost predicate Takes(r: Rules, s: State, e: Event, s': State)
  {
    Enabled(s, e) && Step(r, s, e) == s'
  }

  lemma Next(r: Rules, es: seq<Event>, k: nat, s: State, s': State)
    requires k < |es| && At(r, es, k, s) && Takes(r, s, es[k], s')
    ensures At(r, es, k + 1, s')
  {
    assert Look(k);
    assert es[..k + 1][..k] == es[..k];
  }

  lemma Standing(r: Rules, es: seq<Event>, k: nat, s: State)
    requires At(r, es, k, s)
    ensures Legal(r, es[..k]) && Run(r, es[..k]) == s
  {
    assert Look(k);
  }

  lemma Arrived(r: Rules, es: seq<Event>, s: State)
    requires At(r, es, |es|, s)
    ensures Legal(r, es) && Run(r, es) == s
  {
    Standing(r, es, |es|, s);
    assert es[..|es|] == es;
  }

  function Knocking(s: State, fd: int): State
  {
    s.(conns := s.conns + [Conn(fd, true, -1, [])])
  }

  lemma {:induction false} Knock(r: Rules, es: seq<Event>, k: nat, s: State, fd: int)
    requires k < |es| && es[k] == Accept(fd) && At(r, es, k, s)
    requires s.running && fd >= 0 && !IsOpen(s.conns, fd)
    ensures At(r, es, k + 1, Knocking(s, fd))
  {
    Next(r, es, k, s, Knocking(s, fd));
  }

  // ---------- client a subscribes to a new topic ----------

  function Registered(x: Setting): State
  {
    State.State([ClientRec(x.a, x.f, true, [0])], map[], [Conn(x.f, true, 0, [])], true)
  }

  function OneEntry(r: Rules, sf: bool): Topic
  {
    Topic([], [Entry(0, sf, FirstCursor(r))], if sf then 1 else 0)
  }

  function Alone(r: Rules, x: Setting, sf: bool): State
  {
    Registered(x).(topics := map[TopicOf(x) := OneEntry(r, sf)])
  }

  function Begin(x: Setting, sf: bool): seq<Event>
  {
    [Accept(x.f), AsksFirst(x, x.f, ConnReq(x.a)), AsksFirst(x, x.f, Subscribe(TopicOf(x), sf))]
  }

  lemma Register(r: Rules, x: Setting)
    ensures Takes(r, Knocking(INIT, x.f), AsksFirst(x, x.f, ConnReq(x.a)), Registered(x))
  {
    var s := Knocking(INIT, x.f);
    assert s.conns == [Conn(x.f, true, -1, [])];
    assert s.conns[0].open && s.conns[0].fd == x.f;
    assert FindOpen(s.conns, x.f) == 0;
    var s' := Step(r, s, AsksFirst(x, x.f, ConnReq(x.a)));
    assert s'.clients[0].sessions == [0];
    assert s'.clients == Registered(x).clients && s'.conns == Registered(x).conns;
  }

  lemma SubscribeFirst(r: Rules, x: Setting, sf: bool)
    ensures Takes(r, Registered(x), AsksFirst(x, x.f, Subscribe(TopicOf(x), sf)), Alone(r, x, sf))
  {
    var s := Registered(x);
    assert s.conns[0].open && s.conns[0].fd == x.f;
    assert FindFd(s.clients, x.f) == 0;
    assert AddEntry(r, NO_TOPIC, 0, sf) == OneEntry(r, sf);
  }

  lemma {:induction false} Beginning(r: Rules, es: seq<Event>, x: Setting, sf: bool)
    requires Proper(x) && |es| >= 3 && es[..3] == Begin(x, sf)
    ensures At(r, es, 2, Registered(x)) && At(r, es, 3, Alone(r, x, sf))
  {
    assert es[0] == es[..3][0] && es[1] == es[..3][1] && es[2] == es[..3][2];
    assert At(r, es, 0, INIT);
    Register(r, x);
    SubscribeFirst(r, x, sf);
    Knock(r, es, 0, INIT, x.f);
    Next(r, es, 1, Knocking(INIT, x.f), Registered(x));
    Next(r, es, 2, Registered(x), Alone(r, x, sf));
  }

  // ---------- it leaves, a message is published, it comes back ----------

  /** Client a has left; log is what has been published since. */
  function Gone(r: Rules, x: Setting, log: seq<Message>): State
  {
    State.State([ClientRec(x.a, -1, false, [0])],
                map[TopicOf(x) := Topic(log, [Entry(0, true, FirstCursor(r))], 1)],
                [Conn(x.f, false, 0, [])], true)
  }

  /** The end-of-file as written: the record is connected, without a socket. */
  function Dangling(x: Setting, log: seq<Message>, cursor: int): State
  {
    State.State([ClientRec(x.a, x.f, true, [0])], map[TopicOf(x) := Topic(log, [Entry(0, true, cursor)], 1)],
                [Conn(x.f, false, 0, [])], true)
  }

  /** Client a is back, and has been sent what its cursor says is missing. */
  function Back(r: Rules, x: Setting): State
  {
    State.State([ClientRec(x.a, x.g, true, [0, 1])],
                map[TopicOf(x) :=
                    Topic([x.m], [Entry(0, true, if r.replayKeepsCursor then FirstCursor(r) else 0)], 1)],
                [Conn(x.f, false, 0, []), Conn(x.g, true, 0, News(Missing([x.m], FirstCursor(r))))], true)
  }

  function Refused(x: Setting): State
  {
    var s := Dangling(x, [x.m], 0);
    s.(conns := s.conns + [Conn(x.g, false, -1, [ConnNo])])
  }

  lemma QuitA(r: Rules, x: Setting)
    ensures Takes(r, Alone(r, x, true), Asks(x, x.f, Quit), Gone(r, x, []))
  {
    var s := Alone(r, x, true);
    assert s.conns[0].open && s.conns[0].fd == x.f;
    assert FindFd(s.clients, x.f) == 0;
    assert Detach(s, 0).clients == Gone(r, x, []).clients && Detach(s, 0).conns == Gone(r, x, []).conns;
  }

  lemma HangUpA(r: Rules, x: Setting)
    ensures Takes(r, Alone(r, x, true), Hangup(x.f),
                  if r.eofLeavesRecord then Dangling(x, [], FirstCursor(r)) else Gone(r, x, []))
  {
    var s := Alone(r, x, true);
    assert s.conns[0].open && s.conns[0].fd == x.f;
    assert FindFd(s.clients, x.f) == 0;
    assert Detach(s, 0).clients == Gone(r, x, []).clients && Detach(s, 0).conns == Gone(r, x, []).conns;
    assert Close(s.conns, x.f) == [Conn(x.f, false, 0, [])];
  }

  lemma PublishToGone(r: Rules, x: Setting)
    ensures Takes(r, Gone(r, x, []), Datagram(x.m), Gone(r, x, [x.m]))
  {
    var s, t := Gone(r, x, []), TopicOf(x);
    var topic, after := s.topics[t], Topic([x.m], [Entry(0, true, FirstCursor(r))], 1);
    assert topic.subs[..0] == [];
    assert PostTopic(topic, Flags(s.clients), x.m) == after;
    assert FanOut(s.conns, s.clients, topic.subs, x.m) == s.conns;
    assert s.topics[t := after] == map[t := after];
  }

  /** The message counts as sent, and reaches nobody. */
  lemma PublishToDangling(r: Rules, x: Setting)
    ensures Takes(r, Dangling(x, [], FirstCursor(r)), Datagram(x.m), Dangling(x, [x.m], 0))
  {
    var s, t := Dangling(x, [], FirstCursor(r)), TopicOf(x);
    var topic, after := s.topics[t], Topic([x.m], [Entry(0, true, 0)], 1);
    assert topic.subs[..0] == [];
    assert PostTopic(topic, Flags(s.clients), x.m) == after;
    assert FanOut(s.conns, s.clients, topic.subs, x.m) == Send(s.conns, x.f, [MsgNew(x.m)]) == s.conns;
    assert s.topics[t := after] == map[t := after];
  }

  lemma ComeBackA(r: Rules, x: Setting)
    requires Proper(x)
    ensures Takes(r, Knocking(Gone(r, x, [x.m]), x.g), Asks(x, x.g, ConnReq(x.a)), Back(r, x))
  {
    var s, t := Knocking(Gone(r, x, [x.m]), x.g), TopicOf(x);
    assert s.conns[1].open && s.conns[1].fd == x.g;
    assert FindOpen(s.conns, x.g) == 1 && FindFd(s.clients, x.g) == 1 && FindId(s.clients, x.a) == 0;
    var s1 := Attach(s, 0, x.g);
    assert s1.clients[0].sessions == [0, 1];
    assert s1.clients == Back(r, x).clients;
    assert s1.conns == [Conn(x.f, false, 0, []), Conn(x.g, true, 0, [])];
    assert FindEntryById(s1.clients, s1.topics[t].subs, x.a) == 0;
    var order := [t];
    assert order[..0] == [] && Replay(r, s1, 0, order[..0]) == s1;
    var ps := News(Missing([x.m], FirstCursor(r)));
    assert [] + ps == ps;
    assert Send(s1.conns, x.g, ps) == Back(r, x).conns;
    assert s1.topics[t].subs[0 := Entry(0, true, 0)] == [Entry(0, true, 0)];
    assert s1.topics[t := CaughtUp(r, s1.topics[t], 0)] == Back(r, x).topics;
  }

  lemma ComeBackRefused(r: Rules, x: Setting)
    requires Proper(x)
    ensures Takes(r, Knocking(Dangling(x, [x.m], 0), x.g), Asks(x, x.g, ConnReq(x.a)), Refused(x))
  {
    var s := Knocking(Dangling(x, [x.m], 0), x.g);
    assert s.conns[1].open && s.conns[1].fd == x.g;
    assert FindFd(s.clients, x.g) == 1 && FindId(s.clients, x.a) == 0;
    assert [] + [ConnNo] == [ConnNo];
    assert Refuse(s, x.g).conns == Refused(x).conns;
  }

  /** Subscribe with SF to a new topic, go away, a publish, come back. */
  function AwayAndBack(x: Setting, away: Event): seq<Event>
  {
    Begin(x, true) + [away, Datagram(x.m), Accept(x.g), Asks(x, x.g, ConnReq(x.a))]
  }

  lemma {:induction false} GoneAndKnocking(r: Rules, es: seq<Event>, x: Setting)
    requires Proper(x) && |es| > 5 && es[4] == Datagram(x.m) && es[5] == Accept(x.g)
    requires At(r, es, 4, Gone(r, x, []))
    ensures At(r, es, 6, Knocking(Gone(r, x, [x.m]), x.g))
  {
    PublishToGone(r, x);
    Next(r, es, 4, Gone(r, x, []), Gone(r, x, [x.m]));
    Knock(r, es, 5, Gone(r, x, [x.m]), x.g);
  }

  lemma {:induction false} GoneAndBack(r: Rules, es: seq<Event>, x: Setting, away: Event)
    requires Proper(x) && es == AwayAndBack(x, away) && At(r, es, 4, Gone(r, x, []))
    ensures At(r, es, 6, Knocking(Gone(r, x, [x.m]), x.g)) && At(r, es, 7, Back(r, x))
  {
    GoneAndKnocking(r, es, x);
    ComeBackA(r, x);
    Next(r, es, 6, Knocking(Gone(r, x, [x.m]), x.g), Back(r, x));
  }

  lemma {:induction false} PublishedToDangling(r: Rules, es: seq<Event>, x: Setting)
    requires |es| > 4 && es[4] == Datagram(x.m) && At(r, es, 4, Dangling(x, [], FirstCursor(r)))
    ensures At(r, es, 5, Dangling(x, [x.m], 0))
  {
    PublishToDangling(r, x);
    Next(r, es, 4, Dangling(x, [], FirstCursor(r)), Dangling(x, [x.m], 0));
  }

  lemma {:induction false} DanglingAndRefused(r: Rules, es: seq<Event>, x: Setting, away: Event)
    requires Proper(x) && es == AwayAndBack(x, away) && At(r, es, 4, Dangling(x, [], FirstCursor(r)))
    ensures At(r, es, 7, Refused(x))
  {
    PublishedToDangling(r, es, x);
    Knock(r, es, 5, Dangling(x, [x.m], 0), x.g);
    ComeBackRefused(r, x);
    Next(r, es, 6, Knocking(Dangling(x, [x.m], 0), x.g), Refused(x));
  }

  lemma PublishedMore(es: seq<Event>, e: Event, t: Name)
    ensures Published(es + [e], t) == Published(es, t) + if e.Datagram? && KeyOf(e.msg) == t then [e.msg] else []
  {
    assert (es + [e])[..|es|] == es;
  }

  lemma {:induction false} PublishedMeanwhile(x: Setting, away: Event)
    requires !away.Datagram?
    ensures Published(AwayAndBack(x, away)[3..], TopicOf(x)) == [x.m]
  {
    var t, back := TopicOf(x), Asks(x, x.g, ConnReq(x.a));
    PublishedMore([], away, t);
    PublishedMore([] + [away], Datagram(x.m), t);
    PublishedMore([] + [away] + [Datagram(x.m)], Accept(x.g), t);
    PublishedMore([] + [away] + [Datagram(x.m)] + [Accept(x.g)], back, t);
    assert AwayAndBack(x, away)[3..] == [] + [away] + [Datagram(x.m)] + [Accept(x.g)] + [back];
  }

  lemma SentToBack(r: Rules, x: Setting)
    ensures Delivered(Back(r, x), 0, TopicOf(x)) == if r.cursorFromZero then [] else [x.m]
  {
    var s, t, sent := Back(r, x), TopicOf(x), if r.cursorFromZero then [] else [x.m];
    assert [0, 1][..1] == [0] && [0][..0] == [];
    assert DeliveredOn(s.conns, [0], t) == [];
    assert Missing([x.m], FirstCursor(r)) == sent;
    OnTopicNews(sent, t, t);
  }

  lemma NothingSentToRefused(x: Setting)
    ensures Delivered(Refused(x), 0, TopicOf(x)) == [] && Owed(TopicAt(Refused(x), TopicOf(x)), 0) == []
  {
    assert [0][..0] == [];
    assert DeliveredOn(Refused(x).conns, [0], TopicOf(x)) == [];
    assert FindEntry(TopicAt(Refused(x), TopicOf(x)).subs, 0) == 0;
  }

  lemma {:induction false} LeaveAndReturn(r: Rules, es: seq<Event>, x: Setting)
    requires Proper(x) && es == AwayAndBack(x, Asks(x, x.f, Quit))
    ensures At(r, es, 2, Registered(x)) && At(r, es, 3, Alone(r, x, true))
    ensures At(r, es, 6, Knocking(Gone(r, x, [x.m]), x.g)) && Legal(r, es) && Run(r, es) == Back(r, x)
  {
    assert es[..3] == Begin(x, true);
    Beginning(r, es, x, true);
    QuitA(r, x);
    Next(r, es, 3, Alone(r, x, true), Gone(r, x, []));
    GoneAndBack(r, es, x, Asks(x, x.f, Quit));
    Arrived(r, es, Back(r, x));
  }

  /**
   Subscribe with SF to a new topic, leave, one publish, come back: a legal run, after which the client
   is connected again, and has been sent the message exactly if a new entry's cursor starts at the end
   of the log. The cursor as written starts at 0, and the message is never replayed.
   */
  lemma {:induction false} FirstMessageLost(r: Rules, x: Setting)
    requires Proper(x)
    ensures var t, es := TopicOf(x), AwayAndBack(x, Asks(x, x.f, Quit));
            && Legal(r, es) && IsOn(Run(r, es).clients, 0)
            && Published(es[3..], t) == [x.m]
            && Delivered(Run(r, es), 0, t) == if r.cursorFromZero then [] else [x.m]
  {
    LeaveAndReturn(r, AwayAndBack(x, Asks(x, x.f, Quit)), x);
    SentToBack(r, x);
    PublishedMeanwhile(x, Asks(x, x.f, Quit));
  }

  // ---------- the loss is one that the exact condition rules out ----------

  predicate Quiet(e: Event)
  {
    !(e.Receive? && (e.cmd.Subscribe? || e.cmd.Unsubscribe?))
  }

  lemma {:induction false} QuietRun(r: Rules, es: seq<Event>, i: nat, t: Name)
    requires forall n :: 0 <= n < |es| ==> Quiet(es[n])
    ensures Outstanding(Trace(r, es, t), i) == 0
  {
    if es != [] { QuietRun(r, es[..|es| - 1], i, t); }
  }

  lemma {:induction false} QuietSince(r: Rules, es: seq<Event>, k: nat, i: nat, t: Name)
    requires k < |es| && forall n :: k < n < |es| ==> Quiet(es[n])
    ensures KeepsSubscription(r, es, k, i, t)
  {
    var since := Since(r, es, k, t);
    forall n | 0 <= n < |since| ensures !since[n].Enter? && !since[n].Withdraw? {
      TraceAt(r, es, k + 1 + n, t);
    }
  }

  lemma {:induction false} SubscribesThere(r: Rules, es: seq<Event>, x: Setting)
    requires Proper(x) && es == AwayAndBack(x, Asks(x, x.f, Quit)) && At(r, es, 2, Registered(x))
    ensures Subscribes(r, es, 2, 0, true, TopicOf(x))
  {
    Standing(r, es, 2, Registered(x));
    assert FindFd(Registered(x).clients, x.f) == 0;
    QuietRun(r, es[..2], 0, TopicOf(x));
  }

  lemma {:induction false} ReturnIsRejoin(r: Rules, es: seq<Event>, x: Setting)
    requires Proper(x) && es == AwayAndBack(x, Asks(x, x.f, Quit))
    requires At(r, es, 6, Knocking(Gone(r, x, [x.m]), x.g))
    ensures Since(r, es, 2, TopicOf(x))[3] == Rejoin(0)
  {
    var s := Knocking(Gone(r, x, [x.m]), x.g);
    Standing(r, es, 6, s);
    assert FindFd(s.clients, x.g) == 1 && FindId(s.clients, x.a) == 0;
    TraceAt(r, es, 6, TopicOf(x));
  }

  /** At its end, the client is due everything published. */
  lemma {:induction false} AllIsDue(r: Rules, es: seq<Event>, x: Setting)
    requires Proper(x) && es == AwayAndBack(x, Asks(x, x.f, Quit))
    requires At(r, es, 6, Knocking(Gone(r, x, [x.m]), x.g))
    ensures Due(Since(r, es, 2, TopicOf(x)), 0) == 1
  {
    var t, since := TopicOf(x), Since(r, es, 2, TopicOf(x));
    ReturnIsRejoin(r, es, x);
    DueBounds(since, 0);
    PostsSince(r, es, 3, t);
    PublishedMeanwhile(x, Asks(x, x.f, Quit));
  }

  lemma {:induction false} NotExact(x: Setting)
    requires Proper(x)
    ensures !ExactSince(AS_WRITTEN, AwayAndBack(x, Asks(x, x.f, Quit)), 2, 0, TopicOf(x))
  {
    var es, t := AwayAndBack(x, Asks(x, x.f, Quit)), TopicOf(x);
    LeaveAndReturn(AS_WRITTEN, es, x);
    AllIsDue(AS_WRITTEN, es, x);
    FirstMessageLost(AS_WRITTEN, x);
  }

  lemma {:induction false} NoFaults(r: Rules, es: seq<Event>, t: Name)
    requires forall n :: 0 <= n < |es| ==> !es[n].Hangup? && !(es[n].Receive? && es[n].cmd.Unsubscribe?)
    ensures StaysUp(r, es, 0) && UnsubscribesRight(r, es, t)
  {
  }

  lemma {:induction false} OneIsDistinct(r: Rules, es: seq<Event>, x: Setting)
    requires es == AwayAndBack(x, Asks(x, x.f, Quit)) && At(r, es, 3, Alone(r, x, true))
    ensures AllDistinct(r, es, 2, TopicOf(x))
  {
    Standing(r, es, 3, Alone(r, x, true));
    PublishedMeanwhile(x, Asks(x, x.f, Quit));
  }

  /** The run meets every assumption of the exact condition for delivery by the code as written. */
  ghost predicate Covered(es: seq<Event>, k: nat, i: nat, t: Name)
  {
    && Legal(AS_WRITTEN, es)
    && StaysUp(AS_WRITTEN, es, i) && CountHolds(AS_WRITTEN, es, k, t)
    && Subscribes(AS_WRITTEN, es, k, i, true, t) && KeepsSubscription(AS_WRITTEN, es, k, i, t)
    && AllDistinct(AS_WRITTEN, es, k, t)
  }

  lemma {:induction false} LossSubscribes(r: Rules, es: seq<Event>, x: Setting)
    requires Proper(x) && es == AwayAndBack(x, Asks(x, x.f, Quit))
    ensures Legal(r, es) && Subscribes(r, es, 2, 0, true, TopicOf(x)) && AllDistinct(r, es, 2, TopicOf(x))
  {
    LeaveAndReturn(r, es, x);
    SubscribesThere(r, es, x);
    OneIsDistinct(r, es, x);
  }

  lemma {:induction false} LossKeeps(r: Rules, es: seq<Event>, x: Setting)
    requires Proper(x) && es == AwayAndBack(x, Asks(x, x.f, Quit))
    ensures StaysUp(r, es, 0) && UnsubscribesRight(r, es, TopicOf(x))
    ensures KeepsSubscription(r, es, 2, 0, TopicOf(x))
  {
    NoFaults(r, es, TopicOf(x));
    QuietSince(r, es, 2, 0, TopicOf(x));
  }

  lemma {:induction false} LossMeetsAssumptions(es: seq<Event>, x: Setting)
    requires Proper(x) && es == AwayAndBack(x, Asks(x, x.f, Quit))
    ensures Covered(es, 2, 0, TopicOf(x))
  {
    LossKeeps(AS_WRITTEN, es, x);
    LossSubscribes(AS_WRITTEN, es, x);
    RightFlagsHoldCount(AS_WRITTEN, es, 2, 0, TopicOf(x));
  }

  lemma {:induction false} UnfitIfNotExact(es: seq<Event>, k: nat, i: nat, t: Name)
    requires Covered(es, k, i, t) && !ExactSince(AS_WRITTEN, es, k, i, t)
    ensures !SessionsFit(Since(AS_WRITTEN, es, k, t), i, LoggedAt(AS_WRITTEN, es, k, t))
  {
    ExactlyOnceInCode(es, k, i, t);
  }

  /**
   That run of the code as written is legal, no client hangs up on it, the topic's count is not zero, the
   subscription is undisturbed and the messages are distinct; and delivery is not exact, because the
   return is not one that fits.
   */
  lemma {:induction false} LossIsCovered(x: Setting)
    requires Proper(x)
    ensures var t, es := TopicOf(x), AwayAndBack(x, Asks(x, x.f, Quit));
            && Covered(es, 2, 0, t)
            && !ExactSince(AS_WRITTEN, es, 2, 0, t)
            && !SessionsFit(Since(AS_WRITTEN, es, 2, t), 0, LoggedAt(AS_WRITTEN, es, 2, t))
  {
    LossMeetsAssumptions(AwayAndBack(x, Asks(x, x.f, Quit)), x);
    NotExact(x);
    UnfitIfNotExact(AwayAndBack(x, Asks(x, x.f, Quit)), 2, 0, TopicOf(x));
  }

  // ---------- an end-of-file instead of a request to leave ----------

  lemma {:induction false} HangingUp(r: Rules, es: seq<Event>, x: Setting)
    requires |es| > 3 && es[3] == Hangup(x.f) && At(r, es, 3, Alone(r, x, true))
    ensures At(r, es, 4, if r.eofLeavesRecord then Dangling(x, [], FirstCursor(r)) else Gone(r, x, []))
  {
    HangUpA(r, x);
    Next(r, es, 3, Alone(r, x, true),
         if r.eofLeavesRecord then Dangling(x, [], FirstCursor(r)) else Gone(r, x, []));
  }

  lemma {:induction false} HangUpStates(r: Rules, es: seq<Event>, x: Setting)
    requires Proper(x) && es == AwayAndBack(x, Hangup(x.f))
    ensures Legal(r, es) && Run(r, es) == if r.eofLeavesRecord then Refused(x) else Back(r, x)
  {
    assert es[..3] == Begin(x, true);
    Beginning(r, es, x, true);
    HangingUp(r, es, x);
    if r.eofLeavesRecord {
      DanglingAndRefused(r, es, x, Hangup(x.f));
      Arrived(r, es, Refused(x));
    } else {
      GoneAndBack(r, es, x, Hangup(x.f));
      Arrived(r, es, Back(r, x));
    }
  }

  /**
   The same with an end-of-file instead of a request to leave, as the code handles it: the client is
   refused when it comes back, though the table has it connected; the message has not been sent, and the
   cursor says that nothing is missing.
   */
  lemma {:induction false} HangupLosesClient(r: Rules, x: Setting)
    requires Proper(x) && r.eofLeavesRecord
    ensures var t, es := TopicOf(x), AwayAndBack(x, Hangup(x.f));
            && Legal(r, es) && IsOn(Run(r, es).clients, 0)
            && |Run(r, es).conns| == 2 && Run(r, es).conns[1] == Conn(x.g, false, -1, [ConnNo])
            && Published(es[3..], t) == [x.m]
            && Delivered(Run(r, es), 0, t) == [] && Owed(TopicAt(Run(r, es), t), 0) == []
  {
    HangUpStates(r, AwayAndBack(x, Hangup(x.f)), x);
    NothingSentToRefused(x);
    PublishedMeanwhile(x, Hangup(x.f));
  }

  /** The client hangs up, and comes back on a connection that is given its old descriptor. */
  function BackOnSameDescriptor(x: Setting): seq<Event>
  {
    Begin(x, true) + [Hangup(x.f), Datagram(x.m), Accept(x.f), Asks(x, x.f, ConnReq(x.a))]
  }

  lemma Swallowed(r: Rules, x: Setting)
    requires Proper(x)
    ensures var s := Knocking(Dangling(x, [x.m], 0), x.f); Takes(r, s, Asks(x, x.f, ConnReq(x.a)), s)
  {
    var s := Knocking(Dangling(x, [x.m], 0), x.f);
    assert s.conns[1].open && s.conns[1].fd == x.f;
    assert FindFd(s.clients, x.f) == 0;
    ConnReqChangesNothing(r, s, 0, [TopicOf(x)]);
  }

  lemma {:induction false} SwallowStates(r: Rules, es: seq<Event>, x: Setting)
    requires Proper(x) && |es| == 7 && At(r, es, 5, Dangling(x, [x.m], 0))
    requires es[5] == Accept(x.f) && es[6] == Asks(x, x.f, ConnReq(x.a))
    ensures At(r, es, 7, Knocking(Dangling(x, [x.m], 0), x.f))
  {
    var s := Dangling(x, [x.m], 0);
    Swallowed(r, x);
    Knock(r, es, 5, s, x.f);
    Next(r, es, 6, Knocking(s, x.f), Knocking(s, x.f));
  }

  lemma {:induction false} HangUpAndPublish(r: Rules, es: seq<Event>, x: Setting)
    requires Proper(x) && r.eofLeavesRecord && |es| > 4 && es[..3] == Begin(x, true)
    requires es[3] == Hangup(x.f) && es[4] == Datagram(x.m)
    ensures At(r, es, 5, Dangling(x, [x.m], 0))
  {
    Beginning(r, es, x, true);
    HangingUp(r, es, x);
    PublishedToDangling(r, es, x);
  }

  /**
   There its request to connect is taken for a repeated one, as the code handles end-of-file: nothing has
   been replayed to it, on the new connection either, and nothing counts as missing.
   */
  lemma {:induction false} RequestSwallowed(r: Rules, x: Setting)
    requires Proper(x) && r.eofLeavesRecord
    ensures var s := Run(r, BackOnSameDescriptor(x));
            && Legal(r, BackOnSameDescriptor(x)) && IsOn(s.clients, 0)
            && |s.conns| == 2 && s.conns[1] == Conn(x.f, true, -1, [])
            && Owed(TopicAt(s, TopicOf(x)), 0) == []
  {
    var es, s := BackOnSameDescriptor(x), Knocking(Dangling(x, [x.m], 0), x.f);
    assert es[..3] == Begin(x, true);
    HangUpAndPublish(r, es, x);
    SwallowStates(r, es, x);
    Arrived(r, es, s);
    assert FindEntry(TopicAt(s, TopicOf(x)).subs, 0) == 0;
  }

  /** With end-of-file handled as a disconnection, the client is back and has been sent the message. */
  lemma {:induction false} HangupSurvived(r: Rules, x: Setting)
    requires Proper(x) && !r.eofLeavesRecord && !r.cursorFromZero
    ensures var es := AwayAndBack(x, Hangup(x.f));
            Legal(r, es) && IsOn(Run(r, es).clients, 0) && Delivered(Run(r, es), 0, TopicOf(x)) == [x.m]
  {
    HangUpStates(r, AwayAndBack(x, Hangup(x.f)), x);
    SentToBack(r, x);
  }

  // ---------- client b subscribes too, with the other flag ----------

  function Pair(x: Setting, b: ClientRec, topic: Topic, conns: seq<Conn>): State
  {
    State.State([ClientRec(x.a, x.f, true, [0]), b], map[TopicOf(x) := topic], conns, true)
  }

  function BothOn(x: Setting, topic: Topic): State
  {
    Pair(x, ClientRec(x.b, x.g, true, [1]), topic, [Conn(x.f, true, 0, []), Conn(x.g, true, 1, [])])
  }

  function TwoEntries(r: Rules, sf: bool): Topic
  {
    Topic([], [Entry(0, sf, FirstCursor(r)), Entry(1, !sf, FirstCursor(r))], 1)
  }

  function Join(x: Setting, sf: bool): seq<Event>
  {
    Begin(x, sf) + [Accept(x.g), Asks(x, x.g, ConnReq(x.b)), Asks(x, x.g, Subscribe(TopicOf(x), !sf))]
  }

  lemma RegisterSecond(r: Rules, x: Setting, sf: bool)
    requires Proper(x)
    ensures Takes(r, Knocking(Alone(r, x, sf), x.g), Asks(x, x.g, ConnReq(x.b)), BothOn(x, OneEntry(r, sf)))
  {
    var s := Knocking(Alone(r, x, sf), x.g);
    assert s.conns[1].open && s.conns[1].fd == x.g;
    assert FindFd(s.clients, x.g) == 1 && FindId(s.clients, x.b) == 1 && FindOpen(s.conns, x.g) == 1;
    var s' := Step(r, s, Asks(x, x.g, ConnReq(x.b)));
    assert s'.clients[1].sessions == [1];
    assert s'.clients == BothOn(x, OneEntry(r, sf)).clients && s'.conns == BothOn(x, OneEntry(r, sf)).conns;
  }

  lemma SubscribeSecond(r: Rules, x: Setting, sf: bool)
    requires Proper(x)
    ensures Takes(r, BothOn(x, OneEntry(r, sf)), Asks(x, x.g, Subscribe(TopicOf(x), !sf)), BothOn(x, TwoEntries(r, sf)))
  {
    var s := BothOn(x, OneEntry(r, sf));
    assert s.conns[1].open && s.conns[1].fd == x.g;
    assert FindFd(s.clients, x.g) == 1;
    assert AddEntry(r, OneEntry(r, sf), 1, !sf) == TwoEntries(r, sf);
    assert s.topics[TopicOf(x) := TwoEntries(r, sf)] == BothOn(x, TwoEntries(r, sf)).topics;
  }

  lemma {:induction false} JoinStates(r: Rules, es: seq<Event>, x: Setting, sf: bool)
    requires Proper(x) && |es| >= 6 && At(r, es, 3, Alone(r, x, sf))
    requires es[3] == Accept(x.g) && es[4] == Asks(x, x.g, ConnReq(x.b))
    requires es[5] == Asks(x, x.g, Subscribe(TopicOf(x), !sf))
    ensures At(r, es, 6, BothOn(x, TwoEntries(r, sf)))
  {
    RegisterSecond(r, x, sf);
    SubscribeSecond(r, x, sf);
    Knock(r, es, 3, Alone(r, x, sf), x.g);
    Next(r, es, 4, Knocking(Alone(r, x, sf), x.g), BothOn(x, OneEntry(r, sf)));
    Next(r, es, 5, BothOn(x, OneEntry(r, sf)), BothOn(x, TwoEntries(r, sf)));
  }

  lemma {:induction false} Joining(r: Rules, es: seq<Event>, x: Setting, sf: bool)
    requires Proper(x) && |es| >= 6 && es[..6] == Join(x, sf)
    ensures At(r, es, 6, BothOn(x, TwoEntries(r, sf)))
  {
    assert es[..3] == es[..6][..3] == Begin(x, sf);
    assert es[3] == es[..6][3] && es[4] == es[..6][4] && es[5] == es[..6][5];
    Beginning(r, es, x, sf);
    JoinStates(r, es, x, sf);
  }

  lemma CountOne(subs: seq<Entry>)
    requires |subs| == 1
    ensures CountSf(subs) == if subs[0].sf then 1 else 0
  {
    assert subs[..0] == [];
  }

  // ---------- a flag that is not counted down ----------

  function AfterDrift(r: Rules): Topic
  {
    Topic([], [Entry(1, false, FirstCursor(r))], if r.readAfterErase then 1 else 0)
  }

  lemma Drift(r: Rules, x: Setting)
    requires Proper(x)
    ensures Takes(r, BothOn(x, TwoEntries(r, true)), Asks(x, x.f, Unsubscribe(TopicOf(x))), BothOn(x, AfterDrift(r)))
  {
    var s, subs := BothOn(x, TwoEntries(r, true)), TwoEntries(r, true).subs;
    assert s.conns[0].open && s.conns[0].fd == x.f;
    assert FindFd(s.clients, x.f) == 0 && FindEntry(subs, 0) == 0;
    assert subs[..0] + subs[1..] == AfterDrift(r).subs;
    assert RemoveEntry(r, TwoEntries(r, true), 0, x.stale) == AfterDrift(r);
    assert s.topics[TopicOf(x) := AfterDrift(r)] == BothOn(x, AfterDrift(r)).topics;
  }

  lemma {:induction false} DriftStates(r: Rules, es: seq<Event>, x: Setting)
    requires Proper(x) && |es| == 8 && At(r, es, 6, BothOn(x, TwoEntries(r, true)))
    requires es[6] == Asks(x, x.f, Unsubscribe(TopicOf(x))) && es[7] == Datagram(x.m)
    ensures At(r, es, 8, Publish(BothOn(x, AfterDrift(r)), x.m))
  {
    Drift(r, x);
    Next(r, es, 6, BothOn(x, TwoEntries(r, true)), BothOn(x, AfterDrift(r)));
    Next(r, es, 7, BothOn(x, AfterDrift(r)), Publish(BothOn(x, AfterDrift(r)), x.m));
  }

  function Drifting(x: Setting): seq<Event>
  {
    Join(x, true) + [Asks(x, x.f, Unsubscribe(TopicOf(x))), Datagram(x.m)]
  }

  /**
   An SF client and then a plain one subscribe to a new topic and the SF client unsubscribes: as written
   the plain entry's flag is read, the count stays at one with no SF entry left, and the next publish is
   logged although nobody is left to replay it to.
   */
  lemma {:induction false} CountDrifts(r: Rules, x: Setting)
    requires Proper(x)
    ensures var topic := TopicAt(Run(r, Drifting(x)), TopicOf(x));
            && Legal(r, Drifting(x)) && CountSf(topic.subs) == 0
            && topic.sfCount == (if r.readAfterErase then 1 else 0)
            && topic.log == (if r.readAfterErase then [x.m] else [])
  {
    var es, s := Drifting(x), BothOn(x, AfterDrift(r));
    assert es[..6] == Join(x, true);
    Joining(r, es, x, true);
    DriftStates(r, es, x);
    Arrived(r, es, Publish(s, x.m));
    CountOne(TopicAt(Publish(s, x.m), TopicOf(x)).subs);
  }

  // ---------- a flag that is counted down too early ----------

  function Stored(r: Rules, x: Setting): Topic
  {
    Topic([x.m], [Entry(0, false, 0), Entry(1, true, FirstCursor(r))], 1)
  }

  /** After the unsubscribe, when log is what has been published altogether. */
  function AfterErase(r: Rules, log: seq<Message>): Topic
  {
    if r.readAfterErase then Topic([], [Entry(1, true, FirstCursor(r))], 0)
    else Topic(log, [Entry(1, true, FirstCursor(r))], 1)
  }

  /** Client b is away, and client a has been sent ms. */
  function BAway(x: Setting, topic: Topic, ms: seq<Message>): State
  {
    Pair(x, ClientRec(x.b, -1, false, [1]), topic, [Conn(x.f, true, 0, News(ms)), Conn(x.g, false, 1, [])])
  }

  function BBack(r: Rules, x: Setting): State
  {
    var topic := AfterErase(r, [x.m, x.n]);
    Pair(x, ClientRec(x.b, x.g, true, [1, 2]), Repaid(r, topic, 1),
         [Conn(x.f, true, 0, News([x.m])), Conn(x.g, false, 1, []),
          Conn(x.g, true, 1, News(Missing(topic.log, FirstCursor(r))))])
  }

  lemma QuitB(r: Rules, x: Setting)
    requires Proper(x)
    ensures Takes(r, BothOn(x, TwoEntries(r, false)), Asks(x, x.g, Quit), BAway(x, TwoEntries(r, false), []))
  {
    var s, s' := BothOn(x, TwoEntries(r, false)), BAway(x, TwoEntries(r, false), []);
    assert s.conns[1].open && s.conns[1].fd == x.g;
    assert FindFd(s.clients, x.g) == 1;
    assert Detach(s, 1).clients == s'.clients && Detach(s, 1).conns == s'.conns;
  }

  lemma StoreFirst(r: Rules, x: Setting)
    requires Proper(x)
    ensures Takes(r, BAway(x, TwoEntries(r, false), []), Datagram(x.m), BAway(x, Stored(r, x), [x.m]))
  {
    var s, s', subs := BAway(x, TwoEntries(r, false), []), BAway(x, Stored(r, x), [x.m]), TwoEntries(r, false).subs;
    assert PostTopic(TwoEntries(r, false), Flags(s.clients), x.m) == Stored(r, x);
    assert subs[..1] == [subs[0]] && [subs[0]][..0] == [];
    assert FanOut(s.conns, s.clients, [subs[0]], x.m) == Send(s.conns, x.f, [MsgNew(x.m)]);
    assert FanOut(s.conns, s.clients, subs, x.m) == Send(s.conns, x.f, [MsgNew(x.m)]);
    assert [] + [MsgNew(x.m)] == News([x.m]);
    assert Send(s.conns, x.f, [MsgNew(x.m)]) == s'.conns;
    assert s.topics[TopicOf(x) := Stored(r, x)] == s'.topics;
  }

  lemma UnsubscribeA(r: Rules, x: Setting)
    requires Proper(x)
    ensures Takes(r, BAway(x, Stored(r, x), [x.m]), Asks(x, x.f, Unsubscribe(TopicOf(x))),
                  BAway(x, AfterErase(r, [x.m]), [x.m]))
  {
    var s, s', subs := BAway(x, Stored(r, x), [x.m]), BAway(x, AfterErase(r, [x.m]), [x.m]), Stored(r, x).subs;
    assert s.conns[0].open && s.conns[0].fd == x.f;
    assert FindFd(s.clients, x.f) == 0 && FindEntry(subs, 0) == 0;
    assert subs[..0] + subs[1..] == [Entry(1, true, FirstCursor(r))];
    assert RemoveEntry(r, Stored(r, x), 0, x.stale) == AfterErase(r, [x.m]);
    assert s.topics[TopicOf(x) := AfterErase(r, [x.m])] == s'.topics;
  }

  lemma PublishSecond(r: Rules, x: Setting)
    requires Proper(x)
    ensures Takes(r, BAway(x, AfterErase(r, [x.m]), [x.m]), Datagram(x.n), BAway(x, AfterErase(r, [x.m, x.n]), [x.m]))
  {
    var topic, after := AfterErase(r, [x.m]), AfterErase(r, [x.m, x.n]);
    var s, s' := BAway(x, topic, [x.m]), BAway(x, after, [x.m]);
    assert topic.subs[..0] == [];
    assert FanOut(s.conns, s.clients, topic.subs, x.n) == s.conns;
    assert PostTopic(topic, Flags(s.clients), x.n) == after;
    assert s.topics[TopicOf(x) := after] == s'.topics;
  }

  lemma ComeBackB(r: Rules, x: Setting)
    requires Proper(x)
    ensures Takes(r, Knocking(BAway(x, AfterErase(r, [x.m, x.n]), [x.m]), x.g), Asks(x, x.g, ConnReq(x.b)), BBack(r, x))
  {
    var topic, t := AfterErase(r, [x.m, x.n]), TopicOf(x);
    var s := Knocking(BAway(x, topic, [x.m]), x.g);
    assert s.conns[2].open && s.conns[2].fd == x.g;
    assert FindOpen(s.conns, x.g) == 2 && FindFd(s.clients, x.g) == 2 && FindId(s.clients, x.b) == 1;
    var s1 := Attach(s, 1, x.g);
    assert s1.clients[1].sessions == [1, 2];
    assert s1.clients == BBack(r, x).clients;
    assert s1.conns == [Conn(x.f, true, 0, News([x.m])), Conn(x.g, false, 1, []), Conn(x.g, true, 1, [])];
    assert FindEntryById(s1.clients, topic.subs, x.b) == 0 && FindEntry(topic.subs, 1) == 0;
    var order := [t];
    assert order[..0] == [] && Replay(r, s1, 1, order[..0]) == s1;
    var ps := News(Missing(topic.log, FirstCursor(r)));
    assert [] + ps == ps;
    assert Send(s1.conns, x.g, ps) == BBack(r, x).conns;
    assert s1.topics[t := Repaid(r, topic, 1)] == BBack(r, x).topics;
  }

  lemma SentToB(r: Rules, x: Setting)
    requires Proper(x)
    ensures Delivered(BBack(r, x), 1, TopicOf(x)) ==
            if r.readAfterErase then [] else if r.cursorFromZero then [x.n] else [x.m, x.n]
  {
    var s, t := BBack(r, x), TopicOf(x);
    var sent := if r.readAfterErase then [] else if r.cursorFromZero then [x.n] else [x.m, x.n];
    assert [1, 2][..1] == [1] && [1][..0] == [];
    assert Missing(AfterErase(r, [x.m, x.n]).log, FirstCursor(r)) == sent;
    OnTopicNews(sent, t, t);
    assert DeliveredOn(s.conns, [1], t) == [];
  }

  function Clearing(x: Setting): seq<Event>
  {
    Join(x, false) +
    [Asks(x, x.g, Quit), Datagram(x.m), Asks(x, x.f, Unsubscribe(TopicOf(x))), Datagram(x.n),
     Accept(x.g), Asks(x, x.g, ConnReq(x.b))]
  }

  lemma {:induction false} ClearStates(r: Rules, es: seq<Event>, x: Setting)
    requires Proper(x) && |es| >= 9 && At(r, es, 6, BothOn(x, TwoEntries(r, false)))
    requires es[6] == Asks(x, x.g, Quit) && es[7] == Datagram(x.m)
    requires es[8] == Asks(x, x.f, Unsubscribe(TopicOf(x)))
    ensures At(r, es, 8, BAway(x, Stored(r, x), [x.m])) && At(r, es, 9, BAway(x, AfterErase(r, [x.m]), [x.m]))
  {
    QuitB(r, x);
    StoreFirst(r, x);
    UnsubscribeA(r, x);
    Next(r, es, 6, BothOn(x, TwoEntries(r, false)), BAway(x, TwoEntries(r, false), []));
    Next(r, es, 7, BAway(x, TwoEntries(r, false), []), BAway(x, Stored(r, x), [x.m]));
    Next(r, es, 8, BAway(x, Stored(r, x), [x.m]), BAway(x, AfterErase(r, [x.m]), [x.m]));
  }

  lemma {:induction false} ReturnAfterClear(r: Rules, es: seq<Event>, x: Setting)
    requires Proper(x) && |es| > 11 && At(r, es, 9, BAway(x, AfterErase(r, [x.m]), [x.m]))
    requires es[9] == Datagram(x.n) && es[10] == Accept(x.g) && es[11] == Asks(x, x.g, ConnReq(x.b))
    ensures At(r, es, 12, BBack(r, x))
  {
    var cleared, away := BAway(x, AfterErase(r, [x.m]), [x.m]), BAway(x, AfterErase(r, [x.m, x.n]), [x.m]);
    PublishSecond(r, x);
    ComeBackB(r, x);
    Next(r, es, 9, cleared, away);
    Knock(r, es, 10, away, x.g);
    Next(r, es, 11, Knocking(away, x.g), BBack(r, x));
  }

  lemma {:induction false} ClearingStates(r: Rules, es: seq<Event>, x: Setting)
    requires Proper(x) && es == Clearing(x)
    ensures Run(r, es[..8]) == BAway(x, Stored(r, x), [x.m])
    ensures Run(r, es[..9]) == BAway(x, AfterErase(r, [x.m]), [x.m])
    ensures Legal(r, es) && Run(r, es) == BBack(r, x)
  {
    assert es[..6] == Join(x, false);
    Joining(r, es, x, false);
    ClearStates(r, es, x);
    ReturnAfterClear(r, es, x);
    Arrived(r, es, BBack(r, x));
    Standing(r, es, 8, BAway(x, Stored(r, x), [x.m]));
    Standing(r, es, 9, BAway(x, AfterErase(r, [x.m]), [x.m]));
  }

  /**
   A plain client and then an SF one subscribe to a new topic, the SF client leaves, a message is stored
   for it, the plain client unsubscribes, another message is published, and the SF client comes back. As
   written the unsubscribe reads the SF client's flag: the count drops to zero with an SF entry left, the
   log is cleared, the second message is not stored, and the client is sent neither.
   */
  lemma {:induction false} ClearLosesMessages(r: Rules, x: Setting)
    requires Proper(x)
    ensures var t, es := TopicOf(x), Clearing(x);
            && Legal(r, es) && IsOn(Run(r, es).clients, 1)
            && TopicAt(Run(r, es[..8]), t).log == [x.m]
            && TopicAt(Run(r, es[..9]), t).log == (if r.readAfterErase then [] else [x.m])
            && TopicAt(Run(r, es[..9]), t).sfCount == (if r.readAfterErase then 0 else 1)
            && CountSf(TopicAt(Run(r, es[..9]), t).subs) == 1
            && TopicAt(Run(r, es), t).log == (if r.readAfterErase then [] else [x.m, x.n])
            && Delivered(Run(r, es), 1, t) ==
               if r.readAfterErase then [] else if r.cursorFromZero then [x.n] else [x.m, x.n]
  {
    ClearingStates(r, Clearing(x), x);
    SentToB(r, x);
    CountOne(AfterErase(r, [x.m]).subs);
  }
}
