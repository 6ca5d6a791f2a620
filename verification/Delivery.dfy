/**
 The delivery guarantees of the whole broker, over every run of events: what has been written, over
 all its connections, to a client on a topic.
 */
module Delivery {
  import opened Protocol
  import opened BrokerSpec
  import opened AnyRules
  import opened Table
  import opened Lane
  import opened Projection
  import opened Epoch
  import opened Seat
  import opened Counts

  lemma {:induction false} TracePrefix(r: Rules, es: seq<Event>, k: nat, t: Name)
    requires k <= |es|
    ensures Trace(r, es, t)[..k] == Trace(r, es[..k], t)
  {
    if k == |es| {
      assert es[..k] == es;
    } else {
      var n := |es| - 1;
      TracePrefix(r, es[..n], k, t);
      assert es[..n][..k] == es[..k];
      assert Trace(r, es, t)[..k] == Trace(r, es[..n], t)[..k];
    }
  }

  lemma PostsSince(r: Rules, es: seq<Event>, k: nat, t: Name)
    requires k <= |es|
    ensures Posts(Trace(r, es, t)[k..]) == Published(es[k..], t)
  {
    TraceTellsPublishes(r, es, t);
    SamePublishesAgree(es[k..], Trace(r, es, t)[k..], t);
  }

  // ---------- a run seen from one topic ----------

  lemma {:induction false} ClientsGrow(r: Rules, es: seq<Event>, k: nat)
    requires k <= |es|
    ensures |Run(r, es[..k]).clients| <= |Run(r, es).clients|
  {
    if k == |es| {
      assert es[..k] == es;
    } else {
      var n := |es| - 1;
      ClientsGrow(r, es[..n], k);
      assert es[..n][..k] == es[..k];
      RecordsPersist(r, Run(r, es[..n]), es[n]);
    }
  }

  /** A record that does not exist does not hang up. */
  lemma {:induction false} NobodyHangsUp(r: Rules, es: seq<Event>, i: nat)
    requires i >= |Run(r, es).clients|
    ensures StaysUp(r, es, i)
  {
    forall k | 0 <= k < |es| ensures Spares(r, Run(r, es[..k]), es[k], i) { ClientsGrow(r, es, k); }
  }

  /** Under any rules, a run seen from a topic is a run of the one-topic broker on that topic. */
  lemma {:induction false} TopicInRun(r: Rules, es: seq<Event>, k: nat, t: Name)
    requires Legal(r, es) && k <= |es|
    ensures LaneLegal(r, NOBODY, Trace(r, es, t))
    ensures LaneRun(r, NOBODY, Trace(r, es, t)[..k]).topic == TopicAt(Run(r, es[..k]), t)
    ensures LaneRun(r, NOBODY, Trace(r, es, t)[..k]).on == Flags(Run(r, es[..k]).clients)
  {
    NobodyHangsUp(r, es, |Run(r, es).clients|);
    RunFor(r, es, |Run(r, es).clients|, t);
    LegalPrefix(r, es, k);
    TracePrefix(r, es, k, t);
    NobodyHangsUp(r, es[..k], |Run(r, es[..k]).clients|);
    RunFor(r, es[..k], |Run(r, es[..k]).clients|, t);
  }

  /** And what a client that stays up has been sent is what that run sends it. */
  lemma {:induction false} InboxInRun(r: Rules, es: seq<Event>, k: nat, i: nat, t: Name)
    requires Legal(r, es) && StaysUp(r, es, i) && k <= |es|
    ensures SameFor(Project(Run(r, es[..k]), t), LaneRun(r, NOBODY, Trace(r, es, t)[..k]), i)
  {
    LegalPrefix(r, es, k);
    StaysUpPrefix(r, es, k, i);
    RunFor(r, es[..k], i, t);
    TracePrefix(r, es, k, t);
  }

  /**
   A run, seen from its k-th event on: it takes the topic, and what a client that stays up has been sent,
   from where they were to where they are as a run of the one-topic broker, and publishes the same.
   */
  lemma {:induction false} SplitRun(r: Rules, es: seq<Event>, k: nat, i: nat, t: Name)
    requires Legal(r, es) && StaysUp(r, es, i) && k <= |es|
    ensures var l, rest := LaneRun(r, NOBODY, Trace(r, es, t)[..k]), Trace(r, es, t)[k..];
            && SameFor(Project(Run(r, es[..k]), t), l, i)
            && LaneLegal(r, l, rest)
            && SameFor(Project(Run(r, es), t), LaneRun(r, l, rest), i)
            && Posts(rest) == Published(es[k..], t)
  {
    TopicInRun(r, es, k, t);
    InboxInRun(r, es, k, i, t);
    RunFor(r, es, i, t);
    LaneRunSplit(r, NOBODY, Trace(r, es, t), k);
    PostsSince(r, es, k, t);
  }

  /** The k-th event subscribes client i, which has no outstanding subscription, to topic t. */
  ghost predicate Subscribes(r: Rules, es: seq<Event>, k: nat, i: nat, sf: bool, t: Name)
  {
    && k < |es|
    && EventOn(r, Run(r, es[..k]), es[k], t) == Enter(i, sf)
    && Outstanding(Trace(r, es[..k], t), i) == 0
  }

  /** What follows the k-th event, seen from topic t. */
  ghost function Since(r: Rules, es: seq<Event>, k: nat, t: Name): seq<LaneEvent>
    requires k < |es|
  {
    Trace(r, es, t)[k + 1..]
  }

  /** Neither a subscribe nor an unsubscribe of client i for topic t follows the k-th event. */
  ghost predicate KeepsSubscription(r: Rules, es: seq<Event>, k: nat, i: nat, t: Name)
  {
    k < |es| && Undisturbed(Since(r, es, k, t), i)
  }

  // ---------- the seat of a subscription ----------

  lemma {:induction false} FlagsRightInRun(r: Rules, es: seq<Event>, t: Name)
    requires Legal(r, es) && UnsubscribesRight(r, es, t)
    ensures FlagsRight(r, NOBODY, Trace(r, es, t))
  {
    var ls := Trace(r, es, t);
    forall n | 0 <= n < |ls| && ls[n].Withdraw? ensures FlagRight(r, LaneRun(r, NOBODY, ls[..n]).topic.subs, ls[n]) {
      assert UnsubscribeRight(r, Run(r, es[..n]), es[n], t);
      TraceAt(r, es, n, t);
      TopicInRun(r, es, n, t);
    }
  }

  lemma {:induction false} SubscribesInTrace(r: Rules, es: seq<Event>, k: nat, i: nat, sf: bool, t: Name)
    requires Subscribes(r, es, k, i, sf, t)
    ensures SubscribedAt(Trace(r, es, t), k, i, sf)
  {
    TraceAt(r, es, k, t);
    TracePrefix(r, es, k, t);
  }

  /**
   From the k-th event on the topic's SF count, right or not, is not zero: what is published is logged, and
   the log is not cleared.
   */
  ghost predicate CountHolds(r: Rules, es: seq<Event>, k: nat, t: Name)
  {
    forall n :: k < n <= |es| ==> TopicAt(Run(r, es[..n]), t).sfCount != 0
  }

  lemma {:induction false} CountHoldsInTrace(r: Rules, es: seq<Event>, k: nat, t: Name)
    requires Legal(r, es) && CountHolds(r, es, k, t)
    ensures CountHeldSince(r, Trace(r, es, t), k)
  {
    var ls := Trace(r, es, t);
    forall n | k < n <= |ls| ensures LaneRun(r, NOBODY, ls[..n]).topic.sfCount != 0 { TopicInRun(r, es, n, t); }
  }

  /**
   Under any rules, a subscription with SF starts a seat, and the rest of the run, seen from the topic, is
   a run of that seat, as long as the topic's count is not zero.
   */
  lemma {:induction false} SeatInRun(r: Rules, es: seq<Event>, k: nat, i: nat, t: Name)
    requires Legal(r, es) && CountHolds(r, es, k, t)
    requires Subscribes(r, es, k, i, true, t) && KeepsSubscription(r, es, k, i, t)
    ensures var l, l' := LaneRun(r, NOBODY, Trace(r, es, t)[..k + 1]), LaneRun(r, NOBODY, Trace(r, es, t));
            && Seated(l, i) && Seated(l', i) && l.on[i]
            && SeatOf(l, i).cursor == (if r.cursorFromZero then 0 else |l.topic.log| - 1)
            && SeatOf(l', i) == SeatRun(r, SeatOf(l, i), Since(r, es, k, t), i)
            && Alternating(Since(r, es, k, t), i, true)
  {
    TopicInRun(r, es, 0, t);
    CountHoldsInTrace(r, es, k, t);
    SubscribesInTrace(r, es, k, i, true, t);
    SeatInTrace(r, Trace(r, es, t), k, i);
  }

  /** The entry itself stays, whatever the count. */
  lemma {:induction false} EntryStays(r: Rules, es: seq<Event>, k: nat, n: nat, i: nat, t: Name)
    requires Legal(r, es) && k < n <= |es|
    requires Subscribes(r, es, k, i, true, t) && KeepsSubscription(r, es, k, i, t)
    ensures var mine := Mine(TopicAt(Run(r, es[..n]), t).subs, i); |mine| == 1 && mine[0].sf
  {
    TopicInRun(r, es, n, t);
    SubscribesInTrace(r, es, k, i, true, t);
    ListedInTrace(r, Trace(r, es, t), k, n, i);
  }

  /** While no unsubscribe from the topic reads a wrong flag, an SF subscription keeps the count from zero. */
  lemma {:induction false} RightFlagsHoldCount(r: Rules, es: seq<Event>, k: nat, i: nat, t: Name)
    requires Legal(r, es) && UnsubscribesRight(r, es, t)
    requires Subscribes(r, es, k, i, true, t) && KeepsSubscription(r, es, k, i, t)
    ensures CountHolds(r, es, k, t)
  {
    forall n | k < n <= |es| ensures TopicAt(Run(r, es[..n]), t).sfCount != 0 {
      EntryStays(r, es, k, n, i, t);
      SeatedCounts(TopicAt(Run(r, es[..n]), t).subs, i);
      RightCounts(r, es, n, t);
    }
  }

  lemma RepairedReadsRight(r: Rules, es: seq<Event>, t: Name)
    requires !r.readAfterErase
    ensures UnsubscribesRight(r, es, t)
  {
  }

  /** Client i has been sent on topic t, since the k-th event, exactly the messages due to it, in order. */
  ghost predicate ExactSince(r: Rules, es: seq<Event>, k: nat, i: nat, t: Name)
  {
    && k < |es|
    && i < |Run(r, es[..k + 1]).clients| && i < |Run(r, es).clients|
    && var due := Due(Since(r, es, k, t), i);
       && due <= |Published(es[k + 1..], t)|
       && Delivered(Run(r, es), i, t) == Delivered(Run(r, es[..k + 1]), i, t) + Published(es[k + 1..], t)[..due]
  }

  /**
   The log after client i's cursor is the part of the publishes since the k-th event not yet due to it;
   while it is connected there is no such part, and it has been sent all of them.
   */
  ghost predicate RestIsOwed(r: Rules, es: seq<Event>, k: nat, i: nat, t: Name)
    requires ExactSince(r, es, k, i, t)
  {
    var s, due, owed := Run(r, es), Due(Since(r, es, k, t), i), Owed(TopicAt(Run(r, es), t), i);
    && owed == Published(es[k + 1..], t)[due..]
    && (s.clients[i].connected ==>
          owed == [] && Delivered(s, i, t) == Delivered(Run(r, es[..k + 1]), i, t) + Published(es[k + 1..], t))
  }

  /** What the seats say of the one-topic broker holds of the broker, for a client that stays up. */
  lemma {:induction false} ExactInRun(r: Rules, es: seq<Event>, k: nat, i: nat, t: Name)
    requires Legal(r, es) && StaysUp(r, es, i) && k < |es|
    requires var ls := Trace(r, es, t); var l, l' := LaneRun(r, NOBODY, ls[..k + 1]), LaneRun(r, NOBODY, ls);
             Seated(l, i) && Seated(l', i)
    ensures var ls := Trace(r, es, t); var l, l' := LaneRun(r, NOBODY, ls[..k + 1]), LaneRun(r, NOBODY, ls);
            ExactSince(r, es, k, i, t) <==> Exact(SeatOf(l, i), SeatOf(l', i), Since(r, es, k, t), i)
  {
    InboxInRun(r, es, k + 1, i, t);
    RunFor(r, es, i, t);
    PostsSince(r, es, k + 1, t);
  }

  /** What the log holds after the cursor of client i's one entry is what is not due yet. */
  ghost predicate RestPending(l: LaneState, since: seq<LaneEvent>, i: nat)
  {
    && Seated(l, i) && Due(since, i) <= |Posts(since)|
    && Missing(l.topic.log, SeatOf(l, i).cursor) == Posts(since)[Due(since, i)..]
    && l.on[i] == OnLine(since, i, true)
  }

  lemma {:induction false} RestInRun(r: Rules, es: seq<Event>, k: nat, i: nat, t: Name)
    requires Legal(r, es) && StaysUp(r, es, i) && ExactSince(r, es, k, i, t)
    requires RestPending(LaneRun(r, NOBODY, Trace(r, es, t)), Since(r, es, k, t), i)
    ensures RestIsOwed(r, es, k, i, t)
  {
    RunFor(r, es, i, t);
    PostsSince(r, es, k + 1, t);
    OwedToSeat(r, TopicAt(Run(r, es), t), i);
    DueBounds(Since(r, es, k, t), i);
  }

  /**
   With the intended cursor rules, whatever the other two: a client that subscribed with SF and has not
   hung up in a way that leaves its record connected has been sent exactly what it is due, as long as the
   topic's SF count is not zero; the log after its cursor is the rest.
   */
  lemma {:induction false} ExactWithIntendedCursors(r: Rules, es: seq<Event>, k: nat, i: nat, t: Name)
    requires !r.cursorFromZero && !r.replayKeepsCursor
    requires Legal(r, es) && StaysUp(r, es, i) && CountHolds(r, es, k, t)
    requires Subscribes(r, es, k, i, true, t) && KeepsSubscription(r, es, k, i, t)
    ensures ExactSince(r, es, k, i, t) && RestIsOwed(r, es, k, i, t)
  {
    var ls, since := Trace(r, es, t), Since(r, es, k, t);
    SeatInRun(r, es, k, i, t);
    var x0 := SeatOf(LaneRun(r, NOBODY, ls[..k + 1]), i);
    IntendedRulesExact(r, x0, since, i);
    SeatOnLine(r, x0, since, i);
    DueBounds(since, i);
    ExactInRun(r, es, k, i, t);
    RestInRun(r, es, k, i, t);
  }

  /**
   Exactly-once, in-order store-and-forward delivery: in every run with the intended rules, a client
   that subscribed with SF has been sent, over all its connections, exactly what was published since,
   up to the point where it last left; what the log holds after its cursor is the rest; and while it
   is connected the rest is empty.
   */
  lemma {:induction false} ExactlyOnce(r: Rules, es: seq<Event>, k: nat, i: nat, t: Name)
    requires r == REPAIRED && Legal(r, es)
    requires Subscribes(r, es, k, i, true, t) && KeepsSubscription(r, es, k, i, t)
    ensures ExactSince(r, es, k, i, t) && RestIsOwed(r, es, k, i, t)
  {
    RepairedReadsRight(r, es, t);
    RightFlagsHoldCount(r, es, k, i, t);
    RepairedStaysUp(r, es, i);
    ExactWithIntendedCursors(r, es, k, i, t);
  }

  /** How many messages the log held at the subscribe. */
  ghost function LoggedAt(r: Rules, es: seq<Event>, k: nat, t: Name): nat
    requires k < |es|
  {
    |TopicAt(Run(r, es[..k + 1]), t).log|
  }

  /** No two messages in the log at the subscribe or published since are equal. */
  ghost predicate AllDistinct(r: Rules, es: seq<Event>, k: nat, t: Name)
    requires k < |es|
  {
    Distinct(TopicAt(Run(r, es[..k + 1]), t).log + Published(es[k + 1..], t))
  }

  /**
   Delivery is exact if every reconnection since the subscribe is one that fits; and for distinct
   messages, so that repeated ones cannot be taken for each other, only if.
   */
  ghost predicate ExactIfFit(r: Rules, es: seq<Event>, k: nat, i: nat, t: Name)
    requires k < |es|
  {
    var fit := SessionsFit(Since(r, es, k, t), i, LoggedAt(r, es, k, t));
    && (fit ==> ExactSince(r, es, k, i, t))
    && (AllDistinct(r, es, k, t) ==> (ExactSince(r, es, k, i, t) ==> fit))
  }

  /**
   The same guarantee with the cursor rules as written, and whatever is done at an end-of-file, for a
   client that does not hang up in a way that leaves its record connected, whoever else does, as long as
   the topic's SF count is not zero, whatever flags are misread: it holds if every reconnection since the
   subscribe is one that fits, a condition on the order of publishes, departures and returns and on how
   many messages the log held at the subscribe; and for distinct messages only if.
   */
  lemma {:induction false} ExactlyOnceAsWritten(r: Rules, es: seq<Event>, k: nat, i: nat, t: Name)
    requires r.cursorFromZero && r.replayKeepsCursor
    requires Legal(r, es) && StaysUp(r, es, i) && CountHolds(r, es, k, t)
    requires Subscribes(r, es, k, i, true, t) && KeepsSubscription(r, es, k, i, t)
    ensures ExactIfFit(r, es, k, i, t)
  {
    SeatInRun(r, es, k, i, t);
    TopicInRun(r, es, k + 1, t);
    WrittenRulesExact(r, SeatOf(LaneRun(r, NOBODY, Trace(r, es, t)[..k + 1]), i), Since(r, es, k, t), i);
    ExactInRun(r, es, k, i, t);
    PostsSince(r, es, k + 1, t);
  }

  /** In particular when every ended session saw at least one live message, whatever the messages. */
  lemma {:induction false} ExactWhenSessionsLive(r: Rules, es: seq<Event>, k: nat, i: nat, t: Name)
    requires r.cursorFromZero && r.replayKeepsCursor
    requires Legal(r, es) && StaysUp(r, es, i) && CountHolds(r, es, k, t)
    requires Subscribes(r, es, k, i, true, t) && KeepsSubscription(r, es, k, i, t)
    requires EndedSessionsLive(Since(r, es, k, t), i)
    ensures ExactSince(r, es, k, i, t)
  {
    SeatInRun(r, es, k, i, t);
    LiveSessionsFit(Since(r, es, k, t), i, LoggedAt(r, es, k, t));
    ExactlyOnceAsWritten(r, es, k, i, t);
  }

  // ---------- the code exactly as written ----------

  lemma {:induction false} ReplayIgnoresEraseRule(r: Rules, s: State, i: nat, order: seq<Name>)
    requires i < |s.clients|
    ensures Replay(r, s, i, order) == Replay(r.(readAfterErase := false), s, i, order)
  {
    if order != [] { ReplayIgnoresEraseRule(r, s, i, order[..|order| - 1]); }
  }

  lemma EraseRulesAgreeOnCommand(r: Rules, s: State, i: nat, cmd: Command, order: seq<Name>, stale: bool)
    requires i < |s.clients|
    requires cmd.Unsubscribe? ==> FlagRight(r, TopicAt(s, cmd.name).subs, Withdraw(i, stale))
    ensures HandleComplete(r, s, i, cmd, order, stale)
         == HandleComplete(r.(readAfterErase := false), s, i, cmd, order, stale)
  {
    if cmd.ConnReq? {
      var j := FindTwin(s.clients, s.clients[i]);
      if j < |s.clients| { ReplayIgnoresEraseRule(r, Attach(s, j, s.clients[i].fd), j, order); }
    }
  }

  lemma EraseRulesAgreeOnRequest(r: Rules, s: State, fd: int, cmd: Command, order: seq<Name>)
    ensures HandleNewConnection(r, s, fd, cmd, order)
         == HandleNewConnection(r.(readAfterErase := false), s, fd, cmd, order)
  {
    if cmd.ConnReq? {
      var j := FindId(s.clients, cmd.id);
      if j < |s.clients| { ReplayIgnoresEraseRule(r, Attach(s, j, fd), j, order); }
    }
  }

  lemma EraseRulesAgree(r: Rules, s: State, e: Event)
    requires forall t :: UnsubscribeRight(r, s, e, t)
    ensures Step(r, s, e) == Step(r.(readAfterErase := false), s, e)
  {
    if e.Receive? {
      var i := FindFd(s.clients, e.fd);
      if i < |s.clients| {
        assert e.cmd.Unsubscribe? ==> UnsubscribeRight(r, s, e, e.cmd.name);
        EraseRulesAgreeOnCommand(r, s, i, e.cmd, e.order, e.stale);
      } else {
        EraseRulesAgreeOnRequest(r, s, e.fd, e.cmd, e.order);
      }
    }
  }

  lemma {:induction false} RunWithUnsubscribesRight(r: Rules, es: seq<Event>)
    requires forall t :: UnsubscribesRight(r, es, t)
    ensures Run(r, es) == Run(r.(readAfterErase := false), es)
    ensures Legal(r, es) <==> Legal(r.(readAfterErase := false), es)
  {
    if es != [] {
      var n := |es| - 1;
      forall t
        ensures UnsubscribesRight(r, es[..n], t) && UnsubscribeRight(r, Run(r, es[..n]), es[n], t)
      {
        RightPrefix(r, es, n, t);
      }
      RunWithUnsubscribesRight(r, es[..n]);
      EraseRulesAgree(r, Run(r, es[..n]), es[n]);
    }
  }

  lemma {:induction false} PrefixWithRightFlags(r: Rules, es: seq<Event>, k: nat)
    requires k <= |es| && forall t :: UnsubscribesRight(r, es, t)
    ensures Run(r, es[..k]) == Run(r.(readAfterErase := false), es[..k])
  {
    forall t ensures UnsubscribesRight(r, es[..k], t) { RightPrefix(r, es, k, t); }
    RunWithUnsubscribesRight(r, es[..k]);
  }

  lemma {:induction false} HangupsWithRightFlags(r: Rules, es: seq<Event>)
    requires HangupsUnregistered(r, es) && forall t :: UnsubscribesRight(r, es, t)
    ensures HangupsUnregistered(r.(readAfterErase := false), es)
  {
    var r' := r.(readAfterErase := false);
    forall k | 0 <= k < |es| && es[k].Hangup?
      ensures FindFd(Run(r', es[..k]).clients, es[k].fd) == |Run(r', es[..k]).clients|
    {
      PrefixWithRightFlags(r, es, k);
    }
  }

  /**
   The code exactly as written behaves as with only its cursor rules, over every run in which no
   registered client hangs up and every unsubscribe reads the flag of the entry it erases.
   */
  lemma {:induction false} CodeAsWritten(es: seq<Event>)
    requires Legal(AS_WRITTEN, es)
    requires HangupsUnregistered(AS_WRITTEN, es) && forall t :: UnsubscribesRight(AS_WRITTEN, es, t)
    ensures Legal(CURSORS_AS_WRITTEN, es) && Run(AS_WRITTEN, es) == Run(CURSORS_AS_WRITTEN, es)
  {
    RunWithUnsubscribesRight(AS_WRITTEN, es);
    HangupsWithRightFlags(AS_WRITTEN, es);
    RunWithoutHangups(AS_WRITTEN.(readAfterErase := false), es);
  }

  /**
   Store-and-forward delivery by the code exactly as written, to a client that has not hung up (others
   may, and their descriptors may be used again), as long as the topic's SF count is not zero: it is exact
   if every reconnection since the subscribe is one that fits, and for distinct messages only if.
   */
  lemma {:induction false} ExactlyOnceInCode(es: seq<Event>, k: nat, i: nat, t: Name)
    requires Legal(AS_WRITTEN, es)
    requires StaysUp(AS_WRITTEN, es, i) && CountHolds(AS_WRITTEN, es, k, t)
    requires Subscribes(AS_WRITTEN, es, k, i, true, t) && KeepsSubscription(AS_WRITTEN, es, k, i, t)
    ensures ExactIfFit(AS_WRITTEN, es, k, i, t)
  {
    ExactlyOnceAsWritten(AS_WRITTEN, es, k, i, t);
  }

  /** So it is exact, for any messages, whenever every ended session saw a live one. */
  lemma {:induction false} ExactWhenSessionsLiveInCode(es: seq<Event>, k: nat, i: nat, t: Name)
    requires Legal(AS_WRITTEN, es)
    requires StaysUp(AS_WRITTEN, es, i) && CountHolds(AS_WRITTEN, es, k, t)
    requires Subscribes(AS_WRITTEN, es, k, i, true, t) && KeepsSubscription(AS_WRITTEN, es, k, i, t)
    requires EndedSessionsLive(Since(AS_WRITTEN, es, k, t), i)
    ensures ExactSince(AS_WRITTEN, es, k, i, t)
  {
    ExactWhenSessionsLive(AS_WRITTEN, es, k, i, t);
  }

  // ---------- subscribers without SF, multiplicity, and the log ----------

  /**
   Under any rules, a client that subscribed without SF, and has not hung up in a way that leaves its
   record connected, has been sent, over all its connections, exactly what was published while it was
   connected.
   */
  lemma {:induction false} PlainOverRuns(r: Rules, es: seq<Event>, k: nat, i: nat, t: Name)
    requires Legal(r, es) && StaysUp(r, es, i)
    requires Subscribes(r, es, k, i, false, t) && KeepsSubscription(r, es, k, i, t)
    ensures i < |Run(r, es[..k + 1]).clients| && i < |Run(r, es).clients|
    ensures Delivered(Run(r, es), i, t)
         == Delivered(Run(r, es[..k + 1]), i, t) + Heard(Since(r, es, k, t), i, true)
  {
    var ls := Trace(r, es, t);
    SplitRun(r, es, k + 1, i, t);
    TopicInRun(r, es, k + 1, t);
    SubscribesInTrace(r, es, k, i, false, t);
    SubscribedThere(r, ls, k, i, false);
    PlainDelivery(r, LaneRun(r, NOBODY, ls[..k + 1]), ls[k + 1..], i);
    LaneRunOk(r, LaneRun(r, NOBODY, ls[..k + 1]), ls[k + 1..]);
  }

  lemma {:induction false} PublishInRun(r: Rules, es: seq<Event>, i: nat, m: Message)
    requires Legal(r, es) && Run(r, es).running && StaysUp(r, es, i)
    requires i < |Run(r, es).clients|
    ensures var s, l := Run(r, es), Project(Run(r, es), KeyOf(m));
            Delivered(Publish(s, m), i, KeyOf(m)) == Delivered(s, i, KeyOf(m)) + Repeat(m, Copies(l, i))
  {
    RunSound(r, es);
    RunUp(r, es, i);
    PublishOn(r, Run(r, es), m, i, KeyOf(m));
    CopiesOfPost(r, Project(Run(r, es), KeyOf(m)), i, m);
  }

  /**
   Under any rules, every publish sends a connected client one copy for each of its outstanding
   subscriptions to the topic, if it has not hung up in a way that leaves its record connected.
   */
  lemma {:induction false} MultiplicityOverRuns(r: Rules, es: seq<Event>, i: nat, m: Message)
    requires Legal(r, es) && Run(r, es).running && StaysUp(r, es, i)
    requires i < |Run(r, es).clients|
    ensures var s := Run(r, es);
            Delivered(Publish(s, m), i, KeyOf(m)) == Delivered(s, i, KeyOf(m)) +
              Repeat(m, if s.clients[i].connected then Outstanding(Trace(r, es, KeyOf(m)), i) else 0)
  {
    PublishInRun(r, es, i, m);
    RunFor(r, es, i, KeyOf(m));
    EntriesOverRun(r, Trace(r, es, KeyOf(m)), i);
  }

  /**
   Under any rules, while no unsubscribe from the topic has read a wrong flag, the log of a topic is what
   was published on it since its SF count last rose from zero.
   */
  lemma {:induction false} LogOverRuns(r: Rules, es: seq<Event>, t: Name)
    requires Legal(r, es) && UnsubscribesRight(r, es, t)
    ensures EpochInv(TopicAt(Run(r, es), t))
    ensures TopicAt(Run(r, es), t).log == Published(es[EpochStart(r, Trace(r, es, t))..], t)
  {
    var ls, r' := Trace(r, es, t), r.(readAfterErase := false);
    assert ls[..|ls|] == ls && es[..|es|] == es;
    TopicInRun(r, es, |es|, t);
    FlagsRightInRun(r, es, t);
    RunWithFlagsRight(r, NOBODY, ls);
    LogIsTheEpoch(r', ls);
    EpochStartWithFlagsRight(r, ls);
    PostsSince(r, es, EpochStart(r, ls), t);
  }
}
