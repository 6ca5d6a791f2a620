/**
 One store-and-forward subscription of one client to one topic: exactly-once, in-order delivery with
 the intended cursor rules, and the exact condition for it with the cursor rules as written.
 */
module Seat {
  import opened Protocol
  import opened BrokerSpec
  import opened Lane
  import opened Epoch

  datatype SeatState = Seat(on: bool, log: seq<Message>, cursor: int, got: seq<Message>)

  function SeatStep(r: Rules, x: SeatState, e: LaneEvent, i: nat): SeatState
  {
    match e
    case Rejoin(j) =>
      if i != j then x
      else SeatState.Seat(true, x.log, if r.replayKeepsCursor then x.cursor else |x.log| - 1,
                          x.got + Missing(x.log, x.cursor))
    case Leave(j) => if i == j then x.(on := false) else x
    case Post(m) =>
      if x.on then SeatState.Seat(true, x.log + [m], |x.log|, x.got + [m]) else x.(log := x.log + [m])
    case _ => x
  }

  function SeatRun(r: Rules, x: SeatState, es: seq<LaneEvent>, i: nat): SeatState
  {
    if es == [] then x else SeatStep(r, SeatRun(r, x, es[..|es| - 1], i), es[|es| - 1], i)
  }

  // ---------- the seat inside the one-topic broker ----------

  /** Client i has exactly one entry, with SF. */
  ghost predicate Listed(l: LaneState, i: nat)
  {
    LaneOk(l) && i < |l.on| && |Mine(l.topic.subs, i)| == 1 && Mine(l.topic.subs, i)[0].sf
  }

  /** And the count, right or not, is not zero: publishes are logged, and the log is not cleared. */
  ghost predicate Seated(l: LaneState, i: nat)
  {
    Listed(l, i) && l.topic.sfCount != 0
  }

  ghost function SeatOf(l: LaneState, i: nat): SeatState
    requires Seated(l, i)
  {
    SeatState.Seat(l.on[i], l.topic.log, Mine(l.topic.subs, i)[0].cursor, l.got[i])
  }

  lemma {:induction false} SeatedCounts(subs: seq<Entry>, i: nat)
    requires exists k :: 0 <= k < |Mine(subs, i)| && Mine(subs, i)[k].sf
    ensures CountSf(subs) > 0
  {
    var n := |subs| - 1;
    if !subs[n].sf {
      var k :| 0 <= k < |Mine(subs, i)| && Mine(subs, i)[k].sf;
      assert Mine(subs[..n], i)[k].sf;
      SeatedCounts(subs[..n], i);
    }
  }

  lemma SeatAfterPost(r: Rules, l: LaneState, m: Message, i: nat)
    requires Seated(l, i)
    ensures Seated(LaneStep(r, l, Post(m)), i)
    ensures SeatOf(LaneStep(r, l, Post(m)), i) == SeatStep(r, SeatOf(l, i), Post(m), i)
  {
    var top := |l.topic.log|;
    assert PostTopic(l.topic, l.on, m).subs == AllReached(l.topic.subs, l.on, top);
    MineAfterPost(l.topic.subs, l.on, top, i);
    MineClients(l.topic.subs, i);
    assert Repeat(m, 1) == [m];
  }

  /** What a replay owes the client is what its one entry's cursor says. */
  lemma OwedToSeat(r: Rules, topic: Topic, i: nat)
    requires |Mine(topic.subs, i)| == 1 && Mine(topic.subs, i)[0].sf
    ensures Owed(topic, i) == Missing(topic.log, Mine(topic.subs, i)[0].cursor)
  {
    FindEntryIsFirst(topic.subs, i);
  }

  lemma SeatAfterRejoin(r: Rules, l: LaneState, j: nat, i: nat)
    requires Seated(l, i) && LaneEnabled(l, Rejoin(j))
    ensures Seated(LaneStep(r, l, Rejoin(j)), i)
    ensures SeatOf(LaneStep(r, l, Rejoin(j)), i) == SeatStep(r, SeatOf(l, i), Rejoin(j), i)
  {
    LaneStepOk(r, l, Rejoin(j));
    MineAfterReplay(r, l.topic, j, i);
    OwedToSeat(r, l.topic, i);
  }

  /** An unsubscribe of another that leaves the count above or below zero leaves the log alone. */
  lemma SeatAfterWithdraw(r: Rules, l: LaneState, j: nat, stale: bool, i: nat)
    requires Seated(l, i) && LaneEnabled(l, Withdraw(j, stale)) && i != j
    requires LaneStep(r, l, Withdraw(j, stale)).topic.sfCount != 0
    ensures Seated(LaneStep(r, l, Withdraw(j, stale)), i)
    ensures SeatOf(LaneStep(r, l, Withdraw(j, stale)), i) == SeatOf(l, i)
  {
    LaneStepOk(r, l, Withdraw(j, stale));
    MineAfterRemove(r, l.topic, j, stale, i);
  }

  /** While the count is not zero, what others do to the topic does not disturb the seat. */
  lemma SeatAfterStep(r: Rules, l: LaneState, e: LaneEvent, i: nat)
    requires Seated(l, i) && LaneEnabled(l, e) && LaneStep(r, l, e).topic.sfCount != 0
    requires !(e.Enter? && e.i == i) && !(e.Withdraw? && e.i == i)
    ensures Seated(LaneStep(r, l, e), i)
    ensures SeatOf(LaneStep(r, l, e), i) == SeatStep(r, SeatOf(l, i), e, i)
  {
    LaneStepOk(r, l, e);
    match e
    case Enter(j, sf) => MineAfterAdd(r, l.topic, j, sf, i);
    case Withdraw(j, stale) => SeatAfterWithdraw(r, l, j, stale, i);
    case Rejoin(j) => SeatAfterRejoin(r, l, j, i);
    case Post(m) => SeatAfterPost(r, l, m, i);
    case _ =>
  }

  /** Whatever the count, others leave the entry where it is. */
  lemma ListedAfterStep(r: Rules, l: LaneState, e: LaneEvent, i: nat)
    requires Listed(l, i) && LaneEnabled(l, e)
    requires !(e.Enter? && e.i == i) && !(e.Withdraw? && e.i == i)
    ensures Listed(LaneStep(r, l, e), i)
  {
    LaneStepOk(r, l, e);
    match e
    case Enter(j, sf) => MineAfterAdd(r, l.topic, j, sf, i);
    case Withdraw(j, stale) => MineAfterRemove(r, l.topic, j, stale, i);
    case Rejoin(j) => MineAfterReplay(r, l.topic, j, i);
    case Post(m) =>
      var top := |PostTopic(l.topic, l.on, m).log| - 1;
      MineAfterPost(l.topic.subs, l.on, top, i);
      assert PostTopic(l.topic, l.on, m).subs == AllReached(l.topic.subs, l.on, top);
    case _ =>
  }

  lemma {:induction false} ListedOverRun(r: Rules, l: LaneState, es: seq<LaneEvent>, i: nat)
    requires Listed(l, i) && LaneLegal(r, l, es) && Undisturbed(es, i)
    ensures Listed(LaneRun(r, l, es), i)
  {
    if es != [] {
      var n := |es| - 1;
      ListedOverRun(r, l, es[..n], i);
      ListedAfterStep(r, LaneRun(r, l, es[..n]), es[n], i);
    }
  }

  lemma {:induction false} SeatOnLine(r: Rules, x: SeatState, es: seq<LaneEvent>, i: nat)
    ensures SeatRun(r, x, es, i).on == OnLine(es, i, x.on)
    ensures SeatRun(r, x, es, i).log == x.log + Posts(es)
  {
    if es != [] {
      SeatOnLine(r, x, es[..|es| - 1], i);
    }
  }

  /** Client i comes back only when it is off line. */
  predicate Alternating(es: seq<LaneEvent>, i: nat, start: bool)
  {
    es == [] ||
    (Alternating(es[..|es| - 1], i, start) && (es[|es| - 1] == Rejoin(i) ==> !OnLine(es[..|es| - 1], i, start)))
  }

  /** The count is not zero at any moment of the run. */
  ghost predicate CountHeld(r: Rules, l: LaneState, es: seq<LaneEvent>)
  {
    forall n :: 0 <= n <= |es| ==> LaneRun(r, l, es[..n]).topic.sfCount != 0
  }

  lemma CountHeldPrefix(r: Rules, l: LaneState, es: seq<LaneEvent>, n: nat)
    requires CountHeld(r, l, es) && n <= |es|
    ensures CountHeld(r, l, es[..n]) && LaneRun(r, l, es[..n]).topic.sfCount != 0
  {
    assert forall k :: 0 <= k <= n ==> es[..n][..k] == es[..k];
  }

  /** Under any rules, what follows is a run of the seat alone, as long as the count is not zero. */
  lemma {:induction false} SeatOverRun(r: Rules, l: LaneState, es: seq<LaneEvent>, i: nat)
    requires Seated(l, i) && LaneLegal(r, l, es) && Undisturbed(es, i) && CountHeld(r, l, es)
    ensures Seated(LaneRun(r, l, es), i)
    ensures SeatOf(LaneRun(r, l, es), i) == SeatRun(r, SeatOf(l, i), es, i)
    ensures Alternating(es, i, l.on[i])
  {
    if es != [] {
      var n := |es| - 1;
      CountHeldPrefix(r, l, es, n);
      SeatOverRun(r, l, es[..n], i);
      assert es[..|es|] == es;
      SeatAfterStep(r, LaneRun(r, l, es[..n]), es[n], i);
      SeatOnLine(r, SeatOf(l, i), es[..n], i);
    }
  }

  // ---------- a subscription in a trace ----------

  /** The k-th event of the trace subscribes client i, which has no outstanding subscription. */
  ghost predicate SubscribedAt(ls: seq<LaneEvent>, k: nat, i: nat, sf: bool)
  {
    k < |ls| && ls[k] == Enter(i, sf) && Outstanding(ls[..k], i) == 0
  }

  /** Client i is on line and has the one entry that a subscribe has just given it. */
  ghost predicate Subscribed(r: Rules, l: LaneState, i: nat, sf: bool)
  {
    && LaneOk(l) && i < |l.on| && l.on[i]
    && Mine(l.topic.subs, i) == [Entry(i, sf, if r.cursorFromZero then 0 else |l.topic.log| - 1)]
  }

  lemma EnterGivesEntry(r: Rules, l: LaneState, i: nat, sf: bool)
    requires LaneOk(l) && LaneEnabled(l, Enter(i, sf)) && Mine(l.topic.subs, i) == []
    ensures Subscribed(r, LaneStep(r, l, Enter(i, sf)), i, sf)
  {
    MineAfterAdd(r, l.topic, i, sf, i);
  }

  lemma {:induction false} SubscribedThere(r: Rules, ls: seq<LaneEvent>, k: nat, i: nat, sf: bool)
    requires LaneLegal(r, NOBODY, ls) && SubscribedAt(ls, k, i, sf)
    ensures Subscribed(r, LaneRun(r, NOBODY, ls[..k + 1]), i, sf)
  {
    LaneLegalPrefix(r, NOBODY, ls, k + 1);
    assert ls[..k + 1][..k] == ls[..k];
    LaneRunOk(r, NOBODY, ls[..k]);
    EntriesOverRun(r, ls[..k], i);
    EnterGivesEntry(r, LaneRun(r, NOBODY, ls[..k]), i, sf);
  }

  lemma SubscribedIsSeated(r: Rules, l: LaneState, i: nat)
    requires Subscribed(r, l, i, true) && l.topic.sfCount != 0
    ensures Seated(l, i) && l.on[i]
    ensures SeatOf(l, i).cursor == if r.cursorFromZero then 0 else |l.topic.log| - 1
  {
  }

  /** The count is not zero from the k-th event of the trace on. */
  ghost predicate CountHeldSince(r: Rules, ls: seq<LaneEvent>, k: nat)
  {
    forall n :: k < n <= |ls| ==> LaneRun(r, NOBODY, ls[..n]).topic.sfCount != 0
  }

  lemma {:induction false} LaneRunPart(r: Rules, ls: seq<LaneEvent>, k: nat, n: nat)
    requires LaneLegal(r, NOBODY, ls) && k <= n <= |ls|
    ensures LaneRun(r, LaneRun(r, NOBODY, ls[..k]), ls[k..n]) == LaneRun(r, NOBODY, ls[..n])
    ensures LaneLegal(r, LaneRun(r, NOBODY, ls[..k]), ls[k..n])
  {
    LaneLegalPrefix(r, NOBODY, ls, n);
    LaneRunSplit(r, NOBODY, ls[..n], k);
    assert ls[..n][..k] == ls[..k] && ls[..n][k..] == ls[k..n];
  }

  lemma {:induction false} CountHeldRest(r: Rules, ls: seq<LaneEvent>, k: nat)
    requires LaneLegal(r, NOBODY, ls) && k < |ls| && CountHeldSince(r, ls, k)
    ensures CountHeld(r, LaneRun(r, NOBODY, ls[..k + 1]), ls[k + 1..])
  {
    var l, since := LaneRun(r, NOBODY, ls[..k + 1]), ls[k + 1..];
    forall n | 0 <= n <= |since| ensures LaneRun(r, l, since[..n]).topic.sfCount != 0 {
      LaneRunPart(r, ls, k + 1, k + 1 + n);
      assert since[..n] == ls[k + 1..k + 1 + n];
    }
  }

  /**
   Under any rules, a subscription with SF starts a seat, and the rest of the trace is a run of that seat,
   as long as the count is not zero.
   */
  lemma {:induction false} SeatInTrace(r: Rules, ls: seq<LaneEvent>, k: nat, i: nat)
    requires LaneLegal(r, NOBODY, ls) && CountHeldSince(r, ls, k)
    requires SubscribedAt(ls, k, i, true) && Undisturbed(ls[k + 1..], i)
    ensures var l, l' := LaneRun(r, NOBODY, ls[..k + 1]), LaneRun(r, NOBODY, ls);
            && Seated(l, i) && Seated(l', i) && l.on[i]
            && SeatOf(l, i).cursor == (if r.cursorFromZero then 0 else |l.topic.log| - 1)
            && SeatOf(l', i) == SeatRun(r, SeatOf(l, i), ls[k + 1..], i)
            && Alternating(ls[k + 1..], i, true)
  {
    var l := LaneRun(r, NOBODY, ls[..k + 1]);
    SubscribedThere(r, ls, k, i, true);
    SubscribedIsSeated(r, l, i);
    CountHeldRest(r, ls, k);
    LaneRunSplit(r, NOBODY, ls, k + 1);
    SeatOverRun(r, l, ls[k + 1..], i);
  }

  lemma SubscribedIsListed(r: Rules, l: LaneState, i: nat)
    requires Subscribed(r, l, i, true)
    ensures Listed(l, i)
  {
  }

  lemma {:induction false} ListedThere(r: Rules, ls: seq<LaneEvent>, k: nat, i: nat)
    requires LaneLegal(r, NOBODY, ls) && SubscribedAt(ls, k, i, true)
    ensures Listed(LaneRun(r, NOBODY, ls[..k + 1]), i)
  {
    SubscribedThere(r, ls, k, i, true);
    SubscribedIsListed(r, LaneRun(r, NOBODY, ls[..k + 1]), i);
  }

  lemma UndisturbedPart(es: seq<LaneEvent>, k: nat, n: nat, i: nat)
    requires k <= n <= |es| && Undisturbed(es[k..], i)
    ensures Undisturbed(es[k..n], i)
  {
    assert es[k..n] == es[k..][..n - k];
  }

  lemma {:induction false} ListedInRest(r: Rules, ls: seq<LaneEvent>, k: nat, n: nat, i: nat)
    requires LaneLegal(r, NOBODY, ls) && k <= n <= |ls|
    requires Listed(LaneRun(r, NOBODY, ls[..k]), i) && Undisturbed(ls[k..], i)
    ensures Listed(LaneRun(r, NOBODY, ls[..n]), i)
  {
    LaneRunPart(r, ls, k, n);
    UndisturbedPart(ls, k, n, i);
    ListedOverRun(r, LaneRun(r, NOBODY, ls[..k]), ls[k..n], i);
  }

  /** Whatever the count, the entry stays. */
  lemma {:induction false} ListedInTrace(r: Rules, ls: seq<LaneEvent>, k: nat, n: nat, i: nat)
    requires LaneLegal(r, NOBODY, ls) && k < n <= |ls|
    requires SubscribedAt(ls, k, i, true) && Undisturbed(ls[k + 1..], i)
    ensures Listed(LaneRun(r, NOBODY, ls[..n]), i)
  {
    ListedThere(r, ls, k, i);
    ListedInRest(r, ls, k + 1, n, i);
  }

  // ---------- what a subscriber is due ----------

  /**
   How many of the messages published since an on-line client subscribed it should have been sent:
   all of them while it is on line, those published before it last left while it is not.
   */
  function Due(es: seq<LaneEvent>, i: nat): nat
  {
    if es == [] then 0
    else if OnLine(es, i, true) then |Posts(es)|
    else Due(es[..|es| - 1], i)
  }

  lemma {:induction false} DueBounds(es: seq<LaneEvent>, i: nat)
    ensures Due(es, i) <= |Posts(es)|
    ensures OnLine(es, i, true) ==> Due(es, i) == |Posts(es)|
    ensures es != [] ==> Due(es[..|es| - 1], i) <= Due(es, i)
  {
    if es != [] { DueBounds(es[..|es| - 1], i); }
  }

  /** Exactly once, in order: everything due has been sent, nothing twice, nothing else. */
  ghost predicate Exact(x0: SeatState, x: SeatState, es: seq<LaneEvent>, i: nat)
  {
    Due(es, i) <= |Posts(es)| && x.got == x0.got + Posts(es)[..Due(es, i)]
  }

  lemma ExactPost(x0: SeatState, x: SeatState, x': SeatState, es: seq<LaneEvent>, i: nat)
    requires es != [] && es[|es| - 1].Post? && OnLine(es[..|es| - 1], i, true)
    requires Exact(x0, x, es[..|es| - 1], i) && x'.got == x.got + [es[|es| - 1].msg]
    ensures Exact(x0, x', es, i)
  {
    var posts := Posts(es[..|es| - 1]);
    DueBounds(es[..|es| - 1], i);
    DueBounds(es, i);
    assert posts[..|posts|] == posts && Posts(es)[..|Posts(es)|] == Posts(es);
    Associative(x0.got, posts, [es[|es| - 1].msg]);
  }

  lemma ExactRejoin(x0: SeatState, x: SeatState, x': SeatState, es: seq<LaneEvent>, i: nat)
    requires es != [] && es[|es| - 1] == Rejoin(i)
    requires Exact(x0, x, es[..|es| - 1], i)
    requires var init := es[..|es| - 1]; x'.got == x.got + Posts(init)[Due(init, i)..]
    ensures Exact(x0, x', es, i)
  {
    var posts, due := Posts(es[..|es| - 1]), Due(es[..|es| - 1], i);
    DueBounds(es, i);
    assert posts == posts[..due] + posts[due..] && Posts(es)[..|posts|] == posts;
    Associative(x0.got, posts[..due], posts[due..]);
  }

  lemma ExactOther(x0: SeatState, x: SeatState, x': SeatState, es: seq<LaneEvent>, i: nat)
    requires es != [] && es[|es| - 1] != Rejoin(i) && !(es[|es| - 1].Post? && OnLine(es[..|es| - 1], i, true))
    requires Exact(x0, x, es[..|es| - 1], i) && x'.got == x.got
    ensures Exact(x0, x', es, i)
  {
    var init := es[..|es| - 1];
    DueBounds(init, i);
    DueBounds(es, i);
    assert Due(es, i) == Due(init, i) && Posts(es)[..Due(init, i)] == Posts(init)[..Due(init, i)];
  }

  /** A step that sends what has become due keeps delivery exact. */
  lemma ExactStep(x0: SeatState, x: SeatState, x': SeatState, es: seq<LaneEvent>, i: nat)
    requires es != []
    requires Exact(x0, x, es[..|es| - 1], i) && x.on == OnLine(es[..|es| - 1], i, true)
    requires var init, e := es[..|es| - 1], es[|es| - 1];
             x'.got == x.got + if e.Post? && x.on then [e.msg]
                               else if e == Rejoin(i) then Posts(init)[Due(init, i)..]
                               else []
    ensures Exact(x0, x', es, i)
  {
    if es[|es| - 1].Post? && x.on {
      ExactPost(x0, x, x', es, i);
    } else if es[|es| - 1] == Rejoin(i) {
      ExactRejoin(x0, x, x', es, i);
    } else {
      ExactOther(x0, x, x', es, i);
    }
  }

  // ---------- the intended cursor rules ----------

  lemma {:induction false} IntendedCursor(r: Rules, x0: SeatState, es: seq<LaneEvent>, i: nat)
    requires !r.replayKeepsCursor && x0.on && x0.cursor == |x0.log| - 1
    ensures SeatRun(r, x0, es, i).cursor + 1 == |x0.log| + Due(es, i)
  {
    SeatOnLine(r, x0, es, i);
    if es != [] {
      var init := es[..|es| - 1];
      IntendedCursor(r, x0, init, i);
      SeatOnLine(r, x0, init, i);
      DueBounds(init, i);
    }
  }

  lemma MissingIsPending(r: Rules, x0: SeatState, es: seq<LaneEvent>, i: nat)
    requires !r.replayKeepsCursor && x0.on && x0.cursor == |x0.log| - 1
    ensures var x := SeatRun(r, x0, es, i);
            Due(es, i) <= |Posts(es)| && Missing(x.log, x.cursor) == Posts(es)[Due(es, i)..]
  {
    SeatOnLine(r, x0, es, i);
    DueBounds(es, i);
    IntendedCursor(r, x0, es, i);
  }

  /**
   With the cursor started at the end of the log and advanced by replays, delivery is exact over
   every run, and the log after the cursor is exactly what is still pending.
   */
  lemma {:induction false} IntendedRulesExact(r: Rules, x0: SeatState, es: seq<LaneEvent>, i: nat)
    requires !r.replayKeepsCursor && x0.on && x0.cursor == |x0.log| - 1
    ensures var x := SeatRun(r, x0, es, i);
            && Exact(x0, x, es, i)
            && Missing(x.log, x.cursor) == Posts(es)[Due(es, i)..]
  {
    MissingIsPending(r, x0, es, i);
    if es != [] {
      var init := es[..|es| - 1];
      IntendedRulesExact(r, x0, init, i);
      SeatOnLine(r, x0, init, i);
      ExactStep(x0, SeatRun(r, x0, init, i), SeatRun(r, x0, es, i), es, i);
    }
  }

  // ---------- the cursor rules as written ----------

  /** What last moved the subscriber's cursor out of step, from the event history alone. */
  datatype Phase =
    | Fresh     // nothing sent since the subscribe
    | Live      // a live message since the last replay that sent something
    | Replayed  // a replay that sent something, and no live message since

  function PhaseOf(es: seq<LaneEvent>, i: nat): Phase
  {
    if es == [] then Fresh
    else
      var init, e := es[..|es| - 1], es[|es| - 1];
      if e.Post? && OnLine(init, i, true) then Live
      else if e == Rejoin(i) && Due(init, i) < |Posts(init)| then Replayed
      else PhaseOf(init, i)
  }

  /**
   When a reconnection is served right: after a live message; or with nothing sent yet, if the log
   held one message at the subscribe, or none and nothing was published since.
   */
  predicate Fits(phase: Phase, logged: nat, posted: nat)
  {
    phase == Live || (phase == Fresh && (logged == 1 || (logged == 0 && posted == 0)))
  }

  predicate SessionsFit(es: seq<LaneEvent>, i: nat, logged: nat)
  {
    es == [] ||
    var init := es[..|es| - 1];
    SessionsFit(init, i, logged) && (es[|es| - 1] == Rejoin(i) ==> Fits(PhaseOf(init, i), logged, |Posts(init)|))
  }

  ghost predicate InPhase(x0: SeatState, x: SeatState, es: seq<LaneEvent>, i: nat)
  {
    match PhaseOf(es, i)
    case Fresh => x.cursor == 0 && Due(es, i) == 0
    case Live => 0 <= x.cursor && x.cursor + 1 == |x0.log| + Due(es, i)
    case Replayed => 0 <= x.cursor && x.cursor + 1 < |x0.log| + Due(es, i)
  }

  lemma FitReplay(x0: SeatState, x: SeatState, es: seq<LaneEvent>, i: nat)
    requires Exact(x0, x, es, i) && InPhase(x0, x, es, i) && x.log == x0.log + Posts(es)
    requires Fits(PhaseOf(es, i), |x0.log|, |Posts(es)|)
    ensures Due(es, i) <= |Posts(es)| && Missing(x.log, x.cursor) == Posts(es)[Due(es, i)..]
  {
  }

  lemma FitPhaseRejoin(r: Rules, x0: SeatState, x: SeatState, es: seq<LaneEvent>, i: nat)
    requires r.replayKeepsCursor && es != [] && es[|es| - 1] == Rejoin(i) && SessionsFit(es, i, |x0.log|)
    requires Exact(x0, x, es[..|es| - 1], i) && InPhase(x0, x, es[..|es| - 1], i)
    ensures InPhase(x0, SeatStep(r, x, es[|es| - 1], i), es, i)
  {
    DueBounds(es[..|es| - 1], i);
    DueBounds(es, i);
  }

  lemma FitPhase(r: Rules, x0: SeatState, x: SeatState, es: seq<LaneEvent>, i: nat)
    requires r.replayKeepsCursor && es != [] && SessionsFit(es, i, |x0.log|)
    requires Exact(x0, x, es[..|es| - 1], i) && InPhase(x0, x, es[..|es| - 1], i)
    requires x.on == OnLine(es[..|es| - 1], i, true) && x.log == x0.log + Posts(es[..|es| - 1])
    ensures InPhase(x0, SeatStep(r, x, es[|es| - 1], i), es, i)
  {
    if es[|es| - 1] == Rejoin(i) {
      FitPhaseRejoin(r, x0, x, es, i);
    } else {
      DueBounds(es, i);
    }
  }

  lemma FitExact(r: Rules, x0: SeatState, x: SeatState, es: seq<LaneEvent>, i: nat)
    requires r.replayKeepsCursor && es != [] && SessionsFit(es, i, |x0.log|)
    requires Exact(x0, x, es[..|es| - 1], i) && InPhase(x0, x, es[..|es| - 1], i)
    requires x.on == OnLine(es[..|es| - 1], i, true) && x.log == x0.log + Posts(es[..|es| - 1])
    ensures Exact(x0, SeatStep(r, x, es[|es| - 1], i), es, i)
  {
    if es[|es| - 1] == Rejoin(i) { FitReplay(x0, x, es[..|es| - 1], i); }
    ExactStep(x0, x, SeatStep(r, x, es[|es| - 1], i), es, i);
  }

  lemma {:induction false} FitSessionsExact(r: Rules, x0: SeatState, es: seq<LaneEvent>, i: nat)
    requires r.replayKeepsCursor && x0.on && x0.cursor == 0
    requires SessionsFit(es, i, |x0.log|)
    ensures var x := SeatRun(r, x0, es, i); Exact(x0, x, es, i) && InPhase(x0, x, es, i)
  {
    DueBounds(es, i);
    if es != [] {
      var n := |es| - 1;
      FitSessionsExact(r, x0, es[..n], i);
      SeatOnLine(r, x0, es[..n], i);
      DueBounds(es[..n], i);
      FitPhase(r, x0, SeatRun(r, x0, es[..n], i), es, i);
      FitExact(r, x0, SeatRun(r, x0, es[..n], i), es, i);
    }
  }

  /** Some message was sent out of its place. */
  ghost predicate Strayed(x0: SeatState, x: SeatState)
  {
    exists p, q :: |x0.got| <= p < |x.got| && 0 <= q < |x.log| && x.got[p] == x.log[q] && q - |x0.log| != p - |x0.got|
  }

  /** The first message of a new log was skipped, and nothing has been sent yet. */
  ghost predicate Skipped(x0: SeatState, x: SeatState, es: seq<LaneEvent>, i: nat)
  {
    x.got == x0.got && x.cursor == 0 && x0.log == [] && Due(es, i) > 0
  }

  ghost predicate Broken(x0: SeatState, x: SeatState, es: seq<LaneEvent>, i: nat)
  {
    x0.got <= x.got && (Strayed(x0, x) || Skipped(x0, x, es, i))
  }

  lemma StrayedStays(x0: SeatState, x: SeatState, x': SeatState)
    requires Strayed(x0, x) && x.got <= x'.got && x.log <= x'.log
    ensures Strayed(x0, x')
  {
    var p, q :| |x0.got| <= p < |x.got| && 0 <= q < |x.log| && x.got[p] == x.log[q] && q - |x0.log| != p - |x0.got|;
    assert x'.got[p] == x'.log[q];
  }

  lemma StrayedAt(x0: SeatState, x: SeatState, q: nat)
    requires |x0.got| < |x.got| && q < |x.log| && x.got[|x0.got|] == x.log[q] && q != |x0.log|
    ensures Strayed(x0, x)
  {
    assert x.got[|x0.got|] == x.log[q];
  }

  /** Once the first message has been skipped, whatever is sent next is out of place. */
  lemma SkippedStrays(r: Rules, x0: SeatState, x: SeatState, es: seq<LaneEvent>, e: LaneEvent, i: nat)
    requires Skipped(x0, x, es, i) && x.log == x0.log + Posts(es) && SeatStep(r, x, e, i).got != x.got
    ensures Strayed(x0, SeatStep(r, x, e, i))
  {
    DueBounds(es, i);
    StrayedAt(x0, SeatStep(r, x, e, i), if e.Post? then |x.log| else 1);
  }

  lemma BrokenStays(r: Rules, x0: SeatState, es: seq<LaneEvent>, i: nat)
    requires r.replayKeepsCursor && es != []
    requires Broken(x0, SeatRun(r, x0, es[..|es| - 1], i), es[..|es| - 1], i)
    ensures Broken(x0, SeatRun(r, x0, es, i), es, i)
  {
    var init, x, x' := es[..|es| - 1], SeatRun(r, x0, es[..|es| - 1], i), SeatRun(r, x0, es, i);
    DueBounds(es, i);
    if Strayed(x0, x) {
      StrayedStays(x0, x, x');
    } else if x'.got != x.got {
      SeatOnLine(r, x0, init, i);
      SkippedStrays(r, x0, x, init, es[|es| - 1], i);
    }
  }

  /** A second replay from the same cursor starts again with a message already sent. */
  lemma BrokenByRepeat(x0: SeatState, x: SeatState, x': SeatState, es: seq<LaneEvent>, i: nat)
    requires Exact(x0, x, es, i) && x.log == x0.log + Posts(es)
    requires 0 <= x.cursor && x.cursor + 1 < |x0.log| + Due(es, i)
    requires x'.got == x.got + Missing(x.log, x.cursor) && x'.log == x.log
    ensures x0.got <= x'.got && Strayed(x0, x')
  {
    assert x'.got[|x.got|] == x'.log[x.cursor + 1];
  }

  lemma UnfitBreaks(r: Rules, x0: SeatState, es: seq<LaneEvent>, i: nat)
    requires r.replayKeepsCursor && x0.on && x0.cursor == 0 && es != []
    requires SessionsFit(es[..|es| - 1], i, |x0.log|) && !SessionsFit(es, i, |x0.log|)
    ensures Broken(x0, SeatRun(r, x0, es, i), es, i)
  {
    var init := es[..|es| - 1];
    var x, x' := SeatRun(r, x0, init, i), SeatRun(r, x0, es, i);
    FitSessionsExact(r, x0, init, i);
    SeatOnLine(r, x0, init, i);
    DueBounds(init, i);
    DueBounds(es, i);
    if PhaseOf(init, i) == Replayed {
      BrokenByRepeat(x0, x, x', init, i);
    } else if x.cursor + 1 < |x.log| {
      assert x.got == x0.got;
      StrayedAt(x0, x', 1);
    }
  }

  lemma {:induction false} UnfitSessionsBroken(r: Rules, x0: SeatState, es: seq<LaneEvent>, i: nat)
    requires r.replayKeepsCursor && x0.on && x0.cursor == 0
    requires !SessionsFit(es, i, |x0.log|)
    ensures Broken(x0, SeatRun(r, x0, es, i), es, i)
  {
    if SessionsFit(es[..|es| - 1], i, |x0.log|) {
      UnfitBreaks(r, x0, es, i);
    } else {
      UnfitSessionsBroken(r, x0, es[..|es| - 1], i);
      BrokenStays(r, x0, es, i);
    }
  }

  ghost predicate Distinct(ms: seq<Message>)
  {
    forall a, b :: 0 <= a < b < |ms| ==> ms[a] != ms[b]
  }

  /** In exact delivery the n-th message sent is the n-th logged since the subscribe. */
  lemma ExactIsInPlace(x0: SeatState, x: SeatState, es: seq<LaneEvent>, i: nat)
    requires Exact(x0, x, es, i) && x.log == x0.log + Posts(es) && Distinct(x.log)
    ensures !Strayed(x0, x)
  {
    forall p, q | |x0.got| <= p < |x.got| && 0 <= q < |x.log| && x.got[p] == x.log[q]
      ensures q - |x0.log| == p - |x0.got|
    {
      var k := p - |x0.got|;
      assert x.got[p] == Posts(es)[k] == x.log[|x0.log| + k];
    }
  }

  lemma BrokenIsNotExact(x0: SeatState, x: SeatState, es: seq<LaneEvent>, i: nat)
    requires Broken(x0, x, es, i) && x.log == x0.log + Posts(es) && Distinct(x.log)
    ensures !Exact(x0, x, es, i)
  {
    if Exact(x0, x, es, i) { ExactIsInPlace(x0, x, es, i); }
  }

  /**
   The cursor rules as written, over every run: if every reconnection is one of those that fit, delivery
   is exact; if delivery is exact and the messages are distinct, so that repeated ones cannot be taken
   for each other, every reconnection is one of them.
   */
  lemma WrittenRulesExact(r: Rules, x0: SeatState, es: seq<LaneEvent>, i: nat)
    requires r.replayKeepsCursor && x0.on && x0.cursor == 0
    ensures SessionsFit(es, i, |x0.log|) ==> Exact(x0, SeatRun(r, x0, es, i), es, i)
    ensures Distinct(x0.log + Posts(es)) ==>
              (Exact(x0, SeatRun(r, x0, es, i), es, i) ==> SessionsFit(es, i, |x0.log|))
  {
    SeatOnLine(r, x0, es, i);
    if SessionsFit(es, i, |x0.log|) {
      FitSessionsExact(r, x0, es, i);
    } else if Distinct(x0.log + Posts(es)) {
      UnfitSessionsBroken(r, x0, es, i);
      BrokenIsNotExact(x0, SeatRun(r, x0, es, i), es, i);
    }
  }

  // ---------- sessions with live messages ----------

  /** The current session has seen a live message. */
  predicate SawLive(es: seq<LaneEvent>, i: nat)
  {
    es != [] &&
    var init, e := es[..|es| - 1], es[|es| - 1];
    (e.Post? && OnLine(init, i, true)) || (e != Rejoin(i) && SawLive(init, i))
  }

  /** Every ended session had seen one when it ended. */
  predicate EndedSessionsLive(es: seq<LaneEvent>, i: nat)
  {
    es == [] ||
    (EndedSessionsLive(es[..|es| - 1], i) && (es[|es| - 1] == Leave(i) ==> SawLive(es[..|es| - 1], i)))
  }

  /** If every ended session saw a live message, every reconnection fits. */
  lemma {:induction false} LiveSessionsFit(es: seq<LaneEvent>, i: nat, logged: nat)
    requires Alternating(es, i, true) && EndedSessionsLive(es, i)
    ensures SessionsFit(es, i, logged)
    ensures SawLive(es, i) || !OnLine(es, i, true) ==> PhaseOf(es, i) == Live
  {
    if es != [] { LiveSessionsFit(es[..|es| - 1], i, logged); }
  }
}
