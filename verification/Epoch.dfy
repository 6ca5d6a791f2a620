/**
 The log and the SF count of a topic over whole runs, and what the unsubscribe as written does to
 them; the number of outstanding subscriptions and what publishes do with it.
 */
module Epoch {
  import opened Protocol
  import opened BrokerSpec
  import opened Lane

  function CountSf(subs: seq<Entry>): nat
  {
    if subs == [] then 0
    else CountSf(subs[..|subs| - 1]) + if subs[|subs| - 1].sf then 1 else 0
  }

  lemma {:induction false} CountSfAppend(xs: seq<Entry>, ys: seq<Entry>)
    ensures CountSf(xs + ys) == CountSf(xs) + CountSf(ys)
  {
    if ys == [] {
      assert xs + ys == xs;
    } else {
      assert (xs + ys)[..|xs + ys| - 1] == xs + ys[..|ys| - 1];
      CountSfAppend(xs, ys[..|ys| - 1]);
    }
  }

  lemma {:induction false} CountSfAround(subs: seq<Entry>, k: nat)
    requires k < |subs|
    ensures CountSf(subs) == CountSf(subs[..k]) + CountSf(subs[k + 1..]) + if subs[k].sf then 1 else 0
  {
    assert subs == subs[..k] + ([subs[k]] + subs[k + 1..]);
    CountSfAppend(subs[..k], [subs[k]] + subs[k + 1..]);
    CountSfAppend([subs[k]], subs[k + 1..]);
    assert CountSf([subs[k]]) == if subs[k].sf then 1 else 0 by { assert [subs[k]][..0] == []; }
  }

  /** Only the SF flags matter to the count. */
  lemma {:induction false} CountSfSameFlags(xs: seq<Entry>, ys: seq<Entry>)
    requires |xs| == |ys| && forall k :: 0 <= k < |xs| ==> xs[k].sf == ys[k].sf
    ensures CountSf(xs) == CountSf(ys)
  {
    if xs != [] { CountSfSameFlags(xs[..|xs| - 1], ys[..|ys| - 1]); }
  }

  // ---------- the log epoch ----------

  /** `sf_count` counts the SF entries, and nothing is logged while there are none. */
  ghost predicate EpochInv(topic: Topic)
  {
    topic.sfCount == CountSf(topic.subs) && (topic.sfCount == 0 ==> topic.log == [])
  }

  lemma RemoveCounts(r: Rules, topic: Topic, i: nat, stale: bool)
    requires topic.sfCount == CountSf(topic.subs)
    ensures var k, after := FindEntry(topic.subs, i), RemoveEntry(r, topic, i, stale);
            && (after.sfCount == CountSf(after.subs) <==>
                (k < |topic.subs| ==> FlagRead(r, topic.subs, k, stale) == topic.subs[k].sf))
            && (k < |topic.subs| ==>
                CountSf(after.subs) == CountSf(topic.subs) - if topic.subs[k].sf then 1 else 0)
  {
    var k := FindEntry(topic.subs, i);
    if k < |topic.subs| {
      CountSfAround(topic.subs, k);
      CountSfAppend(topic.subs[..k], topic.subs[k + 1..]);
    }
  }

  lemma PostCounts(topic: Topic, on: seq<bool>, m: Message)
    requires EpochInv(topic)
    ensures EpochInv(PostTopic(topic, on, m))
  {
    CountSfSameFlags(topic.subs, PostTopic(topic, on, m).subs);
  }

  lemma AddCounts(r: Rules, topic: Topic, i: nat, sf: bool)
    requires EpochInv(topic)
    ensures EpochInv(AddEntry(r, topic, i, sf))
  {
    var after := AddEntry(r, topic, i, sf);
    CountSfAppend(topic.subs, after.subs[|topic.subs|..]);
    assert after.subs[|topic.subs|..][..0] == [];
  }

  lemma RepayCounts(r: Rules, topic: Topic, i: nat)
    requires EpochInv(topic)
    ensures EpochInv(Repaid(r, topic, i))
  {
    CountSfSameFlags(topic.subs, Repaid(r, topic, i).subs);
  }

  /** With the flag read before the erase, every event keeps the epoch invariant. */
  lemma {:induction false} StepKeepsEpoch(r: Rules, l: LaneState, e: LaneEvent)
    requires !r.readAfterErase && LaneOk(l) && LaneEnabled(l, e) && EpochInv(l.topic)
    ensures EpochInv(LaneStep(r, l, e).topic)
  {
    match e
    case Rejoin(i) => RepayCounts(r, l.topic, i);
    case Post(m) => PostCounts(l.topic, l.on, m);
    case Enter(i, sf) => AddCounts(r, l.topic, i, sf);
    case Withdraw(i, stale) => RemoveCounts(r, l.topic, i, stale);
    case _ =>
  }

  lemma {:induction false} RunKeepsEpoch(r: Rules, l: LaneState, es: seq<LaneEvent>)
    requires !r.readAfterErase && LaneOk(l) && EpochInv(l.topic)
    ensures EpochInv(LaneRun(r, l, es).topic)
  {
    if es != [] {
      RunKeepsEpoch(r, l, es[..|es| - 1]);
      LaneRunOk(r, l, es[..|es| - 1]);
      var l', e := LaneRun(r, l, es[..|es| - 1]), es[|es| - 1];
      if LaneEnabled(l', e) { StepKeepsEpoch(r, l', e); }
    }
  }

  /** The last moment of the run at which the topic had no SF entry. */
  ghost function EpochStart(r: Rules, es: seq<LaneEvent>): (k: nat)
    ensures k <= |es|
  {
    if es == [] || CountSf(LaneRun(r, NOBODY, es).topic.subs) == 0 then |es|
    else EpochStart(r, es[..|es| - 1])
  }

  lemma {:induction false} EpochStartIsLastZero(r: Rules, es: seq<LaneEvent>, j: nat)
    requires j <= |es|
    ensures j == EpochStart(r, es) ==> CountSf(LaneRun(r, NOBODY, es[..j]).topic.subs) == 0
    ensures j > EpochStart(r, es) ==> CountSf(LaneRun(r, NOBODY, es[..j]).topic.subs) > 0
  {
    if j == |es| {
      assert es[..j] == es;
    } else {
      assert es[..|es| - 1][..j] == es[..j];
      EpochStartIsLastZero(r, es[..|es| - 1], j);
    }
  }

  /** A log that is not cleared by an event grows by what the event publishes. */
  lemma LogGrows(r: Rules, l: LaneState, e: LaneEvent)
    requires !r.readAfterErase && LaneOk(l) && LaneEnabled(l, e) && EpochInv(l.topic)
    requires CountSf(LaneStep(r, l, e).topic.subs) > 0
    ensures LaneStep(r, l, e).topic.log == l.topic.log + if e.Post? then [e.msg] else []
  {
    StepKeepsEpoch(r, l, e);
    if e.Post? { CountSfSameFlags(l.topic.subs, LaneStep(r, l, e).topic.subs); }
  }

  lemma PostsSnoc(es: seq<LaneEvent>, k: nat)
    requires k < |es|
    ensures var n := |es| - 1; Posts(es[k..]) == Posts(es[..n][k..]) + if es[n].Post? then [es[n].msg] else []
  {
    assert es[k..][..|es| - 1 - k] == es[..|es| - 1][k..];
  }

  /**
   The log is exactly what was published since the SF count last rose from zero: clearing it never
   discards a message an SF subscriber still waits for, nor shifts a cursor in use.
   */
  lemma {:induction false} LogIsTheEpoch(r: Rules, es: seq<LaneEvent>)
    requires !r.readAfterErase && LaneLegal(r, NOBODY, es)
    ensures EpochInv(LaneRun(r, NOBODY, es).topic)
    ensures LaneRun(r, NOBODY, es).topic.log == Posts(es[EpochStart(r, es)..])
  {
    RunKeepsEpoch(r, NOBODY, es);
    if es != [] && CountSf(LaneRun(r, NOBODY, es).topic.subs) > 0 {
      var n, k := |es| - 1, EpochStart(r, es);
      LogIsTheEpoch(r, es[..n]);
      LaneRunOk(r, NOBODY, es[..n]);
      LogGrows(r, LaneRun(r, NOBODY, es[..n]), es[n]);
      PostsSnoc(es, k);
    }
  }

  // ---------- reading after the erase ----------

  /**
   As written, an unsubscribe leaves the count right exactly if the entry after the erased one (or
   what lies past the end, for the last one) has the same SF flag.
   */
  lemma UnsubscribeAsWritten(r: Rules, topic: Topic, i: nat, stale: bool)
    requires r.readAfterErase && topic.sfCount == CountSf(topic.subs)
    ensures var k, after := FindEntry(topic.subs, i), RemoveEntry(r, topic, i, stale);
            after.sfCount == CountSf(after.subs) <==>
            (k == |topic.subs| ||
             topic.subs[k].sf == if k + 1 < |topic.subs| then topic.subs[k + 1].sf else stale)
  {
    RemoveCounts(r, topic, i, stale);
  }

  predicate FlagRight(r: Rules, subs: seq<Entry>, e: LaneEvent)
    requires e.Withdraw?
  {
    var k := FindEntry(subs, e.i);
    k < |subs| ==> FlagRead(r, subs, k, e.stale) == subs[k].sf
  }

  /** Every unsubscribe of the trace reads the flag of the entry it erases. */
  ghost predicate FlagsRight(r: Rules, l: LaneState, es: seq<LaneEvent>)
  {
    forall n :: 0 <= n < |es| && es[n].Withdraw? ==> FlagRight(r, LaneRun(r, l, es[..n]).topic.subs, es[n])
  }

  lemma StepWithFlagRight(r: Rules, l: LaneState, e: LaneEvent)
    requires LaneOk(l) && LaneEnabled(l, e)
    requires e.Withdraw? ==> FlagRight(r, l.topic.subs, e)
    ensures LaneStep(r, l, e) == LaneStep(r.(readAfterErase := false), l, e)
  {
  }

  lemma FlagsRightPrefix(r: Rules, l: LaneState, es: seq<LaneEvent>, n: nat)
    requires FlagsRight(r, l, es) && n <= |es|
    ensures FlagsRight(r, l, es[..n])
  {
    assert forall k :: 0 <= k <= n ==> es[..n][..k] == es[..k];
  }

  /** While they all do, the written rule and the repaired one give the same run. */
  lemma {:induction false} RunWithFlagsRight(r: Rules, l: LaneState, es: seq<LaneEvent>)
    requires FlagsRight(r, l, es)
    ensures LaneRun(r, l, es) == LaneRun(r.(readAfterErase := false), l, es)
    ensures LaneLegal(r, l, es) <==> LaneLegal(r.(readAfterErase := false), l, es)
  {
    if es != [] {
      var n := |es| - 1;
      var l' := LaneRun(r, l, es[..n]);
      FlagsRightPrefix(r, l, es, n);
      RunWithFlagsRight(r, l, es[..n]);
      if LaneOk(l') && LaneEnabled(l', es[n]) { StepWithFlagRight(r, l', es[n]); }
    }
  }

  lemma {:induction false} LaneLegalPrefix(r: Rules, l: LaneState, ls: seq<LaneEvent>, k: nat)
    requires LaneLegal(r, l, ls) && k <= |ls|
    ensures LaneLegal(r, l, ls[..k])
  {
    if k == |ls| {
      assert ls[..k] == ls;
    } else {
      LaneLegalPrefix(r, l, ls[..|ls| - 1], k);
      assert ls[..|ls| - 1][..k] == ls[..k];
    }
  }

  /** A trace that reads its flags right starts its epoch where the repaired rule does. */
  lemma {:induction false} EpochStartWithFlagsRight(r: Rules, ls: seq<LaneEvent>)
    requires FlagsRight(r, NOBODY, ls)
    ensures EpochStart(r, ls) == EpochStart(r.(readAfterErase := false), ls)
  {
    RunWithFlagsRight(r, NOBODY, ls);
    if ls != [] {
      FlagsRightPrefix(r, NOBODY, ls, |ls| - 1);
      EpochStartWithFlagsRight(r, ls[..|ls| - 1]);
    }
  }

  // ---------- multiplicity ----------

  /** Subscribes less unsubscribes of client i, floored at zero at each step. */
  function Outstanding(es: seq<LaneEvent>, i: nat): nat
  {
    if es == [] then 0
    else
      var n := Outstanding(es[..|es| - 1], i);
      match es[|es| - 1]
      case Enter(j, _) => if i == j then n + 1 else n
      case Withdraw(j, _) => if i == j && n > 0 then n - 1 else n
      case _ => n
  }

  /** Whether client i is on line. */
  predicate OnLine(es: seq<LaneEvent>, i: nat, start: bool)
  {
    if es == [] then start
    else
      match es[|es| - 1]
      case Rejoin(j) => i == j || OnLine(es[..|es| - 1], i, start)
      case Leave(j) => i != j && OnLine(es[..|es| - 1], i, start)
      case _ => OnLine(es[..|es| - 1], i, start)
  }

  lemma MineAfterStep(r: Rules, l: LaneState, e: LaneEvent, i: nat)
    requires LaneOk(l) && LaneEnabled(l, e)
    ensures |Mine(LaneStep(r, l, e).topic.subs, i)| ==
            var n := |Mine(l.topic.subs, i)|;
            match e
            case Enter(j, _) => if i == j then n + 1 else n
            case Withdraw(j, _) => if i == j && n > 0 then n - 1 else n
            case _ => n
  {
    match e
    case Enter(j, sf) => MineAfterAdd(r, l.topic, j, sf, i);
    case Withdraw(j, stale) => MineAfterRemove(r, l.topic, j, stale, i);
    case Rejoin(j) => MineAfterReplay(r, l.topic, j, i);
    case Post(m) =>
      var top := |PostTopic(l.topic, l.on, m).log| - 1;
      MineAfterPost(l.topic.subs, l.on, top, i);
      assert PostTopic(l.topic, l.on, m).subs == AllReached(l.topic.subs, l.on, top);
    case _ =>
  }

  /** Under any rules, over any run, a client has as many entries as outstanding subscriptions. */
  lemma {:induction false} EntriesOverRun(r: Rules, es: seq<LaneEvent>, i: nat)
    requires LaneLegal(r, NOBODY, es)
    ensures |Mine(LaneRun(r, NOBODY, es).topic.subs, i)| == Outstanding(es, i)
  {
    if es != [] {
      var n := |es| - 1;
      EntriesOverRun(r, es[..n], i);
      LaneRunOk(r, NOBODY, es[..n]);
      MineAfterStep(r, LaneRun(r, NOBODY, es[..n]), es[n], i);
    }
  }

  lemma CopiesOfPost(r: Rules, l: LaneState, i: nat, m: Message)
    requires LaneOk(l)
    ensures i < |l.on| ==> LaneStep(r, l, Post(m)).got[i] == l.got[i] + Repeat(m, Copies(l, i))
  {
  }

  /** A publish sends a client that many copies while it is on line, and none otherwise. */
  lemma {:induction false} FanOutMultiplicity(r: Rules, es: seq<LaneEvent>, i: nat, m: Message)
    requires LaneLegal(r, NOBODY, es)
    ensures LaneOk(LaneRun(r, NOBODY, es))
    ensures var l := LaneRun(r, NOBODY, es);
            i < |l.on| ==>
            LaneStep(r, l, Post(m)).got[i] == l.got[i] + Repeat(m, if l.on[i] then Outstanding(es, i) else 0)
  {
    LaneRunOk(r, NOBODY, es);
    EntriesOverRun(r, es, i);
    CopiesOfPost(r, LaneRun(r, NOBODY, es), i, m);
  }

  // ---------- subscribers without store-and-forward ----------

  /** No event of the trace subscribes or unsubscribes client i. */
  ghost predicate Undisturbed(es: seq<LaneEvent>, i: nat)
  {
    forall n :: 0 <= n < |es| ==>
      !(es[n].Enter? && es[n].i == i) && !(es[n].Withdraw? && es[n].i == i)
  }

  /** What was published while client i was on line. */
  function Heard(es: seq<LaneEvent>, i: nat, start: bool): seq<Message>
  {
    if es == [] then []
    else
      Heard(es[..|es| - 1], i, start) +
      if es[|es| - 1].Post? && OnLine(es[..|es| - 1], i, start) then [es[|es| - 1].msg] else []
  }

  /** The client's only entry has no SF flag. */
  predicate PlainSeat(l: LaneState, i: nat)
  {
    i < |l.on| && LaneOk(l) && |Mine(l.topic.subs, i)| == 1 && !Mine(l.topic.subs, i)[0].sf
  }

  lemma PlainOwed(topic: Topic, i: nat)
    requires |Mine(topic.subs, i)| == 1 && !Mine(topic.subs, i)[0].sf
    ensures Owed(topic, i) == []
  {
    FindEntryIsFirst(topic.subs, i);
  }

  lemma PlainRejoin(r: Rules, l: LaneState, j: nat, i: nat)
    requires PlainSeat(l, i) && LaneEnabled(l, Rejoin(j))
    ensures PlainSeat(LaneStep(r, l, Rejoin(j)), i)
    ensures LaneStep(r, l, Rejoin(j)).got[i] == l.got[i]
  {
    LaneStepOk(r, l, Rejoin(j));
    MineAfterReplay(r, l.topic, j, i);
    PlainOwed(l.topic, i);
  }

  lemma PlainPost(r: Rules, l: LaneState, m: Message, i: nat)
    requires PlainSeat(l, i)
    ensures PlainSeat(LaneStep(r, l, Post(m)), i)
    ensures LaneStep(r, l, Post(m)).got[i] == l.got[i] + if l.on[i] then [m] else []
  {
    var top := |PostTopic(l.topic, l.on, m).log| - 1;
    MineAfterPost(l.topic.subs, l.on, top, i);
    assert PostTopic(l.topic, l.on, m).subs == AllReached(l.topic.subs, l.on, top);
    assert Repeat(m, 1) == [m] && Repeat(m, 0) == [];
  }

  lemma OnLineOne(r: Rules, l: LaneState, e: LaneEvent, i: nat)
    requires LaneOk(l) && LaneEnabled(l, e) && i < |l.on|
    ensures i < |LaneStep(r, l, e).on| && LaneStep(r, l, e).on[i] == OnLine([e], i, l.on[i])
  {
    assert [e][..0] == [];
  }

  /** What others do with their subscriptions does not concern it. */
  lemma PlainOther(r: Rules, l: LaneState, e: LaneEvent, i: nat)
    requires PlainSeat(l, i) && LaneEnabled(l, e) && !e.Rejoin? && !e.Post?
    requires !(e.Enter? && e.i == i) && !(e.Withdraw? && e.i == i)
    ensures PlainSeat(LaneStep(r, l, e), i) && LaneStep(r, l, e).got[i] == l.got[i]
  {
    LaneStepOk(r, l, e);
    if e.Enter? { MineAfterAdd(r, l.topic, e.i, e.sf, i); }
    if e.Withdraw? { MineAfterRemove(r, l.topic, e.i, e.stale, i); }
  }

  lemma PlainStep(r: Rules, l: LaneState, e: LaneEvent, i: nat)
    requires PlainSeat(l, i) && LaneEnabled(l, e)
    requires !(e.Enter? && e.i == i) && !(e.Withdraw? && e.i == i)
    ensures PlainSeat(LaneStep(r, l, e), i)
    ensures LaneStep(r, l, e).on[i] == OnLine([e], i, l.on[i])
    ensures LaneStep(r, l, e).got[i] == l.got[i] + if e.Post? && l.on[i] then [e.msg] else []
  {
    OnLineOne(r, l, e, i);
    match e
    case Rejoin(j) => PlainRejoin(r, l, j, i);
    case Post(m) => PlainPost(r, l, m, i);
    case _ => PlainOther(r, l, e, i);
  }

  /**
   A subscriber without SF, with one outstanding subscription, is sent exactly what is published
   while it is on line, whatever the rules.
   */
  lemma {:induction false} PlainDelivery(r: Rules, l: LaneState, es: seq<LaneEvent>, i: nat)
    requires PlainSeat(l, i) && LaneLegal(r, l, es) && Undisturbed(es, i)
    ensures var l' := LaneRun(r, l, es);
            && PlainSeat(l', i)
            && l'.on[i] == OnLine(es, i, l.on[i])
            && l'.got[i] == l.got[i] + Heard(es, i, l.on[i])
  {
    if es != [] {
      var n := |es| - 1;
      PlainDelivery(r, l, es[..n], i);
      PlainStep(r, LaneRun(r, l, es[..n]), es[n], i);
      assert [es[n]][..0] == [];
    }
  }
}
