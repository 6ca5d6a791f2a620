/**
 The broker seen from one topic: who is on line, the topic itself, and what each client has been
 sent on it.
 */
module Lane {
  import opened Protocol
  import opened BrokerSpec

  datatype LaneState = Lane(on: seq<bool>, topic: Topic, got: seq<seq<Message>>)

  const NOBODY := LaneState.Lane([], NO_TOPIC, [])

  datatype LaneEvent =
    | Join
    | Rejoin(i: nat)
    | Leave(i: nat)
    | Enter(i: nat, sf: bool)
    | Withdraw(i: nat, stale: bool)
    | Post(msg: Message)
    | Idle

  /** The entries of one client, in the order in which it subscribed. */
  function Mine(subs: seq<Entry>, i: nat): (mine: seq<Entry>)
    ensures |mine| <= |subs|
  {
    if subs == [] then []
    else
      var e := subs[|subs| - 1];
      Mine(subs[..|subs| - 1], i) + if e.client == i then [e] else []
  }

  function Repeat(m: Message, n: nat): (ms: seq<Message>)
    ensures |ms| == n && forall k :: 0 <= k < n ==> ms[k] == m
  {
    seq(n, _ => m)
  }

  /** What a replay to client i sends on this topic. */
  function Owed(topic: Topic, i: nat): seq<Message>
  {
    var k := FindEntry(topic.subs, i);
    if k < |topic.subs| && topic.subs[k].sf then Missing(topic.log, topic.subs[k].cursor) else []
  }

  function Repaid(r: Rules, topic: Topic, i: nat): Topic
  {
    var k := FindEntry(topic.subs, i);
    if k < |topic.subs| && topic.subs[k].sf then CaughtUp(r, topic, k) else topic
  }

  /** How many copies of a publish client i gets: one for each outstanding entry while it is on line. */
  function Copies(l: LaneState, i: nat): nat
    requires i < |l.on|
  {
    if l.on[i] then |Mine(l.topic.subs, i)| else 0
  }

  predicate LaneOk(l: LaneState)
  {
    |l.got| == |l.on| && forall k :: 0 <= k < |l.topic.subs| ==> l.topic.subs[k].client < |l.on|
  }

  predicate LaneEnabled(l: LaneState, e: LaneEvent)
  {
    match e
    case Rejoin(i) => i < |l.on| && !l.on[i]
    case Leave(i) => i < |l.on| && l.on[i]
    case Enter(i, _) => i < |l.on| && l.on[i]
    case Withdraw(i, _) => i < |l.on| && l.on[i]
    case _ => true
  }

  function LaneStep(r: Rules, l: LaneState, e: LaneEvent): LaneState
    requires LaneOk(l) && LaneEnabled(l, e)
  {
    match e
    case Join => Lane(l.on + [true], l.topic, l.got + [[]])
    case Rejoin(i) => Lane(l.on[i := true], Repaid(r, l.topic, i), l.got[i := l.got[i] + Owed(l.topic, i)])
    case Leave(i) => l.(on := l.on[i := false])
    case Enter(i, sf) => l.(topic := AddEntry(r, l.topic, i, sf))
    case Withdraw(i, stale) => l.(topic := RemoveEntry(r, l.topic, i, stale))
    case Post(m) =>
      l.(topic := PostTopic(l.topic, l.on, m),
         got := seq(|l.got|, i requires 0 <= i < |l.got| => l.got[i] + Repeat(m, Copies(l, i))))
    case Idle => l
  }

  lemma LaneStepOk(r: Rules, l: LaneState, e: LaneEvent)
    requires LaneOk(l) && LaneEnabled(l, e)
    ensures LaneOk(LaneStep(r, l, e)) && |l.on| <= |LaneStep(r, l, e).on|
  {
  }

  ghost function LaneRun(r: Rules, l: LaneState, es: seq<LaneEvent>): LaneState
  {
    if es == [] then l
    else
      var l' := LaneRun(r, l, es[..|es| - 1]);
      if LaneOk(l') && LaneEnabled(l', es[|es| - 1]) then LaneStep(r, l', es[|es| - 1]) else l'
  }

  ghost predicate LaneLegal(r: Rules, l: LaneState, es: seq<LaneEvent>)
  {
    es == [] ||
    (LaneLegal(r, l, es[..|es| - 1]) && LaneEnabled(LaneRun(r, l, es[..|es| - 1]), es[|es| - 1]))
  }

  lemma {:induction false} LaneRunOk(r: Rules, l: LaneState, es: seq<LaneEvent>)
    requires LaneOk(l)
    ensures LaneOk(LaneRun(r, l, es)) && |l.on| <= |LaneRun(r, l, es).on|
  {
    if es != [] {
      LaneRunOk(r, l, es[..|es| - 1]);
      var l', e := LaneRun(r, l, es[..|es| - 1]), es[|es| - 1];
      if LaneEnabled(l', e) { LaneStepOk(r, l', e); }
    }
  }

  lemma {:induction false} LaneRunSplit(r: Rules, l: LaneState, ls: seq<LaneEvent>, k: nat)
    requires LaneLegal(r, l, ls) && k <= |ls|
    ensures LaneLegal(r, LaneRun(r, l, ls[..k]), ls[k..])
    ensures LaneRun(r, l, ls) == LaneRun(r, LaneRun(r, l, ls[..k]), ls[k..])
  {
    if k == |ls| {
      assert ls[..k] == ls;
    } else {
      var init, tail := ls[..|ls| - 1], ls[k..];
      LaneRunSplit(r, l, init, k);
      assert init[..k] == ls[..k] && init[k..] == tail[..|tail| - 1] && tail[|tail| - 1] == ls[|ls| - 1];
      assert LaneRun(r, LaneRun(r, l, ls[..k]), tail[..|tail| - 1]) == LaneRun(r, l, init);
    }
  }

  /** The messages published on the topic. */
  function Posts(es: seq<LaneEvent>): seq<Message>
  {
    if es == [] then []
    else Posts(es[..|es| - 1]) + if es[|es| - 1].Post? then [es[|es| - 1].msg] else []
  }

  // ---------- how entries move ----------

  lemma {:induction false} MineAppend(xs: seq<Entry>, ys: seq<Entry>, i: nat)
    ensures Mine(xs + ys, i) == Mine(xs, i) + Mine(ys, i)
  {
    if ys == [] {
      assert xs + ys == xs;
    } else {
      assert (xs + ys)[..|xs + ys| - 1] == xs + ys[..|ys| - 1];
      MineAppend(xs, ys[..|ys| - 1], i);
    }
  }

  lemma MineOne(e: Entry, i: nat)
    ensures Mine([e], i) == if e.client == i then [e] else []
  {
    assert [e][..0] == [];
  }

  /** Splits a vector of entries around position k. */
  lemma MineAround(subs: seq<Entry>, k: nat, i: nat)
    requires k < |subs|
    ensures Mine(subs, i) == Mine(subs[..k], i) + Mine([subs[k]], i) + Mine(subs[k + 1..], i)
  {
    assert subs == subs[..k] + ([subs[k]] + subs[k + 1..]);
    MineAppend(subs[..k], [subs[k]] + subs[k + 1..], i);
    MineAppend([subs[k]], subs[k + 1..], i);
  }

  lemma {:induction false} NoneBefore(subs: seq<Entry>, i: nat, k: nat)
    requires k <= |subs| && forall j :: 0 <= j < k ==> subs[j].client != i
    ensures Mine(subs[..k], i) == []
  {
    if k > 0 {
      assert subs[..k][..k - 1] == subs[..k - 1];
      NoneBefore(subs, i, k - 1);
    }
  }

  /** The search by pointer finds the client's first entry, and finds none exactly when it has none. */
  lemma {:induction false} FindEntryIsFirst(subs: seq<Entry>, i: nat)
    ensures Mine(subs[..FindEntry(subs, i)], i) == []
    ensures FindEntry(subs, i) == |subs| <==> Mine(subs, i) == []
    ensures Mine(subs, i) != [] ==> Mine(subs, i)[0] == subs[FindEntry(subs, i)]
  {
    var k := FindEntry(subs, i);
    NoneBefore(subs, i, k);
    if k < |subs| {
      MineAround(subs, k, i);
      MineOne(subs[k], i);
    } else {
      assert subs[..k] == subs;
    }
  }

  /** An unsubscribe drops the client's oldest entry and no one else's. */
  lemma MineAfterRemove(r: Rules, topic: Topic, i: nat, stale: bool, j: nat)
    ensures Mine(RemoveEntry(r, topic, i, stale).subs, j) ==
            if i == j && Mine(topic.subs, i) != [] then Mine(topic.subs, i)[1..] else Mine(topic.subs, j)
  {
    var subs, k := topic.subs, FindEntry(topic.subs, i);
    FindEntryIsFirst(subs, i);
    if k < |subs| {
      MineAround(subs, k, j);
      MineOne(subs[k], j);
      MineAppend(subs[..k], subs[k + 1..], j);
    }
  }

  lemma MineAfterAdd(r: Rules, topic: Topic, i: nat, sf: bool, j: nat)
    ensures Mine(AddEntry(r, topic, i, sf).subs, j) == Mine(topic.subs, j) +
            if i == j then [Entry(i, sf, if r.cursorFromZero then 0 else |topic.log| - 1)] else []
  {
    var e := Entry(i, sf, if r.cursorFromZero then 0 else |topic.log| - 1);
    MineAppend(topic.subs, [e], j);
    MineOne(e, j);
  }

  lemma MineAfterReplay(r: Rules, topic: Topic, i: nat, j: nat)
    ensures Mine(Repaid(r, topic, i).subs, j) ==
            var mine := Mine(topic.subs, j);
            if i == j && mine != [] && mine[0].sf && !r.replayKeepsCursor
            then [mine[0].(cursor := |topic.log| - 1)] + mine[1..] else mine
  {
    var subs, k := topic.subs, FindEntry(topic.subs, i);
    FindEntryIsFirst(subs, i);
    if k < |subs| && subs[k].sf && !r.replayKeepsCursor {
      var e := subs[k].(cursor := |topic.log| - 1);
      MineAround(subs, k, j);
      MineOne(subs[k], j);
      assert subs[k := e][..k] == subs[..k] && subs[k := e][k + 1..] == subs[k + 1..];
      MineAround(subs[k := e], k, j);
      MineOne(e, j);
    }
  }

  /** The effect of a publish on a client's entries. */
  function AllReached(mine: seq<Entry>, on: seq<bool>, top: int): seq<Entry>
  {
    seq(|mine|, k requires 0 <= k < |mine| => Reached(mine[k], on, top))
  }

  lemma {:induction false} MineAfterPost(subs: seq<Entry>, on: seq<bool>, top: int, i: nat)
    ensures Mine(AllReached(subs, on, top), i) == AllReached(Mine(subs, i), on, top)
  {
    if subs != [] {
      var n := |subs| - 1;
      MineAfterPost(subs[..n], on, top, i);
      assert AllReached(subs, on, top)[..n] == AllReached(subs[..n], on, top);
    }
  }

  lemma {:induction false} MineClients(subs: seq<Entry>, i: nat)
    ensures forall k :: 0 <= k < |Mine(subs, i)| ==> Mine(subs, i)[k].client == i
  {
    if subs != [] { MineClients(subs[..|subs| - 1], i); }
  }
}
