/**
 The SF count and the log of a topic over runs of the whole broker, under any rules: exactly when an
 unsubscribe that reads a flag after the erase leaves them wrong.
 */
module Counts {
  import opened Protocol
  import opened BrokerSpec
  import opened Lane
  import opened Projection
  import opened Epoch

  /** If the event is an unsubscribe from topic t, it reads the SF flag of the entry it erases. */
  predicate UnsubscribeRight(r: Rules, s: State, e: Event, t: Name)
  {
    EventOn(r, s, e, t).Withdraw? ==> FlagRight(r, TopicAt(s, t).subs, EventOn(r, s, e, t))
  }

  /** Every unsubscribe of the run from topic t reads the SF flag of the entry it erases. */
  ghost predicate UnsubscribesRight(r: Rules, es: seq<Event>, t: Name)
  {
    forall n :: 0 <= n < |es| ==> UnsubscribeRight(r, Run(r, es[..n]), es[n], t)
  }

  lemma RightPrefix(r: Rules, es: seq<Event>, k: nat, t: Name)
    requires UnsubscribesRight(r, es, t) && k <= |es|
    ensures UnsubscribesRight(r, es[..k], t)
    ensures k < |es| ==> UnsubscribeRight(r, Run(r, es[..k]), es[k], t)
  {
    assert forall n :: 0 <= n <= k ==> es[..k][..n] == es[..n];
  }

  /** The topics differ at most in cursors. */
  ghost predicate SameButCursors(x: Topic, y: Topic)
  {
    && x.log == y.log && x.sfCount == y.sfCount && |x.subs| == |y.subs|
    && forall k :: 0 <= k < |x.subs| ==> x.subs[k].sf == y.subs[k].sf
  }

  lemma SameCounts(x: Topic, y: Topic)
    requires SameButCursors(x, y)
    ensures EpochInv(x) <==> EpochInv(y)
  {
    CountSfSameFlags(x.subs, y.subs);
  }

  lemma {:induction false} ReplayMovesCursors(r: Rules, s: State, i: nat, order: seq<Name>, t: Name)
    requires i < |s.clients|
    ensures SameButCursors(TopicAt(s, t), TopicAt(Replay(r, s, i, order), t))
  {
    if order != [] { ReplayMovesCursors(r, s, i, order[..|order| - 1], t); }
  }

  lemma CommandCounts(r: Rules, s: State, i: nat, cmd: Command, order: seq<Name>, stale: bool, t: Name)
    requires i < |s.clients| && EpochInv(TopicAt(s, t))
    ensures EpochInv(TopicAt(HandleComplete(r, s, i, cmd, order, stale), t)) <==>
            (cmd == Unsubscribe(t) ==> FlagRight(r, TopicAt(s, t).subs, Withdraw(i, stale)))
  {
    match cmd
    case ConnReq(_) =>
      var j := FindTwin(s.clients, s.clients[i]);
      if j < |s.clients| {
        var s1 := Attach(s, j, s.clients[i].fd);
        ReplayMovesCursors(r, s1, j, order, t);
        SameCounts(TopicAt(s1, t), TopicAt(Replay(r, s1, j, order), t));
      }
    case Subscribe(u, sf) => if u == t { AddCounts(r, TopicAt(s, t), i, sf); }
    case Unsubscribe(u) => if u == t { RemoveCounts(r, TopicAt(s, t), i, stale); }
    case Quit =>
    case Other =>
  }

  lemma RequestCounts(r: Rules, s: State, fd: int, cmd: Command, order: seq<Name>, t: Name)
    requires EpochInv(TopicAt(s, t))
    ensures EpochInv(TopicAt(HandleNewConnection(r, s, fd, cmd, order), t))
  {
    if cmd.ConnReq? {
      var i := FindId(s.clients, cmd.id);
      if i < |s.clients| {
        var s1 := Attach(s, i, fd);
        ReplayMovesCursors(r, s1, i, order, t);
        SameCounts(TopicAt(s1, t), TopicAt(Replay(r, s1, i, order), t));
      }
    }
  }

  /** An event leaves the count and the log of a topic right exactly if it reads no wrong flag. */
  lemma StepCounts(r: Rules, s: State, e: Event, t: Name)
    requires EpochInv(TopicAt(s, t))
    ensures EpochInv(TopicAt(Step(r, s, e), t)) <==> UnsubscribeRight(r, s, e, t)
  {
    match e
    case Receive(fd, cmd, order, stale) =>
      var i := FindFd(s.clients, fd);
      if i < |s.clients| {
        CommandCounts(r, s, i, cmd, order, stale, t);
      } else {
        RequestCounts(r, s, fd, cmd, order, t);
      }
    case Datagram(m) => if KeyOf(m) == t { PostCounts(TopicAt(s, t), Flags(s.clients), m); }
    case _ =>
  }

  lemma {:induction false} RightCounts(r: Rules, es: seq<Event>, k: nat, t: Name)
    requires UnsubscribesRight(r, es, t) && k <= |es|
    ensures EpochInv(TopicAt(Run(r, es[..k]), t))
  {
    if k > 0 {
      RightCounts(r, es, k - 1, t);
      assert es[..k][..k - 1] == es[..k - 1];
      assert UnsubscribeRight(r, Run(r, es[..k - 1]), es[k - 1], t);
      StepCounts(r, Run(r, es[..k - 1]), es[k - 1], t);
    }
  }

  /**
   Under any rules, the code as written included: a topic's SF count is the number of its SF entries,
   and its log is empty while that is zero, all along a run exactly if every unsubscribe from that topic
   reads the flag of the entry it erases.
   */
  lemma {:induction false} CountsOverRuns(r: Rules, es: seq<Event>, t: Name)
    ensures (forall k :: 0 <= k <= |es| ==> EpochInv(TopicAt(Run(r, es[..k]), t))) <==> UnsubscribesRight(r, es, t)
  {
    if UnsubscribesRight(r, es, t) {
      forall k | 0 <= k <= |es| ensures EpochInv(TopicAt(Run(r, es[..k]), t)) { RightCounts(r, es, k, t); }
    } else {
      var n :| 0 <= n < |es| && !UnsubscribeRight(r, Run(r, es[..n]), es[n], t);
      assert es[..n + 1][..n] == es[..n];
      if EpochInv(TopicAt(Run(r, es[..n]), t)) {
        StepCounts(r, Run(r, es[..n]), es[n], t);
      }
    }
  }
}
