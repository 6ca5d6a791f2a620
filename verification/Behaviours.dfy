/**
 The effects of the events by themselves make the runs: the state machine of the handlers and the relation
 of `Effects` have the same behaviours, under any rules.
 */
module Behaviours {
  import opened Protocol
  import opened BrokerSpec
  import opened AnyRules
  import opened ReplayOrder
  import opened Effects

  /** A succession of states, from the empty server on, in which each event can happen and has its effect. */
  ghost predicate Behaviour(r: Rules, es: seq<Event>, ss: seq<State>)
  {
    && |ss| == |es| + 1 && ss[0] == State.State([], map[], [], true)
    && forall k :: 0 <= k < |es| ==> Enabled(ss[k], es[k]) && Effect(r, ss[k], es[k], ss[k + 1])
  }

  function States(r: Rules, es: seq<Event>): (ss: seq<State>)
    ensures |ss| == |es| + 1
  {
    if es == [] then [INIT] else States(r, es[..|es| - 1]) + [Run(r, es)]
  }

  lemma BehaviourMore(r: Rules, es: seq<Event>, ss: seq<State>, s': State)
    requires es != [] && Behaviour(r, es[..|es| - 1], ss)
    requires Enabled(ss[|es| - 1], es[|es| - 1]) && Effect(r, ss[|es| - 1], es[|es| - 1], s')
    ensures Behaviour(r, es, ss + [s'])
  {
  }

  /** Every run is a behaviour. */
  lemma {:induction false} RunsBehave(r: Rules, es: seq<Event>)
    requires Legal(r, es)
    ensures Behaviour(r, es, States(r, es)) && States(r, es)[|es|] == Run(r, es)
  {
    if es != [] {
      var n := |es| - 1;
      RunsBehave(r, es[..n]);
      RunSound(r, es[..n]);
      StepDoes(r, Run(r, es[..n]), es[n]);
      BehaviourMore(r, es, States(r, es[..n]), Run(r, es));
    }
  }

  lemma SameStateTwice(s: State, u: State, w: State)
    requires SameState(s, u) && SameState(u, w)
    ensures SameState(s, w)
  {
    forall a | 0 <= a < |s.conns| ensures SameConn(s.conns[a], w.conns[a]) {
      assert SameConn(s.conns[a], u.conns[a]) && SameConn(u.conns[a], w.conns[a]);
    }
  }

  lemma EnabledSame(s: State, u: State, e: Event)
    requires SameState(s, u) && Enabled(s, e)
    ensures Enabled(u, e)
  {
    match e
    case Accept(fd) => FindOpenSame(s.conns, u.conns, fd);
    case Receive(fd, _, _, _) => FindOpenSame(s.conns, u.conns, fd);
    case Hangup(fd) => FindOpenSame(s.conns, u.conns, fd);
    case _ =>
  }

  lemma {:induction false} NoControls(wire: seq<Packet>)
    ensures Controls(wire) == [] <==> AllNew(wire)
  {
    if wire != [] { NoControls(wire[..|wire| - 1]); }
  }

  /** The connection of a client that came back has only been sent messages. */
  lemma {:induction false} CaughtSound(s: State, x: State, y: State, a: nat)
    requires SameState(x, y) && SoundState(y) && a < |x.conns| && x.conns[a].open && y.conns[a].open
    requires Held(y.clients, y.conns[a].fd)
    ensures WireOk(x.conns[a], x.clients)
  {
    assert SameConn(x.conns[a], y.conns[a]) && WireOk(y.conns[a], y.clients);
    NoControls(x.conns[a].wire);
    NoControls(y.conns[a].wire);
  }

  lemma {:induction false} ReconnectSound(r: Rules, s: State, fd: int, j: nat, order: seq<Name>, x: State)
    requires Returns(s, j, fd, order) && ReconnectEffect(r, s, fd, j, x)
    requires SoundState(Replay(r, Attach(s, j, fd), j, order))
    ensures SoundState(x)
  {
    var y := Replay(r, Attach(s, j, fd), j, order);
    ReturnDoes(r, s, j, fd, order);
    ReconnectIsOne(r, s, fd, j, x, y);
    assert y.clients[j].fd == fd;
    forall a | 0 <= a < |x.conns| ensures WireOk(x.conns[a], x.clients) {
      assert SameConn(x.conns[a], y.conns[a]);
      if OpenOn(s.conns, a, fd) {
        CaughtSound(s, x, y, a);
      } else {
        assert x.conns[a] == y.conns[a] && WireOk(y.conns[a], y.clients);
      }
    }
    assert forall a :: 0 <= a < |x.conns| ==> x.conns[a].open == y.conns[a].open && x.conns[a].fd == y.conns[a].fd;
  }

  lemma {:induction false} ReceiveEffectSound(r: Rules, s: State, e: Event, x: State)
    requires SoundState(s) && Enabled(s, e) && e.Receive? && Effect(r, s, e, x)
    requires SoundState(Step(r, s, e))
    ensures SoundState(x)
  {
    OpenFd(s.clients, s.conns, e.fd);
    HolderIsOne(s.clients, e.fd);
    NamedIsOne(s.clients, if e.cmd.ConnReq? then e.cmd.id else []);
    var i := FindFd(s.clients, e.fd);
    if Held(s.clients, e.fd) {
      assert Holds(s.clients, i, e.fd);
      CommandOnlyDoes(r, s, i, e.cmd, e.order, e.stale, x);
    } else if e.cmd.ConnReq? {
      var j := FindId(s.clients, e.cmd.id);
      if j == |s.clients| {
        RegisterOnlyDoes(s, e.fd, e.cmd.id, x);
      } else if s.clients[j].connected {
        assert Named(s.clients, j, e.cmd.id);
        RefuseOnlyDoes(s, e.fd, x);
      } else {
        assert Named(s.clients, j, e.cmd.id);
        ReconnectSound(r, s, e.fd, j, e.order, x);
      }
    }
  }

  lemma {:induction false} EffectSound(r: Rules, s: State, e: Event, x: State)
    requires SoundState(s) && Enabled(s, e) && !e.Exit? && Effect(r, s, e, x)
    ensures SoundState(x)
  {
    StepSound(r, s, e);
    match e
    case Accept(_) => assert x.conns == x.conns[..|s.conns|] + [x.conns[|s.conns|]];
    case Receive(_, _, _, _) => ReceiveEffectSound(r, s, e, x);
    case Hangup(fd) =>
      OpenFd(s.clients, s.conns, fd);
      HangupOnlyDoes(r, s, fd, x);
    case Datagram(m) => PublishOnlyDoes(s, m, x);
    case Exit =>
  }

  /** One more event takes states that agree to states that agree. */
  lemma {:induction false} OneMore(r: Rules, s: State, u: State, e: Event, x: State)
    requires SameState(s, u) && SoundState(s) && SoundState(u)
    requires Enabled(s, e) && Effect(r, s, e, x)
    ensures Enabled(u, e) && SameState(x, Step(r, u, e))
    ensures x.running ==> SoundState(x)
  {
    EnabledSame(s, u, e);
    StepOnlyDoes(r, s, e, x);
    StepSame(r, s, u, e, e);
    SameStateTwice(x, Step(r, s, e), Step(r, u, e));
    if !e.Exit? { EffectSound(r, s, e, x); }
  }

  lemma BehaviourPrefix(r: Rules, es: seq<Event>, ss: seq<State>)
    requires Behaviour(r, es, ss) && es != []
    ensures Behaviour(r, es[..|es| - 1], ss[..|es|])
    ensures var n := |es| - 1; ss[n].running && Enabled(ss[n], es[n]) && Effect(r, ss[n], es[n], ss[|es|])
  {
  }

  /**
   And every behaviour is a run: whatever states succeed each other from the empty server on, each the
   effect of an event that can happen in the one before, those events make a legal run, and it ends in
   the last of them, up to the order in which replays interleave the topics.
   */
  lemma {:induction false} BehavioursRun(r: Rules, es: seq<Event>, ss: seq<State>)
    requires Behaviour(r, es, ss)
    ensures Legal(r, es) && SameState(ss[|es|], Run(r, es))
    ensures ss[|es|].running ==> SoundState(ss[|es|])
  {
    if es != [] {
      var n := |es| - 1;
      BehaviourPrefix(r, es, ss);
      BehavioursRun(r, es[..n], ss[..n + 1]);
      RunSound(r, es[..n]);
      OneMore(r, ss[n], Run(r, es[..n]), es[n], ss[n + 1]);
    }
  }
}
