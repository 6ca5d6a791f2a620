/**
 What becomes of a client whose end-of-file is handled as written: its record stays connected, nothing
 more reaches it, and it is refused when it comes back.
 */
module Hangups {
  import opened Protocol
  import opened BrokerSpec
  import opened AnyRules
  import opened Projection

  /** Connected, with every session closed. */
  ghost predicate Down(c: ClientRec, conns: seq<Conn>)
  {
    c.connected && forall k :: 0 <= k < |c.sessions| ==> c.sessions[k] < |conns| && !conns[c.sessions[k]].open
  }

  lemma HangupBringsDown(r: Rules, s: State, fd: int)
    requires r.eofLeavesRecord && SoundState(s) && IsOpen(s.conns, fd) && Held(s.clients, fd)
    requires UpAt(s, FindFd(s.clients, fd))
    ensures var i, s' := FindFd(s.clients, fd), Step(r, s, Hangup(fd));
            s'.clients == s.clients && Down(s'.clients[i], s'.conns)
  {
    OpenFd(s.clients, s.conns, fd);
  }

  /** The one request that frees a record that is down: to leave, on a connection that was given its descriptor. */
  predicate Frees(c: ClientRec, e: Event)
  {
    e.Receive? && e.fd == c.fd && e.cmd.Quit?
  }

  lemma CommandSparesDown(r: Rules, s: State, i: nat, cmd: Command, order: seq<Name>, stale: bool, j: nat)
    requires RecordsOk(s.clients) && IsOn(s.clients, i) && IsOn(s.clients, j) && (cmd.Quit? ==> i != j)
    ensures j < |HandleComplete(r, s, i, cmd, order, stale).clients|
    ensures HandleComplete(r, s, i, cmd, order, stale).clients[j] == s.clients[j]
  {
    if cmd.ConnReq? { ConnReqChangesNothing(r, s, i, order); }
  }

  lemma {:induction false} RecordStays(r: Rules, s: State, e: Event, j: nat)
    requires r.eofLeavesRecord && SoundState(s) && Enabled(s, e) && IsOn(s.clients, j) && !Frees(s.clients[j], e)
    ensures j < |Step(r, s, e).clients| && Step(r, s, e).clients[j] == s.clients[j]
  {
    if e.Receive? {
      OpenFd(s.clients, s.conns, e.fd);
      if Held(s.clients, e.fd) {
        CommandSparesDown(r, s, FindFd(s.clients, e.fd), e.cmd, e.order, e.stale, j);
      }
    }
  }

  /** Nothing but that request frees it, and nothing reaches it. */
  lemma {:induction false} DownStays(r: Rules, s: State, e: Event, j: nat)
    requires r.eofLeavesRecord && SoundState(s) && Enabled(s, e)
    requires j < |s.clients| && Down(s.clients[j], s.conns) && !Frees(s.clients[j], e)
    ensures var s' := Step(r, s, e);
            j < |s'.clients| && s'.clients[j] == s.clients[j] && Down(s'.clients[j], s'.conns)
  {
    RecordStays(r, s, e, j);
    NothingAfterClose(r, s, e);
  }

  lemma DownIsSilent(conns: seq<Conn>, cs: seq<Conn>, c: ClientRec, t: Name)
    requires Down(c, conns) && WiresKept(conns, cs)
    ensures DeliveredOn(cs, c.sessions, t) == DeliveredOn(conns, c.sessions, t)
  {
    DeliveredFrame(conns, cs, c.sessions, t);
  }

  /** A CONN_REQ with a connected record's id, on a connection of its own, is refused. */
  lemma ConnectedIsRefused(r: Rules, s: State, fd: int, order: seq<Name>, j: nat, stale: bool)
    requires RecordsOk(s.clients) && IsOn(s.clients, j) && !Held(s.clients, fd)
    ensures Step(r, s, Receive(fd, ConnReq(s.clients[j].id), order, stale)) == Refuse(s, fd)
  {
    assert FindId(s.clients, s.clients[j].id) == j;
  }

  ghost predicate NobodyFrees(c: ClientRec, es: seq<Event>, m: nat)
  {
    forall n :: m <= n < |es| ==> !Frees(c, es[n])
  }

  /** Record i hangs up in the k-th event, and no request to leave comes in on its descriptor afterwards. */
  ghost predicate HangsUp(r: Rules, es: seq<Event>, k: nat, i: nat)
  {
    && k < |es| && es[k].Hangup? && i < |Run(r, es[..k]).clients|
    && FindFd(Run(r, es[..k]).clients, es[k].fd) == i
    && NobodyFrees(Run(r, es[..k]).clients[i], es, k + 1)
  }

  lemma {:induction false} StartsDown(r: Rules, es: seq<Event>, k: nat, i: nat)
    requires r.eofLeavesRecord && Legal(r, es) && HangsUp(r, es, k, i) && StaysUp(r, es[..k], i)
    ensures var s, s' := Run(r, es[..k]), Run(r, es[..k + 1]);
            s'.clients == s.clients && Down(s'.clients[i], s'.conns) && WiresKept(s.conns, s'.conns)
            && |s'.conns| == |s.conns| && forall a :: 0 <= a < |s.conns| ==> s'.conns[a].wire == s.conns[a].wire
  {
    LegalPrefix(r, es, k);
    RunAt(r, es, k);
    RunSound(r, es[..k]);
    RunUp(r, es[..k], i);
    HangupBringsDown(r, Run(r, es[..k]), es[k].fd);
  }

  /** Record i is down in s, as it was in s0, and has been sent nothing since. */
  ghost predicate DownSince(s0: State, s: State, i: nat, t: Name)
  {
    && i < |s0.clients| && i < |s.clients| && s.clients[i] == s0.clients[i] && Down(s.clients[i], s.conns)
    && Delivered(s, i, t) == Delivered(s0, i, t)
  }

  lemma {:induction false} DownOneMore(r: Rules, s0: State, s: State, e: Event, i: nat, t: Name)
    requires r.eofLeavesRecord && SoundState(s) && Enabled(s, e) && DownSince(s0, s, i, t) && !Frees(s.clients[i], e)
    ensures DownSince(s0, Step(r, s, e), i, t)
  {
    DownStays(r, s, e, i);
    NothingAfterClose(r, s, e);
    DownIsSilent(s.conns, Step(r, s, e).conns, s.clients[i], t);
  }

  lemma {:induction false} DownSinceHangup(r: Rules, es: seq<Event>, k: nat, i: nat, t: Name)
    requires r.eofLeavesRecord && Legal(r, es) && HangsUp(r, es, k, i) && StaysUp(r, es[..k], i)
    ensures DownSince(Run(r, es[..k]), Run(r, es[..k + 1]), i, t)
  {
    var s, s' := Run(r, es[..k]), Run(r, es[..k + 1]);
    StartsDown(r, es, k, i);
    DeliveredFrame(s.conns, s'.conns, s.clients[i].sessions, t);
  }

  lemma {:induction false} StaysDown(r: Rules, s0: State, es: seq<Event>, m: nat, i: nat, t: Name)
    requires r.eofLeavesRecord && Legal(r, es) && m <= |es| && DownSince(s0, Run(r, es[..m]), i, t)
    requires NobodyFrees(s0.clients[i], es, m)
    ensures DownSince(s0, Run(r, es), i, t)
  {
    if m == |es| {
      assert es[..m] == es;
    } else {
      var n := |es| - 1;
      assert es[..n][..m] == es[..m];
      StaysDown(r, s0, es[..n], m, i, t);
      RunSound(r, es[..n]);
      DownOneMore(r, s0, Run(r, es[..n]), es[n], i, t);
    }
  }

  /**
   Once record i hangs up as written, its record stays as it is, with every session closed, and it is sent
   nothing more on any topic, until a request to leave comes in on its old descriptor.
   */
  lemma {:induction false} HungUpForGood(r: Rules, es: seq<Event>, k: nat, n: nat, i: nat, t: Name)
    requires r.eofLeavesRecord && Legal(r, es) && HangsUp(r, es, k, i) && StaysUp(r, es[..k], i)
    requires k < n <= |es|
    ensures DownSince(Run(r, es[..k]), Run(r, es[..n]), i, t)
  {
    DownSinceHangup(r, es, k, i, t);
    LegalPrefix(r, es, n);
    assert es[..n][..k + 1] == es[..k + 1];
    StaysDown(r, Run(r, es[..k]), es[..n], k + 1, i, t);
  }

  /** And every request to connect under its id, on a connection that got a descriptor of its own, is refused. */
  lemma {:induction false} ReturnIsRefused(r: Rules, es: seq<Event>, k: nat, n: nat, i: nat)
    requires r.eofLeavesRecord && Legal(r, es) && HangsUp(r, es, k, i) && StaysUp(r, es[..k], i)
    requires k < n < |es| && es[n].Receive? && es[n].cmd == ConnReq(Run(r, es[..k]).clients[i].id)
    requires !Held(Run(r, es[..n]).clients, es[n].fd)
    ensures Run(r, es[..n + 1]) == Refuse(Run(r, es[..n]), es[n].fd)
  {
    HungUpForGood(r, es, k, n, i, []);
    LegalPrefix(r, es, n);
    RunAt(r, es, n);
    RunSound(r, es[..n]);
    ConnectedIsRefused(r, Run(r, es[..n]), es[n].fd, es[n].order, i, es[n].stale);
  }

  /** On a connection that got its old descriptor, such a request is swallowed: nothing is replayed. */
  lemma {:induction false} ReturnIsSwallowed(r: Rules, es: seq<Event>, k: nat, n: nat, i: nat)
    requires r.eofLeavesRecord && Legal(r, es) && HangsUp(r, es, k, i) && StaysUp(r, es[..k], i)
    requires k < n < |es| && es[n].Receive? && es[n].cmd.ConnReq?
    requires es[n].fd == Run(r, es[..k]).clients[i].fd
    ensures Run(r, es[..n + 1]) == Run(r, es[..n])
  {
    HungUpForGood(r, es, k, n, i, []);
    LegalPrefix(r, es, n);
    RunAt(r, es, n);
    RunSound(r, es[..n]);
    HeldBy(Run(r, es[..n]).clients, i);
    ConnReqChangesNothing(r, Run(r, es[..n]), i, es[n].order);
  }
}
