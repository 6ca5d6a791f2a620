/**
 The connection table with end-of-file handled as a disconnection: every record is up and owns its
 sessions, so that lookups by descriptor invert it; and exactly when the table is in order as written.
 */
module Table {
  import opened Protocol
  import opened BrokerSpec
  import opened AnyRules

  // ---------- the invariant ----------

  /** Connection a is the one that carries the record's traffic. */
  ghost predicate Current(c: ClientRec, a: nat)
  {
    c.connected && c.sessions != [] && c.sessions[|c.sessions| - 1] == a
  }

  ghost predicate SessionsOk(c: ClientRec, i: nat, conns: seq<Conn>)
  {
    && (forall k :: 0 <= k < |c.sessions| ==> c.sessions[k] < |conns| && conns[c.sessions[k]].owner == i)
    && (forall k, l :: 0 <= k < l < |c.sessions| ==> c.sessions[k] != c.sessions[l])
  }

  ghost predicate ClientOk(c: ClientRec, i: nat, conns: seq<Conn>)
  {
    && SessionsOk(c, i, conns)
    && (if c.connected then
          && c.sessions != []
          && var conn := conns[c.sessions[|c.sessions| - 1]];
          conn.open && conn.fd == c.fd
        else c.fd == -1)
  }

  ghost predicate ConnOk(c: Conn, a: nat, clients: seq<ClientRec>)
  {
    && -1 <= c.owner < |clients|
    && (c.open ==> c.fd >= 0 && AllNew(c.wire))
    && (c.open && c.owner >= 0 ==> Current(clients[c.owner], a))
    && (c.owner == -1 ==> c.wire == [] || (!c.open && c.wire == [ConnNo]))
    && (c.owner >= 0 ==> AllNew(c.wire))
  }

  ghost predicate NetInv(clients: seq<ClientRec>, conns: seq<Conn>)
  {
    && IdsDistinct(clients)
    && FdsDistinct(conns)
    && (forall i :: 0 <= i < |clients| ==> ClientOk(clients[i], i, conns))
    && (forall a :: 0 <= a < |conns| ==> ConnOk(conns[a], a, clients))
  }

  ghost predicate TableInv(s: State)
  {
    NetInv(s.clients, s.conns) && TopicsInv(s.topics, |s.clients|)
  }

  // ---------- what the invariant says about lookups ----------

  /**
   On open sockets `find_client_by_fd` inverts the table: it finds exactly the owner of the
   connection, and nobody when the connection has none.
   */
  lemma FindFdInvertsTable(clients: seq<ClientRec>, conns: seq<Conn>, a: nat)
    requires NetInv(clients, conns)
    requires a < |conns| && conns[a].open
    ensures FindOpen(conns, conns[a].fd) == a
    ensures FindFd(clients, conns[a].fd) == if conns[a].owner >= 0 then conns[a].owner else |clients|
  {
    var i := FindFd(clients, conns[a].fd);
    if i < |clients| {
      assert ClientOk(clients[i], i, conns);
      assert conns[a].fd >= 0 by { assert ConnOk(conns[a], a, clients); }
    }
    if conns[a].owner >= 0 {
      assert ConnOk(conns[a], a, clients);
      assert ClientOk(clients[conns[a].owner], conns[a].owner, conns);
    }
  }

  /** Connected records have pairwise distinct, open descriptors. */
  lemma ConnectedFdsDistinct(clients: seq<ClientRec>, conns: seq<Conn>, i: nat, j: nat)
    requires NetInv(clients, conns)
    requires i < |clients| && j < |clients| && clients[i].connected && clients[j].connected
    ensures IsOpen(conns, clients[i].fd)
    ensures clients[i].fd == clients[j].fd ==> i == j
  {
    assert ClientOk(clients[i], i, conns) && ClientOk(clients[j], j, conns);
  }

  // ---------- every event keeps it ----------

  lemma SendKeeps(clients: seq<ClientRec>, conns: seq<Conn>, i: nat, ps: seq<Packet>)
    requires NetInv(clients, conns) && IsOn(clients, i) && AllNew(ps)
    ensures NetInv(clients, Send(conns, clients[i].fd, ps))
  {
    var cs := Send(conns, clients[i].fd, ps);
    assert ClientOk(clients[i], i, conns);
    forall a | 0 <= a < |cs| ensures ConnOk(cs[a], a, clients) {
      assert ConnOk(conns[a], a, clients);
    }
    forall j | 0 <= j < |clients| ensures ClientOk(clients[j], j, cs) {
      assert ClientOk(clients[j], j, conns);
    }
  }

  lemma {:induction false} FanOutKeeps(clients: seq<ClientRec>, conns: seq<Conn>, subs: seq<Entry>, m: Message)
    requires NetInv(clients, conns)
    ensures NetInv(clients, FanOut(conns, clients, subs, m))
  {
    if subs != [] {
      var i := subs[|subs| - 1].client;
      FanOutKeeps(clients, conns, subs[..|subs| - 1], m);
      if IsOn(clients, i) {
        SendKeeps(clients, FanOut(conns, clients, subs[..|subs| - 1], m), i, [MsgNew(m)]);
      }
    }
  }

  lemma {:induction false} ReplayKeeps(r: Rules, s: State, i: nat, order: seq<Name>)
    requires NetInv(s.clients, s.conns) && IsOn(s.clients, i)
    ensures NetInv(s.clients, Replay(r, s, i, order).conns)
  {
    if order != [] {
      var s', t := Replay(r, s, i, order[..|order| - 1]), order[|order| - 1];
      ReplayKeeps(r, s, i, order[..|order| - 1]);
      var k := FindEntryById(s'.clients, TopicAt(s', t).subs, s'.clients[i].id);
      if k < |TopicAt(s', t).subs| {
        SendKeeps(s.clients, s'.conns, i, News(Missing(TopicAt(s', t).log, TopicAt(s', t).subs[k].cursor)));
      }
    }
  }

  lemma AcceptKeeps(clients: seq<ClientRec>, conns: seq<Conn>, fd: int)
    requires NetInv(clients, conns) && fd >= 0 && !IsOpen(conns, fd)
    ensures NetInv(clients, conns + [Conn(fd, true, -1, [])])
  {
    var cs := conns + [Conn(fd, true, -1, [])];
    forall a | 0 <= a < |cs| ensures ConnOk(cs[a], a, clients) {
      if a < |conns| { assert ConnOk(conns[a], a, clients); }
    }
    forall j | 0 <= j < |clients| ensures ClientOk(clients[j], j, cs) {
      assert ClientOk(clients[j], j, conns);
    }
  }

  lemma AttachedOk(c: ClientRec, i: nat, conns: seq<Conn>, a: nat)
    requires ClientOk(c, i, conns) && !c.connected
    requires a < |conns| && conns[a].open && conns[a].owner == -1
    ensures ClientOk(ClientRec(c.id, conns[a].fd, true, c.sessions + [a]), i, conns[a := conns[a].(owner := i)])
  {
    assert forall k :: 0 <= k < |c.sessions| ==> c.sessions[k] != a;
  }

  lemma AttachKeepsOthers(c: ClientRec, j: nat, conns: seq<Conn>, a: nat, i: nat)
    requires ClientOk(c, j, conns)
    requires a < |conns| && conns[a].owner == -1
    ensures ClientOk(c, j, conns[a := conns[a].(owner := i)])
  {
    assert forall k :: 0 <= k < |c.sessions| ==> c.sessions[k] != a;
  }

  lemma AttachKeeps(s: State, i: nat, a: nat)
    requires NetInv(s.clients, s.conns)
    requires i < |s.clients| && !s.clients[i].connected
    requires a < |s.conns| && s.conns[a].open && s.conns[a].owner == -1
    ensures FindOpen(s.conns, s.conns[a].fd) == a
    ensures NetInv(Attach(s, i, s.conns[a].fd).clients, Attach(s, i, s.conns[a].fd).conns)
  {
    FindFdInvertsTable(s.clients, s.conns, a);
    var s' := Attach(s, i, s.conns[a].fd);
    forall j | 0 <= j < |s'.clients| ensures ClientOk(s'.clients[j], j, s'.conns) {
      assert ClientOk(s.clients[j], j, s.conns);
      if j == i { AttachedOk(s.clients[i], i, s.conns, a); } else { AttachKeepsOthers(s.clients[j], j, s.conns, a, i); }
    }
    assert IdsDistinct(s'.clients) && FdsDistinct(s'.conns);
    forall b | 0 <= b < |s'.conns| ensures ConnOk(s'.conns[b], b, s'.clients) {
      assert ConnOk(s.conns[b], b, s.clients);
    }
  }

  lemma DetachKeeps(s: State, i: nat)
    requires NetInv(s.clients, s.conns) && IsOn(s.clients, i)
    ensures NetInv(Detach(s, i).clients, Detach(s, i).conns)
  {
    var s' := Detach(s, i);
    assert ClientOk(s.clients[i], i, s.conns);
    forall b | 0 <= b < |s'.conns| ensures ConnOk(s'.conns[b], b, s'.clients) {
      assert ConnOk(s.conns[b], b, s.clients);
    }
    forall j | 0 <= j < |s'.clients| ensures ClientOk(s'.clients[j], j, s'.conns) {
      assert ClientOk(s.clients[j], j, s.conns);
    }
  }

  /** Closing a connection nobody owns, after writing nothing or a refusal to it. */
  lemma CloseUnownedKeeps(clients: seq<ClientRec>, conns: seq<Conn>, a: nat, ps: seq<Packet>)
    requires NetInv(clients, conns)
    requires a < |conns| && conns[a].open && conns[a].owner == -1
    requires ps == [] || ps == [ConnNo]
    ensures NetInv(clients, Close(Send(conns, conns[a].fd, ps), conns[a].fd))
  {
    var cs := Close(Send(conns, conns[a].fd, ps), conns[a].fd);
    assert ConnOk(conns[a], a, clients);
    assert conns[a].wire + ps == ps;
    forall b | 0 <= b < |cs| ensures ConnOk(cs[b], b, clients) {
      assert ConnOk(conns[b], b, clients);
    }
    forall j | 0 <= j < |clients| ensures ClientOk(clients[j], j, cs) {
      assert ClientOk(clients[j], j, conns);
    }
  }

  lemma RegisterKeepsNet(clients: seq<ClientRec>, conns: seq<Conn>, id: Name)
    requires NetInv(clients, conns) && FindId(clients, id) == |clients|
    ensures NetInv(clients + [ClientRec(id, -1, false, [])], conns)
  {
    var cs := clients + [ClientRec(id, -1, false, [])];
    forall b | 0 <= b < |conns| ensures ConnOk(conns[b], b, cs) {
      assert ConnOk(conns[b], b, clients);
    }
    forall j | 0 <= j < |cs| ensures ClientOk(cs[j], j, conns) {
      if j < |clients| { assert ClientOk(clients[j], j, conns); }
    }
  }

  lemma NewConnectionKeeps(r: Rules, s: State, a: nat, cmd: Command, order: seq<Name>)
    requires NetInv(s.clients, s.conns)
    requires a < |s.conns| && s.conns[a].open && s.conns[a].owner == -1
    ensures var s' := HandleNewConnection(r, s, s.conns[a].fd, cmd, order); NetInv(s'.clients, s'.conns)
  {
    if cmd.ConnReq? {
      var i := FindId(s.clients, cmd.id);
      if i == |s.clients| {
        RegisterKeepsNet(s.clients, s.conns, cmd.id);
        AttachKeeps(s.(clients := s.clients + [ClientRec(cmd.id, -1, false, [])]), i, a);
      } else if s.clients[i].connected {
        CloseUnownedKeeps(s.clients, s.conns, a, [ConnNo]);
      } else {
        AttachKeeps(s, i, a);
        ReplayKeeps(r, Attach(s, i, s.conns[a].fd), i, order);
      }
    }
  }

  lemma {:induction false} CommandKeeps(r: Rules, s: State, i: nat, cmd: Command, order: seq<Name>, stale: bool)
    requires NetInv(s.clients, s.conns) && IsOn(s.clients, i)
    ensures var s' := HandleComplete(r, s, i, cmd, order, stale); NetInv(s'.clients, s'.conns)
  {
    match cmd
    case ConnReq(_) => ConnReqChangesNothing(r, s, i, order);
    case Quit => DetachKeeps(s, i);
    case _ =>
  }

  lemma {:induction false} HangupKeeps(r: Rules, s: State, a: nat)
    requires !r.eofLeavesRecord && NetInv(s.clients, s.conns) && a < |s.conns| && s.conns[a].open
    ensures var s' := HandleHangup(r, s, s.conns[a].fd); NetInv(s'.clients, s'.conns)
  {
    FindFdInvertsTable(s.clients, s.conns, a);
    assert ConnOk(s.conns[a], a, s.clients);
    if s.conns[a].owner >= 0 {
      DetachKeeps(s, s.conns[a].owner);
    } else {
      CloseUnownedKeeps(s.clients, s.conns, a, []);
      assert Send(s.conns, s.conns[a].fd, []) == s.conns;
    }
  }

  /** With end-of-file handled as a disconnection, every event but `exit` keeps the table. */
  lemma {:induction false} StepKeepsTable(r: Rules, s: State, e: Event)
    requires !r.eofLeavesRecord && TableInv(s) && Enabled(s, e) && !e.Exit?
    ensures TableInv(Step(r, s, e))
  {
    StepKeepsTopics(r, s, e);
    match e
    case Accept(fd) => AcceptKeeps(s.clients, s.conns, fd);
    case Receive(fd, cmd, order, stale) =>
      var a := FindOpen(s.conns, fd);
      FindFdInvertsTable(s.clients, s.conns, a);
      assert ConnOk(s.conns[a], a, s.clients);
      if s.conns[a].owner >= 0 {
        CommandKeeps(r, s, s.conns[a].owner, cmd, order, stale);
      } else {
        NewConnectionKeeps(r, s, a, cmd, order);
      }
    case Hangup(fd) => HangupKeeps(r, s, FindOpen(s.conns, fd));
    case Datagram(m) => FanOutKeeps(s.clients, s.conns, TopicAt(s, KeyOf(m)).subs, m);
    case Exit =>
  }

  /** In every reachable state before `exit` the table is in order. */
  lemma {:induction false} RunKeepsTable(r: Rules, es: seq<Event>)
    requires !r.eofLeavesRecord && Legal(r, es) && Run(r, es).running
    ensures TableInv(Run(r, es))
  {
    if es != [] {
      RunKeepsTable(r, es[..|es| - 1]);
      StepKeepsTable(r, Run(r, es[..|es| - 1]), es[|es| - 1]);
    }
  }

  // ---------- the end ----------

  function Ended(c: Conn, n: nat): Conn
  {
    if c.open && 0 <= c.owner < n then c.(wire := c.wire + [ConnEnd], open := false) else c
  }

  /** `cleanup` ends every connection that has an owner, once, and touches no other. */
  lemma {:induction false} EndAllEndsOwned(clients: seq<ClientRec>, conns: seq<Conn>, n: nat)
    requires NetInv(clients, conns) && n <= |clients|
    ensures var cs := EndAll(conns, clients[..n]);
            |cs| == |conns| && forall a :: 0 <= a < |cs| ==> cs[a] == Ended(conns[a], n)
  {
    if n > 0 {
      assert clients[..n][..n - 1] == clients[..n - 1];
      EndAllEndsOwned(clients, conns, n - 1);
      var before, cs, c := EndAll(conns, clients[..n - 1]), EndAll(conns, clients[..n]), clients[n - 1];
      assert ClientOk(c, n - 1, conns);
      forall a | 0 <= a < |cs|
        ensures cs[a] == Ended(conns[a], n)
      {
        assert ConnOk(conns[a], a, clients);
      }
    }
  }

  /** So does `exit`, over every run with end-of-file as intended. */
  lemma {:induction false} ExitEndsOwned(r: Rules, es: seq<Event>, a: nat)
    requires !r.eofLeavesRecord && Legal(r, es + [Exit]) && a < |Run(r, es).conns|
    ensures |Run(r, es + [Exit]).conns| == |Run(r, es).conns|
    ensures var c := Run(r, es).conns[a];
            Run(r, es + [Exit]).conns[a] ==
            if c.open && c.owner >= 0 then c.(wire := c.wire + [ConnEnd], open := false) else c
  {
    var s := Run(r, es);
    RunMore(r, es, Exit);
    RunKeepsTable(r, es);
    EndAllEndsOwned(s.clients, s.conns, |s.clients|);
    assert s.clients[..|s.clients|] == s.clients;
    assert ConnOk(s.conns[a], a, s.clients);
  }

  // ---------- end-of-file as written ----------

  /** Every end-of-file of the run is on a socket that no record holds. */
  ghost predicate HangupsUnregistered(r: Rules, es: seq<Event>)
  {
    forall k :: 0 <= k < |es| && es[k].Hangup? ==>
      FindFd(Run(r, es[..k]).clients, es[k].fd) == |Run(r, es[..k]).clients|
  }

  /** Handled as written, an end-of-file on a registered socket always leaves a connected record without a socket. */
  lemma EofAsWrittenBreaksTable(r: Rules, s: State, fd: int)
    requires r.eofLeavesRecord && TableInv(s) && Enabled(s, Hangup(fd))
    requires FindFd(s.clients, fd) < |s.clients|
    ensures !TableInv(Step(r, s, Hangup(fd)))
  {
    var i, s' := FindFd(s.clients, fd), Step(r, s, Hangup(fd));
    FindFdInvertsTable(s.clients, s.conns, FindOpen(s.conns, fd));
    assert ClientOk(s.clients[i], i, s.conns);
    assert !ClientOk(s'.clients[i], i, s'.conns);
  }

  lemma {:induction false} ReplayIgnoresHangupRule(r: Rules, s: State, i: nat, order: seq<Name>)
    requires i < |s.clients|
    ensures Replay(r, s, i, order) == Replay(r.(eofLeavesRecord := false), s, i, order)
  {
    if order != [] { ReplayIgnoresHangupRule(r, s, i, order[..|order| - 1]); }
  }

  lemma HangupRulesAgreeOnCommand(r: Rules, s: State, i: nat, cmd: Command, order: seq<Name>, stale: bool)
    requires i < |s.clients|
    ensures HandleComplete(r, s, i, cmd, order, stale)
         == HandleComplete(r.(eofLeavesRecord := false), s, i, cmd, order, stale)
  {
    if cmd.ConnReq? {
      var j := FindTwin(s.clients, s.clients[i]);
      if j < |s.clients| { ReplayIgnoresHangupRule(r, Attach(s, j, s.clients[i].fd), j, order); }
    }
  }

  lemma HangupRulesAgreeOnRequest(r: Rules, s: State, fd: int, cmd: Command, order: seq<Name>)
    ensures HandleNewConnection(r, s, fd, cmd, order)
         == HandleNewConnection(r.(eofLeavesRecord := false), s, fd, cmd, order)
  {
    if cmd.ConnReq? {
      var j := FindId(s.clients, cmd.id);
      if j < |s.clients| { ReplayIgnoresHangupRule(r, Attach(s, j, fd), j, order); }
    }
  }

  lemma HangupRulesAgree(r: Rules, s: State, e: Event)
    requires e.Hangup? ==> FindFd(s.clients, e.fd) == |s.clients|
    ensures Step(r, s, e) == Step(r.(eofLeavesRecord := false), s, e)
  {
    if e.Receive? {
      var i := FindFd(s.clients, e.fd);
      if i < |s.clients| {
        HangupRulesAgreeOnCommand(r, s, i, e.cmd, e.order, e.stale);
      } else {
        HangupRulesAgreeOnRequest(r, s, e.fd, e.cmd, e.order);
      }
    }
  }

  /** While no registered client hangs up, the written rule and the repaired one give the same run. */
  lemma {:induction false} RunWithoutHangups(r: Rules, es: seq<Event>)
    requires HangupsUnregistered(r, es)
    ensures Run(r, es) == Run(r.(eofLeavesRecord := false), es)
    ensures Legal(r, es) <==> Legal(r.(eofLeavesRecord := false), es)
  {
    if es != [] {
      var init := es[..|es| - 1];
      assert forall k :: 0 <= k <= |init| ==> init[..k] == es[..k];
      assert HangupsUnregistered(r, init);
      RunWithoutHangups(r, init);
      HangupRulesAgree(r, Run(r, init), es[|es| - 1]);
    }
  }

  lemma {:induction false} TableWithoutHangups(r: Rules, es: seq<Event>, k: nat)
    requires HangupsUnregistered(r, es) && Legal(r, es) && Run(r, es).running && k <= |es|
    ensures TableInv(Run(r, es[..k]))
  {
    LegalPrefix(r, es, k);
    assert forall j :: 0 <= j <= k ==> es[..k][..j] == es[..j];
    RunWithoutHangups(r, es[..k]);
    RunKeepsTable(r.(eofLeavesRecord := false), es[..k]);
  }

  lemma {:induction false} TableAfterHangup(r: Rules, es: seq<Event>, k: nat)
    requires r.eofLeavesRecord && Legal(r, es)
    requires k < |es| && es[k].Hangup? && FindFd(Run(r, es[..k]).clients, es[k].fd) != |Run(r, es[..k]).clients|
    ensures !TableInv(Run(r, es[..k])) || !TableInv(Run(r, es[..k + 1]))
  {
    RunAt(r, es, k);
    if TableInv(Run(r, es[..k])) { EofAsWrittenBreaksTable(r, Run(r, es[..k]), es[k].fd); }
  }

  /** With end-of-file as written, the table is in order all along a run exactly if no registered client hangs up. */
  lemma {:induction false} TableAsWritten(r: Rules, es: seq<Event>)
    requires r.eofLeavesRecord && Legal(r, es) && Run(r, es).running
    ensures (forall k :: 0 <= k <= |es| ==> TableInv(Run(r, es[..k]))) <==> HangupsUnregistered(r, es)
  {
    if HangupsUnregistered(r, es) {
      forall k | 0 <= k <= |es| ensures TableInv(Run(r, es[..k])) { TableWithoutHangups(r, es, k); }
    } else {
      var k :| 0 <= k < |es| && es[k].Hangup? && FindFd(Run(r, es[..k]).clients, es[k].fd) != |Run(r, es[..k]).clients|;
      TableAfterHangup(r, es, k);
    }
  }
}
