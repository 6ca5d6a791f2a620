/**
 The whole service: from the inputs of the server's main loop, through the bytes on its sockets, to what
 the processes of a subscriber show.
 */
module Service {
  import opened Bytes
  import opened Protocol
  import opened BrokerSpec
  import opened AnyRules
  import opened Seat
  import opened Delivery
  import opened Receiver
  import opened EndToEnd
  import opened Inputs
  import opened Server

  lemma {:induction false} TakenPrefix(r: Rules, inputs: seq<Input>, orders: seq<seq<Name>>, p: nat)
    requires |orders| == |inputs| && p <= |inputs|
    ensures Taken(r, inputs[..p], orders[..p]) <= Taken(r, inputs, orders)
  {
    if p == |inputs| {
      assert inputs[..p] == inputs && orders[..p] == orders;
    } else {
      var n := |inputs| - 1;
      TakenPrefix(r, inputs[..n], orders[..n], p);
      assert inputs[..n][..p] == inputs[..p] && orders[..n][..p] == orders[..p];
    }
  }

  lemma PublishedLast(es: seq<Event>, t: Name)
    requires es != []
    ensures Published(es, t) == Published(es[..|es| - 1], t) + Published([es[|es| - 1]], t)
  {
    assert [es[|es| - 1]][..0] == [];
  }

  lemma {:induction false} PublishedSplit(es: seq<Event>, k: nat, t: Name)
    requires k <= |es|
    ensures Published(es, t) == Published(es[..k], t) + Published(es[k..], t)
  {
    if k == |es| {
      assert es[..k] == es;
    } else {
      var n := |es| - 1;
      PublishedSplit(es[..n], k, t);
      assert es[..n][..k] == es[..k] && es[k..][..n - k] == es[..n][k..] && es[k..][n - k] == es[n];
      PublishedLast(es, t);
      PublishedLast(es[k..], t);
      Associative(Published(es[..k], t), Published(es[..n][k..], t), Published([es[n]], t));
    }
  }

  lemma {:induction false} PublishedAt(front: seq<Event>, es: seq<Event>, k: nat, t: Name)
    requires front <= es && k == |front|
    ensures Published(es, t) == Published(front, t) + Published(es[k..], t)
  {
    PublishedSplit(es, k, t);
    assert es[..k] == front;
  }

  lemma AfterFront<T>(a: seq<T>, b: seq<T>, c: seq<T>)
    requires a == b + c
    ensures |b| <= |a| && a[|b|..] == c
  {
  }

  /** The datagrams on topic t after the first p inputs, up to the exit command. */
  function UdpAfter(inputs: seq<Input>, p: nat, t: Name): seq<Message>
    requires p <= |inputs|
  {
    if |UdpOn(inputs[..p], t)| <= |UdpOn(inputs, t)| then UdpOn(inputs, t)[|UdpOn(inputs[..p], t)|..] else []
  }

  /** They are what the run publishes after the events of those inputs. */
  lemma {:induction false} PublishedAfter(r: Rules, inputs: seq<Input>, orders: seq<seq<Name>>, p: nat, k: nat, t: Name)
    requires |orders| == |inputs| && p <= |inputs| && k == |Taken(r, inputs[..p], orders[..p])|
    ensures k <= |Taken(r, inputs, orders)| && Published(Taken(r, inputs, orders)[k..], t) == UdpAfter(inputs, p, t)
    ensures UdpOn(inputs, t) == UdpOn(inputs[..p], t) + UdpAfter(inputs, p, t)
  {
    TakenPrefix(r, inputs, orders, p);
    PublishedAt(Taken(r, inputs[..p], orders[..p]), Taken(r, inputs, orders), k, t);
    PublishedIsUdp(r, inputs, orders, t);
    PublishedIsUdp(r, inputs[..p], orders[..p], t);
    AfterFront(UdpOn(inputs, t), UdpOn(inputs[..p], t), Published(Taken(r, inputs, orders)[k..], t));
  }

  /** The chunks fed to the process behind each session drain the bytes on its socket. */
  ghost predicate SocketsDrained(sockets: seq<Socket>, sessions: seq<nat>, feeds: seq<seq<seq<byte>>>)
  {
    && |feeds| == |sessions|
    && forall n :: 0 <= n < |feeds| ==>
         sessions[n] < |sockets| && RxLegal(feeds[n]) && Concat(feeds[n]) == sockets[sessions[n]].sent
  }

  lemma DrainedThen(sockets: seq<Socket>, s: State, sessions: seq<nat>, feeds: seq<seq<seq<byte>>>)
    requires SocketsMatch(sockets, s.conns) && SocketsDrained(sockets, sessions, feeds)
    ensures Drained(s, sessions, feeds)
  {
  }

  /**
   What the main loop leaves behind: the run of its inputs is legal, and the bytes on every socket are
   those of the run.
   */
  ghost predicate Served(r: Rules, inputs: seq<Input>, orders: seq<seq<Name>>, sockets: seq<Socket>)
  {
    |orders| == |inputs| && Legal(r, Taken(r, inputs, orders)) &&
    SocketsMatch(sockets, Run(r, Taken(r, inputs, orders)).conns)
  }

  /**
   Of a server with the intended rules: if the last of the first p inputs is client i's subscribe to topic
   t with SF, and it keeps that subscription, then what the client's processes have shown on t, once they
   have read what is on their sockets, is what it had been sent before, followed by the datagrams on t
   after those p inputs: by all of them while it is connected, else by those up to where it left.
   */
  lemma {:induction false} ServiceExactlyOnce(inputs: seq<Input>, orders: seq<seq<Name>>, sockets: seq<Socket>,
                                              p: nat, k: nat, i: nat, t: Name, feeds: seq<seq<seq<byte>>>)
    requires Served(REPAIRED, inputs, orders, sockets) && p <= |inputs|
    requires k + 1 == |Taken(REPAIRED, inputs[..p], orders[..p])|
    requires Subscribes(REPAIRED, Taken(REPAIRED, inputs, orders), k, i, true, t)
    requires KeepsSubscription(REPAIRED, Taken(REPAIRED, inputs, orders), k, i, t)
    requires i < |Run(REPAIRED, Taken(REPAIRED, inputs, orders)).clients|
    requires SocketsDrained(sockets, Run(REPAIRED, Taken(REPAIRED, inputs, orders)).clients[i].sessions, feeds)
    ensures var es := Taken(REPAIRED, inputs, orders);
            && i < |Run(REPAIRED, es[..k + 1]).clients|
            && var before := Delivered(Run(REPAIRED, es[..k + 1]), i, t);
               var due := Due(Since(REPAIRED, es, k, t), i);
               && due <= |UdpAfter(inputs, p, t)|
               && ShownOver(feeds, t) == before + UdpAfter(inputs, p, t)[..due]
               && (Run(REPAIRED, es).clients[i].connected ==> ShownOver(feeds, t) == before + UdpAfter(inputs, p, t))
  {
    var es := Taken(REPAIRED, inputs, orders);
    PublishedAfter(REPAIRED, inputs, orders, p, k + 1, t);
    DrainedThen(sockets, Run(REPAIRED, es), Run(REPAIRED, es).clients[i].sessions, feeds);
    ShownExactlyOnce(es, k, i, t, feeds);
  }

  /**
   Of a server exactly as written: the same, of a client that has not hung up, if every reconnection since
   the subscribe is one that fits, as long as the topic's SF count is not zero.
   */
  lemma {:induction false} ServiceByCode(inputs: seq<Input>, orders: seq<seq<Name>>, sockets: seq<Socket>,
                                         p: nat, k: nat, i: nat, t: Name, feeds: seq<seq<seq<byte>>>)
    requires Served(AS_WRITTEN, inputs, orders, sockets) && p <= |inputs|
    requires k + 1 == |Taken(AS_WRITTEN, inputs[..p], orders[..p])|
    requires var es := Taken(AS_WRITTEN, inputs, orders);
             && StaysUp(AS_WRITTEN, es, i) && CountHolds(AS_WRITTEN, es, k, t)
             && Subscribes(AS_WRITTEN, es, k, i, true, t) && KeepsSubscription(AS_WRITTEN, es, k, i, t)
             && SessionsFit(Since(AS_WRITTEN, es, k, t), i, LoggedAt(AS_WRITTEN, es, k, t))
    requires i < |Run(AS_WRITTEN, Taken(AS_WRITTEN, inputs, orders)).clients|
    requires SocketsDrained(sockets, Run(AS_WRITTEN, Taken(AS_WRITTEN, inputs, orders)).clients[i].sessions, feeds)
    ensures var es := Taken(AS_WRITTEN, inputs, orders);
            && i < |Run(AS_WRITTEN, es[..k + 1]).clients|
            && var due := Due(Since(AS_WRITTEN, es, k, t), i);
               && due <= |UdpAfter(inputs, p, t)|
               && ShownOver(feeds, t) == Delivered(Run(AS_WRITTEN, es[..k + 1]), i, t) + UdpAfter(inputs, p, t)[..due]
  {
    var es := Taken(AS_WRITTEN, inputs, orders);
    PublishedAfter(AS_WRITTEN, inputs, orders, p, k + 1, t);
    DrainedThen(sockets, Run(AS_WRITTEN, es), Run(AS_WRITTEN, es).clients[i].sessions, feeds);
    ShownByCode(es, k, i, t, feeds);
  }
}
