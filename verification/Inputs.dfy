/**
 What wakes the main loop up, as bytes and descriptors; the events it stands for; and what a run of
 those events owes to the inputs: their datagrams are the publishes, their requests the clients'
 commands.
 */
module Inputs {
  import opened Bytes
  import opened Protocol
  import opened BrokerSpec
  import opened AnyRules
  import opened Commands
  import opened Layout

  datatype Input =
    | NewConnection(fd: int)
    | Request(fd: int, raw: RawRequest, stale: bool)
    | Eof(fd: int)
    | Udp(msg: Message)
    | ExitCommand

  /** What the kernel can hand to the main loop in a state. A CONN_REQ has no payload. */
  predicate CanArrive(s: State, input: Input)
  {
    match input
    case NewConnection(fd) => fd >= 0 && !IsOpen(s.conns, fd)
    case Request(fd, raw, _) =>
      IsOpen(s.conns, fd) && Complete(raw) && (FlagsField(raw.header) == CONN_REQ ==> raw.payload == [])
    case Eof(fd) => IsOpen(s.conns, fd)
    case Udp(_) => true
    case ExitCommand => true
  }

  /** The event an input stands for; of a request that replays, `order` is the visiting order. */
  function EventOf(input: Input, order: seq<Name>): Event
    requires input.Request? ==> Complete(input.raw)
  {
    match input
    case NewConnection(fd) => Accept(fd)
    case Request(fd, raw, stale) => Receive(fd, Decode(raw.header, raw.payload), order, stale)
    case Eof(fd) => Hangup(fd)
    case Udp(m) => Datagram(m)
    case ExitCommand => Exit
  }

  /** An input adds its event, if the server still runs and the kernel can hand it over; else it is passed over. */
  function TakenNext(r: Rules, es: seq<Event>, input: Input, order: seq<Name>): seq<Event>
  {
    var s := Run(r, es);
    if s.running && CanArrive(s, input) then es + [EventOf(input, order)] else es
  }

  /** The events of a list of inputs, in turn. */
  function Taken(r: Rules, inputs: seq<Input>, orders: seq<seq<Name>>): seq<Event>
    requires |orders| == |inputs|
  {
    if inputs == [] then []
    else
      var n := |inputs| - 1;
      TakenNext(r, Taken(r, inputs[..n], orders[..n]), inputs[n], orders[n])
  }

  lemma TakenMore(r: Rules, inputs: seq<Input>, orders: seq<seq<Name>>, input: Input, order: seq<Name>)
    requires |orders| == |inputs|
    ensures Taken(r, inputs + [input], orders + [order]) == TakenNext(r, Taken(r, inputs, orders), input, order)
  {
    assert (inputs + [input])[..|inputs|] == inputs && (orders + [order])[..|orders|] == orders;
  }

  // ---------- nothing that the kernel hands over is passed over ----------

  /** A connection on a descriptor that is not open is accepted. */
  lemma ConnectionIsTaken(r: Rules, inputs: seq<Input>, orders: seq<seq<Name>>, fd: int, order: seq<Name>)
    requires |orders| == |inputs| && Run(r, Taken(r, inputs, orders)).running
    requires fd >= 0 && !IsOpen(Run(r, Taken(r, inputs, orders)).conns, fd)
    ensures Taken(r, inputs + [NewConnection(fd)], orders + [order]) == Taken(r, inputs, orders) + [Accept(fd)]
  {
    TakenMore(r, inputs, orders, NewConnection(fd), order);
  }

  /** An end-of-file on an open socket is handled. */
  lemma EofIsTaken(r: Rules, inputs: seq<Input>, orders: seq<seq<Name>>, fd: int, order: seq<Name>)
    requires |orders| == |inputs| && Run(r, Taken(r, inputs, orders)).running
    requires IsOpen(Run(r, Taken(r, inputs, orders)).conns, fd)
    ensures Taken(r, inputs + [Eof(fd)], orders + [order]) == Taken(r, inputs, orders) + [Hangup(fd)]
  {
    TakenMore(r, inputs, orders, Eof(fd), order);
  }

  /** So are a datagram and the exit command, whatever is open. */
  lemma DatagramIsTaken(r: Rules, inputs: seq<Input>, orders: seq<seq<Name>>, m: Message, order: seq<Name>)
    requires |orders| == |inputs| && Run(r, Taken(r, inputs, orders)).running
    ensures Taken(r, inputs + [Udp(m)], orders + [order]) == Taken(r, inputs, orders) + [Datagram(m)]
    ensures Taken(r, inputs + [ExitCommand], orders + [order]) == Taken(r, inputs, orders) + [Exit]
  {
    TakenMore(r, inputs, orders, Udp(m), order);
    TakenMore(r, inputs, orders, ExitCommand, order);
  }

  lemma CompleteIsTaken(r: Rules, inputs: seq<Input>, orders: seq<seq<Name>>, fd: int, raw: RawRequest,
                        stale: bool, order: seq<Name>)
    requires |orders| == |inputs| && Run(r, Taken(r, inputs, orders)).running
    requires IsOpen(Run(r, Taken(r, inputs, orders)).conns, fd)
    requires Complete(raw) && (FlagsField(raw.header) == 0 ==> raw.payload == [])
    ensures Taken(r, inputs + [Request(fd, raw, stale)], orders + [order])
         == Taken(r, inputs, orders) + [Receive(fd, Decode(raw.header, raw.payload), order, stale)]
  {
    TakenMore(r, inputs, orders, Request(fd, raw, stale), order);
  }

  /**
   Every request on an open socket is read and handled, whatever its 14-byte id field, its flags and its
   payload of up to 50 bytes; a CONN_REQ has no payload.
   */
  lemma RequestIsTaken(r: Rules, inputs: seq<Input>, orders: seq<seq<Name>>, fd: int, field: seq<byte>,
                       low: byte, high: byte, payload: seq<byte>, stale: bool, order: seq<Name>)
    requires |orders| == |inputs| && Run(r, Taken(r, inputs, orders)).running
    requires IsOpen(Run(r, Taken(r, inputs, orders)).conns, fd)
    requires |field| == 14 && |payload| <= 50 && (low == 0 && high == 0 ==> payload == [])
    ensures var header := field + [low, high, 20 + |payload|, 0, 0, 0];
            var cmd := if high == 0 then Asked(low, CString(field), RequestKey(payload)) else Other;
            Taken(r, inputs + [Request(fd, RawRequest(header, payload), stale)], orders + [order])
              == Taken(r, inputs, orders) + [Receive(fd, cmd, order, stale)]
  {
    var header := field + [low, high, 20 + |payload|, 0, 0, 0];
    RequestReads(field, low, high, payload);
    assert header[14..16] == [low, high];
    CompleteIsTaken(r, inputs, orders, fd, RawRequest(header, payload), stale, order);
  }

  lemma RequestIsComplete(id: Name, c: UserCommand)
    requires IdOk(id) && UserCommandOk(id, c)
    ensures var b := RequestBytes(id, c); var raw := RawRequest(b[..20], b[20..]);
            && Complete(raw) && (FlagsField(raw.header) == 0 ==> raw.payload == [])
            && Decode(raw.header, raw.payload) == Meaning(id, c)
  {
    var b := RequestBytes(id, c);
    DecodeOfRequest(id, c);
    assert b[..20][14..16] == b[14..16] && b[..20][16..20] == b[16..20];
  }

  /** In particular whatever request a client sends is handled as what it means. */
  lemma CommandIsTaken(r: Rules, inputs: seq<Input>, orders: seq<seq<Name>>, fd: int, id: Name, c: UserCommand,
                       stale: bool, order: seq<Name>)
    requires |orders| == |inputs| && Run(r, Taken(r, inputs, orders)).running
    requires IsOpen(Run(r, Taken(r, inputs, orders)).conns, fd)
    requires IdOk(id) && UserCommandOk(id, c)
    ensures var b := RequestBytes(id, c);
            Taken(r, inputs + [Request(fd, RawRequest(b[..20], b[20..]), stale)], orders + [order])
              == Taken(r, inputs, orders) + [Receive(fd, Meaning(id, c), order, stale)]
  {
    var b := RequestBytes(id, c);
    RequestIsComplete(id, c);
    CompleteIsTaken(r, inputs, orders, fd, RawRequest(b[..20], b[20..]), stale, order);
  }

  // ---------- datagrams ----------

  /** The datagrams on topic t that come in before the exit command. */
  function UdpOn(inputs: seq<Input>, t: Name): seq<Message>
  {
    if inputs == [] then []
    else
      var init, last := inputs[..|inputs| - 1], inputs[|inputs| - 1];
      UdpOn(init, t) + if last.Udp? && KeyOf(last.msg) == t && ExitCommand !in init then [last.msg] else []
  }

  lemma InLast(inputs: seq<Input>, input: Input)
    requires inputs != []
    ensures input in inputs <==> input in inputs[..|inputs| - 1] || input == inputs[|inputs| - 1]
  {
  }

  lemma NextRuns(r: Rules, es: seq<Event>, input: Input, order: seq<Name>)
    ensures Run(r, TakenNext(r, es, input, order)).running <==> Run(r, es).running && input != ExitCommand
  {
    if Run(r, es).running && CanArrive(Run(r, es), input) {
      RunMore(r, es, EventOf(input, order));
      StepRunsUntilExit(r, Run(r, es), EventOf(input, order));
    }
  }

  lemma {:induction false} RunsUntilExitCommand(r: Rules, inputs: seq<Input>, orders: seq<seq<Name>>)
    requires |orders| == |inputs|
    ensures Run(r, Taken(r, inputs, orders)).running <==> ExitCommand !in inputs
  {
    if inputs != [] {
      var n := |inputs| - 1;
      RunsUntilExitCommand(r, inputs[..n], orders[..n]);
      NextRuns(r, Taken(r, inputs[..n], orders[..n]), inputs[n], orders[n]);
      InLast(inputs, ExitCommand);
    }
  }

  lemma NextPublishes(r: Rules, es: seq<Event>, input: Input, order: seq<Name>, t: Name)
    ensures Published(TakenNext(r, es, input, order), t) == Published(es, t) +
            if Run(r, es).running && input.Udp? && KeyOf(input.msg) == t then [input.msg] else []
  {
    if Run(r, es).running && CanArrive(Run(r, es), input) {
      assert (es + [EventOf(input, order)])[..|es|] == es;
    }
  }

  /** What the run publishes on a topic is every datagram that comes in on it before the exit command. */
  lemma {:induction false} PublishedIsUdp(r: Rules, inputs: seq<Input>, orders: seq<seq<Name>>, t: Name)
    requires |orders| == |inputs|
    ensures Published(Taken(r, inputs, orders), t) == UdpOn(inputs, t)
  {
    if inputs != [] {
      var n := |inputs| - 1;
      PublishedIsUdp(r, inputs[..n], orders[..n], t);
      RunsUntilExitCommand(r, inputs[..n], orders[..n]);
      NextPublishes(r, Taken(r, inputs[..n], orders[..n]), inputs[n], orders[n], t);
    }
  }

  // ---------- requests ----------

  /** Every input can arrive when its turn comes. */
  ghost predicate AllArrive(r: Rules, inputs: seq<Input>, orders: seq<seq<Name>>)
    requires |orders| == |inputs|
  {
    forall n :: 0 <= n < |inputs| ==>
      var s := Run(r, Taken(r, inputs[..n], orders[..n])); s.running && CanArrive(s, inputs[n])
  }

  function RequestIn(input: Input, fd: int): seq<RawRequest>
  {
    if input.Request? && input.fd == fd then [input.raw] else []
  }

  function CommandIn(e: Event, fd: int): seq<Command>
  {
    if e.Receive? && e.fd == fd then [e.cmd] else []
  }

  /** The requests read from a descriptor. */
  function RequestsOn(inputs: seq<Input>, fd: int): seq<RawRequest>
  {
    if inputs == [] then [] else RequestsOn(inputs[..|inputs| - 1], fd) + RequestIn(inputs[|inputs| - 1], fd)
  }

  /** The commands received on a descriptor. */
  function CommandsOn(es: seq<Event>, fd: int): seq<Command>
  {
    if es == [] then [] else CommandsOn(es[..|es| - 1], fd) + CommandIn(es[|es| - 1], fd)
  }

  /** Event by event what the inputs stand for. */
  ghost predicate StandFor(es: seq<Event>, inputs: seq<Input>, orders: seq<seq<Name>>)
  {
    |es| == |inputs| == |orders| && forall n :: 0 <= n < |es| ==>
      (inputs[n].Request? ==> Complete(inputs[n].raw)) && es[n] == EventOf(inputs[n], orders[n])
  }

  lemma AllArrivePrefix(r: Rules, inputs: seq<Input>, orders: seq<seq<Name>>, n: nat)
    requires |orders| == |inputs| && AllArrive(r, inputs, orders) && n <= |inputs|
    ensures AllArrive(r, inputs[..n], orders[..n])
  {
    assert forall k :: 0 <= k <= n ==> inputs[..n][..k] == inputs[..k] && orders[..n][..k] == orders[..k];
  }

  lemma OneMoreStandsFor(es: seq<Event>, inputs: seq<Input>, orders: seq<seq<Name>>, input: Input, order: seq<Name>)
    requires StandFor(es, inputs, orders) && (input.Request? ==> Complete(input.raw))
    ensures StandFor(es + [EventOf(input, order)], inputs + [input], orders + [order])
  {
  }

  lemma NextStandsFor(r: Rules, es: seq<Event>, inputs: seq<Input>, orders: seq<seq<Name>>)
    requires |orders| == |inputs| > 0 && StandFor(es, inputs[..|inputs| - 1], orders[..|inputs| - 1])
    requires Run(r, es).running && CanArrive(Run(r, es), inputs[|inputs| - 1])
    ensures StandFor(TakenNext(r, es, inputs[|inputs| - 1], orders[|inputs| - 1]), inputs, orders)
  {
    var n := |inputs| - 1;
    OneMoreStandsFor(es, inputs[..n], orders[..n], inputs[n], orders[n]);
    assert inputs[..n] + [inputs[n]] == inputs && orders[..n] + [orders[n]] == orders;
  }

  lemma {:induction false} TakenStandsFor(r: Rules, inputs: seq<Input>, orders: seq<seq<Name>>)
    requires |orders| == |inputs| && AllArrive(r, inputs, orders)
    ensures StandFor(Taken(r, inputs, orders), inputs, orders)
  {
    if inputs != [] {
      var n := |inputs| - 1;
      AllArrivePrefix(r, inputs, orders, n);
      TakenStandsFor(r, inputs[..n], orders[..n]);
      NextStandsFor(r, Taken(r, inputs[..n], orders[..n]), inputs, orders);
    }
  }

  lemma DecodedAppend(qs: seq<RawRequest>, ps: seq<RawRequest>)
    requires AllComplete(qs) && AllComplete(ps)
    ensures AllComplete(qs + ps) && Decoded(qs + ps) == Decoded(qs) + Decoded(ps)
  {
  }

  lemma DecodedIn(input: Input, order: seq<Name>, fd: int)
    requires input.Request? ==> Complete(input.raw)
    ensures AllComplete(RequestIn(input, fd))
    ensures CommandIn(EventOf(input, order), fd) == Decoded(RequestIn(input, fd))
  {
  }

  lemma StandForPrefix(es: seq<Event>, inputs: seq<Input>, orders: seq<seq<Name>>, n: nat)
    requires StandFor(es, inputs, orders) && n < |es|
    ensures StandFor(es[..n], inputs[..n], orders[..n])
    ensures (inputs[n].Request? ==> Complete(inputs[n].raw)) && es[n] == EventOf(inputs[n], orders[n])
  {
  }

  lemma {:induction false} CommandsAreDecoded(es: seq<Event>, inputs: seq<Input>, orders: seq<seq<Name>>, fd: int)
    requires StandFor(es, inputs, orders)
    ensures AllComplete(RequestsOn(inputs, fd))
    ensures CommandsOn(es, fd) == Decoded(RequestsOn(inputs, fd))
  {
    if es != [] {
      var n := |es| - 1;
      StandForPrefix(es, inputs, orders, n);
      CommandsAreDecoded(es[..n], inputs[..n], orders[..n], fd);
      DecodedIn(inputs[n], orders[n], fd);
      DecodedAppend(RequestsOn(inputs[..n], fd), RequestIn(inputs[n], fd));
    }
  }

  lemma PartStandsFor(es: seq<Event>, inputs: seq<Input>, orders: seq<seq<Name>>, p: nat, q: nat)
    requires StandFor(es, inputs, orders) && p <= q <= |es|
    ensures StandFor(es[p..q], inputs[p..q], orders[p..q])
  {
  }

  /**
   Over any stretch of the inputs in which a descriptor belongs to one client: as long as the bytes read
   from it are the first of what the client's process has sent, the commands the server receives on it
   are the client's first commands, in order, and all of them once every byte has been read.
   */
  lemma {:induction false} ServerHearsClient(r: Rules, inputs: seq<Input>, orders: seq<seq<Name>>,
                                             p: nat, q: nat, fd: int, id: Name, cs: seq<UserCommand>)
    requires |orders| == |inputs| && AllArrive(r, inputs, orders) && p <= q <= |inputs|
    requires IdOk(id) && forall k :: 0 <= k < |cs| ==> UserCommandOk(id, cs[k])
    requires BytesOf(RequestsOn(inputs[p..q], fd)) <= RequestStream(id, cs)
    ensures |Taken(r, inputs, orders)| == |inputs|
    ensures CommandsOn(Taken(r, inputs, orders)[p..q], fd) <= Meanings(id, cs)
    ensures BytesOf(RequestsOn(inputs[p..q], fd)) == RequestStream(id, cs) ==>
              CommandsOn(Taken(r, inputs, orders)[p..q], fd) == Meanings(id, cs)
  {
    var es := Taken(r, inputs, orders);
    TakenStandsFor(r, inputs, orders);
    PartStandsFor(es, inputs, orders, p, q);
    CommandsAreDecoded(es[p..q], inputs[p..q], orders[p..q], fd);
    ReadsAreCommands(id, cs, RequestsOn(inputs[p..q], fd));
  }
}
