/** The life of a connection: what its callers and the callbacks of the
    asynchronous operations do to its state, one critical section at a time. */
module Lifecycle {
  import opened Wrappers
  import opened EventIds
  import opened IdQueueSpec
  import opened IdQueue
  import opened EndpointSpec
  import opened EndpointParser
  import opened EndpointRoundTrip
  import opened LineSplitter
  import opened SendBuffers

  datatype ConnState = Disconnected | Connecting | Connected | Disconnecting

  const STATES: nat := 1  // the enum type of the state events

  function StateId(s: ConnState): EventId {
    match s
    case Disconnected => EventId(STATES, 0)
    case Connecting => EventId(STATES, 1)
    case Connected => EventId(STATES, 2)
    case Disconnecting => EventId(STATES, 3)
  }

  const CHANGED := EventId(STATES, 4)

  /** The ids of the events tell the states apart. */
  lemma StatesDiffer(a: ConnState, b: ConnState)
    ensures StateId(a) == StateId(b) ==> a == b
    ensures StateId(a) != CHANGED && IsValid(StateId(a)) && IsValid(CHANGED)
  {}

  /** How a call ends: normally, with an exception, or with a read started on a
      socket that does not exist, which is undefined. */
  datatype Ending = Normal | AlreadyConnected | LogicError | EmptySocket

  // -------------------------------------------------- the order of state events

  predicate Adjacent(a: ConnState, b: ConnState) {
    match a
    case Disconnected => b == Connecting
    case Connecting => b == Connected || b == Disconnecting || b == Disconnected
    case Connected => b == Disconnecting || b == Disconnected
    case Disconnecting => b == Disconnected
  }

  ghost predicate Walk(t: seq<ConnState>) {
    (t != [] ==> t[0] == Connecting) && forall i | 0 <= i < |t| - 1 :: Adjacent(t[i], t[i + 1])
  }

  /** One session, from connecting to disconnected. */
  datatype Session = Session(established: bool, requested: bool)

  function Spell(s: Session): seq<ConnState> {
    [Connecting] + (if s.established then [Connected] else []) +
    (if s.requested then [Disconnecting] else []) + [Disconnected]
  }

  function SpellAll(ss: seq<Session>): seq<ConnState> {
    if ss == [] then [] else Spell(ss[0]) + SpellAll(ss[1..])
  }

  lemma WalkTail(t: seq<ConnState>, n: nat)
    requires Walk(t) && 0 < n <= |t| && t[n - 1] == Disconnected
    ensures Walk(t[n..])
  {
    var u := t[n..];
    if u != [] { assert Adjacent(t[n - 1], t[n]); }
    forall i | 0 <= i < |u| - 1 ensures Adjacent(u[i], u[i + 1]) {
      assert Adjacent(t[n + i], t[n + i + 1]);
    }
  }

  /** The first session of a walk, completed if the walk ends inside it. */
  lemma FirstSession(t: seq<ConnState>) returns (s: Session)
    requires Walk(t) && t != []
    ensures t <= Spell(s) || (Spell(s) <= t && Walk(t[|Spell(s)|..]))
  {
    if |t| > 1 { assert Adjacent(t[0], t[1]); }
    if |t| > 2 { assert Adjacent(t[1], t[2]); }
    if |t| > 3 { assert Adjacent(t[2], t[3]); }
    var established := |t| > 1 && t[1] == Connected;
    var k := if established then 2 else 1;
    s := Session(established, |t| > k && t[k] == Disconnecting);
    var n := |Spell(s)|;
    if n <= |t| {
      assert t[..n] == Spell(s);
      WalkTail(t, n);
    } else {
      assert t == Spell(s)[..|t|];
    }
  }

  lemma {:induction false} WalkIsPrefix(t: seq<ConnState>) returns (ss: seq<Session>)
    requires Walk(t)
    ensures t <= SpellAll(ss)
    decreases |t|
  {
    ss := [];
    if t != [] {
      var s := FirstSession(t);
      var n := |Spell(s)|;
      if n <= |t| {
        var rest := WalkIsPrefix(t[n..]);
        ss := [s] + rest;
        assert ss[1..] == rest && t == Spell(s) + t[n..];
      } else {
        ss := [s];
        assert SpellAll(ss) == Spell(s) + [];
      }
    }
  }

  lemma ChangedFirst(s: ConnState)
    ensures QueueOne([StateId(s)], CHANGED, Discard, AtFront).live == [CHANGED, StateId(s)]
  {
    assert CHANGED !in [StateId(s)];
  }

  class Connection {
    var state: ConnState
    var hostname: string
    var port: nat
    var socket: bool          // the plain socket exists
    var ssl: bool             // the SSL socket exists
    var resolver: bool
    var endpoints: seq<nat>   // what the resolve iterator has not reached yet
    var errors: nat           // error events queued
    const buffers: SendBuffers
    const receiver: Receiver
    ghost var trace: seq<ConnState>          // the state events queued
    ghost var queued: seq<seq<EventId>>      // their id queues

    constructor ()
      ensures Valid() && state == Disconnected && trace == [] && !HasTransport()
      ensures fresh(buffers) && fresh(receiver)
    {
      buffers := new SendBuffers();
      receiver := new Receiver();
      state, hostname, port := Disconnected, "0.0.0.0", DEFAULT_PORT;
      socket, ssl, resolver, endpoints, errors := false, false, false, [], 0;
      trace, queued := [], [];
    }

    predicate HasTransport()
      reads this
    {
      socket || ssl
    }

    /** Holds whenever the mutex is free. */
    ghost predicate Valid()
      reads this, receiver
    {
      Traced() && LookedUp() && IsRest(receiver.buffer) && (state == Disconnecting ==> !HasTransport())
    }

    /** What clear() leaves of the buffers. */
    predicate Cleared()
      reads buffers, receiver
    {
      buffers.sendBuffer == buffers.fillBuffer == receiver.buffer == "" && !buffers.running
    }

    /** The resolver and its results exist during connecting only; the exception
        that leads to disconnecting for good may leave them behind. */
    predicate LookedUp()
      reads this
    {
      && (!resolver ==> endpoints == [])
      && (state == Connecting ==> resolver)
      && (state == Disconnected || state == Connected ==> !resolver)
    }

    ghost predicate Traced()
      reads this
    {
      && Walk(trace) && (state == if trace == [] then Disconnected else trace[|trace| - 1])
      && |queued| == |trace|
      && forall i | 0 <= i < |trace| :: queued[i] == [CHANGED, StateId(trace[i])]
    }

    /** emit_state_change: the event made for the new state is to be handled as
        `changed` first. */
    method EmitStateChange(newState: ConnState)
      requires Traced() && Adjacent(state, newState)
      modifies `state, `trace, `queued
      ensures Traced() && state == newState && trace == old(trace) + [newState]
    {
      if state != newState {
        var e := MakeStateEvent(newState);
        ghost var longer := trace + [newState];
        assert Walk(longer) by {
          assert forall i | 0 <= i < |trace| :: longer[i] == trace[i];
        }
        queued := queued + [e.Live()];
        trace := longer;
        state := newState;
      }
    }

    static method MakeStateEvent(s: ConnState) returns (e: IdQueue)
      ensures fresh(e) && e.Valid() && e.Live() == [CHANGED, StateId(s)]
    {
      ChangedFirst(s);
      e := new IdQueue(StateId(s));
      var _ := e.QueueAs(CHANGED, Discard, AtFront);
    }

    method EmitError()
      modifies `errors
      ensures errors == old(errors) + 1
    {
      errors := errors + 1;
    }

    /** get_socket throws if no endpoint has ever been set up successfully. */
    method GetSocket() returns (ending: Ending)
      ensures ending == if HasTransport() then Normal else LogicError
    {
      ending := if socket || ssl then Normal else LogicError;
    }

    method ClearResolver()
      requires !resolver ==> endpoints == []
      modifies `resolver, `endpoints
      ensures !resolver && endpoints == []
    {
      if resolver {
        resolver, endpoints := false, [];
      }
    }

    method ClearBuffers()
      modifies buffers, receiver
      ensures Cleared() && receiver.lines == old(receiver.lines)
    {
      buffers.Clear();
      receiver.Clear();
    }

    method DoUnscheduledDisconnect() returns (ending: Ending)
      requires Traced() && state != Disconnected && (!resolver ==> endpoints == [])
      modifies `state, `resolver, `endpoints, `trace, `queued, buffers, receiver
      ensures Traced() && receiver.lines == old(receiver.lines)
      ensures ending == if HasTransport() then Normal else LogicError
      ensures if HasTransport() then
          state == Disconnected && trace == old(trace) + [Disconnected] && !resolver && endpoints == [] && Cleared()
        else unchanged(this, buffers, receiver)
    {
      ending := GetSocket();
      if ending == Normal {
        ClearResolver();
        ClearBuffers();
        EmitStateChange(Disconnected);
      }
    }

    /** set_endpoint */
    method SetEndpoint(endpoint: string, newPort: nat) returns (ending: Ending)
      requires Valid()
      modifies `hostname, `port, `socket, `ssl
      ensures Valid()
      ensures ending == if state == Disconnected then Normal else AlreadyConnected
      ensures ending == AlreadyConnected ==> unchanged(this)
      ensures ending == Normal ==>
        match ParseEndpoint(endpoint, newPort)
        case Invalid => hostname == "0.0.0.0" && port == 0 && !ssl && socket == old(socket)
        case Endpoint(h, p, useSsl) => hostname == h && port == p && ssl == useSsl && socket == !useSsl
    {
      if state != Disconnected {
        return AlreadyConnected;
      }
      var r := Parse(endpoint, newPort);
      match r {
        case Invalid => hostname, port, ssl := "0.0.0.0", 0, false;
        case Endpoint(h, p, useSsl) => hostname, port, ssl, socket := h, p, useSsl, !useSsl;
      }
      ending := Normal;
    }

    /** connect */
    method Connect() returns (ending: Ending)
      requires Valid()
      modifies `state, `resolver, `trace, `queued
      ensures Valid()
      ensures if old(state) == Disconnected then
          ending == Normal && state == Connecting && trace == old(trace) + [Connecting]
        else ending == AlreadyConnected && unchanged(this)
    {
      if state != Disconnected {
        return AlreadyConnected;
      }
      EmitStateChange(Connecting);
      resolver := true;
      ending := Normal;
    }

    /** disconnect: reports disconnecting first, and gets stuck there exactly if
        there is no socket to close. */
    method Disconnect() returns (ending: Ending)
      requires Valid()
      modifies `state, `resolver, `endpoints, `trace, `queued, buffers, receiver
      ensures Valid()
      ensures if old(state).Disconnected? || old(state).Disconnecting? then
          ending == Normal && unchanged(this, buffers, receiver)
        else if old(HasTransport()) then
          ending == Normal && state == Disconnected && trace == old(trace) + [Disconnecting, Disconnected] && Cleared()
        else
          ending == LogicError && state == Disconnecting && trace == old(trace) + [Disconnecting]
    {
      if state == Disconnecting || state == Disconnected {
        return Normal;
      }
      EmitStateChange(Disconnecting);
      ending := DoUnscheduledDisconnect();
    }

    /** What trying the next of the endpoints `found` comes to: an attempt, the
        end of the session if there is none left, or an exception. */
    twostate predicate TriedNext(found: seq<nat>, ending: Ending)
      reads this, buffers, receiver
    {
      && ending == (if HasTransport() then Normal else LogicError)
      && hostname == old(hostname) && port == old(port) && socket == old(socket) && ssl == old(ssl)
      && receiver.lines == old(receiver.lines)
      && if HasTransport() && found == [] then
           state == Disconnected && trace == old(trace) + [Disconnected] && Cleared()
         else
           state == Connecting && trace == old(trace) && (HasTransport() ==> endpoints == found[1..])
    }

    method ConnectTryNext() returns (ending: Ending)
      requires Traced() && LookedUp() && IsRest(receiver.buffer) && state == Connecting
      modifies `state, `resolver, `endpoints, `trace, `queued, buffers, receiver
      ensures Valid() && TriedNext(old(endpoints), ending)
    {
      if endpoints == [] {
        ending := DoUnscheduledDisconnect();
      } else {
        ending := GetSocket();
        if ending == Normal {
          endpoints := endpoints[1..];
        }
      }
    }

    /** The host name has been looked up, or that has failed. */
    method OnResolved(error: bool, found: seq<nat>) returns (ending: Ending)
      requires Valid()
      modifies `state, `resolver, `endpoints, `errors, `trace, `queued, buffers, receiver
      ensures Valid() && (old(state) != Connecting ==> unchanged(this))
      ensures old(state) == Connecting ==>
        TriedNext(if error then [] else found, ending) && errors == old(errors) + if error then 1 else 0
    {
      if state != Connecting {
        return Normal;
      }
      if error {
        EmitError();
        ending := DoUnscheduledDisconnect();
      } else {
        endpoints := found;
        ending := ConnectTryNext();
      }
    }

    /** An attempt to connect has succeeded or failed. */
    method OnConnected(error: bool) returns (ending: Ending)
      requires Valid()
      modifies `state, `resolver, `endpoints, `errors, `trace, `queued, buffers, receiver
      ensures Valid() && (old(state) != Connecting ==> ending == Normal && unchanged(this, buffers, receiver))
      ensures old(state) == Connecting && error ==>
        TriedNext(old(endpoints), ending) && errors == old(errors) + 1
      ensures old(state) == Connecting && !error && ssl ==> ending == Normal && unchanged(this, buffers, receiver)
      ensures old(state) == Connecting && !error && !ssl ==> Established(ending) && errors == old(errors)
    {
      ending := Normal;
      if state != Connecting {
        return;
      }
      if error {
        EmitError();
        ending := ConnectTryNext();
      } else if !ssl {
        ending := ConnectSuccess();
      }
    }

    /** The SSL handshake is over. A failed one is reported, and no more. */
    method OnHandshake(error: bool) returns (ending: Ending)
      requires Valid()
      modifies `state, `resolver, `endpoints, `errors, `trace, `queued, buffers, receiver
      ensures Valid() && (old(state) != Connecting ==> ending == Normal && unchanged(this, buffers, receiver))
      ensures old(state) == Connecting && error ==>
        && ending == Normal && state == Connecting && trace == old(trace) && errors == old(errors) + 1
        && endpoints == old(endpoints)
      ensures old(state) == Connecting && !error ==> Established(ending) && errors == old(errors)
    {
      ending := Normal;
      if state != Connecting {
        return;
      }
      if error {
        EmitError();
      } else {
        ending := ConnectSuccess();
      }
    }

    /** The session has begun, with empty buffers, and reading has been started
        on a socket if there is one. */
    twostate predicate Established(ending: Ending)
      reads this, buffers, receiver
    {
      && state == Connected && trace == old(trace) + [Connected] && !resolver && endpoints == []
      && Cleared() && receiver.lines == old(receiver.lines)
      && ending == if HasTransport() then Normal else EmptySocket
    }

    method ConnectSuccess() returns (ending: Ending)
      requires Traced() && LookedUp() && IsRest(receiver.buffer) && state == Connecting
      modifies `state, `resolver, `endpoints, `trace, `queued, buffers, receiver
      ensures Valid() && Established(ending)
    {
      ClearResolver();
      ClearBuffers();
      EmitStateChange(Connected);
      receiver.Recv();
      ending := StartReading();
    }

    /** The end of recv: the next read, on the SSL socket or else on the plain
        one, which may not exist. */
    method StartReading() returns (ending: Ending)
      ensures ending == EmptySocket <==> !HasTransport()
      ensures ending == Normal || ending == EmptySocket
    {
      ending := if ssl then Normal else if socket then Normal else EmptySocket;
    }

    /** A read has completed, and has delivered `chunk` unless it failed. */
    method OnReceived(error: bool, chunk: string) returns (ending: Ending)
      requires Valid()
      modifies `state, `resolver, `endpoints, `errors, `trace, `queued, buffers, receiver
      ensures Valid() && (old(state) != Connected ==> ending == Normal && unchanged(this, buffers, receiver))
      ensures old(state) == Connected && !error ==>
        && unchanged(this, buffers) && ending == (if HasTransport() then Normal else EmptySocket)
        && Reading(receiver.lines, receiver.buffer) == Read(old(Reading(receiver.lines, receiver.buffer)), chunk)
      ensures old(state) == Connected && error ==> BrokenOff(ending)
    {
      ending := Normal;
      if state != Connected {
        return;
      }
      if error {
        EmitError();
        ending := DoUnscheduledDisconnect();
      } else {
        receiver.Receive(chunk);
        ending := StartReading();
      }
    }

    /** A write has completed; the sender goes on by itself unless it failed. */
    method OnSent(error: bool) returns (ending: Ending)
      requires Valid()
      modifies `state, `resolver, `endpoints, `errors, `trace, `queued, buffers, receiver
      ensures Valid() && (old(state) != Connected || !error ==> ending == Normal && unchanged(this, buffers, receiver))
      ensures old(state) == Connected && error ==> BrokenOff(ending)
    {
      ending := Normal;
      if state != Connected {
        return;
      }
      if error {
        EmitError();
        ending := DoUnscheduledDisconnect();
      }
    }

    /** A transfer has failed. */
    twostate predicate BrokenOff(ending: Ending)
      reads this, buffers, receiver
    {
      && errors == old(errors) + 1 && receiver.lines == old(receiver.lines)
      && ending == (if HasTransport() then Normal else LogicError)
      && if HasTransport() then state == Disconnected && trace == old(trace) + [Disconnected] && Cleared()
         else state == Connected && trace == old(trace)
    }
  }

  // --------------------------------------------------------------- all histories

  /** What can happen to a connection. Callbacks may come at any time, those of
      an earlier attempt included. */
  datatype Input =
    | CallSetEndpoint(endpoint: string, port: nat)
    | CallConnect
    | CallDisconnect
    | Resolved(error: bool, found: seq<nat>)
    | ConnectDone(error: bool)
    | HandshakeDone(error: bool)
    | Received(error: bool, chunk: string)
    | Sent(error: bool)

  method Feed(c: Connection, input: Input) returns (ending: Ending)
    requires c.Valid()
    modifies c, c.buffers, c.receiver
    ensures c.Valid()
    ensures old(c.state) == Disconnecting ==> c.state == Disconnecting && c.trace == old(c.trace)
  {
    match input
    case CallSetEndpoint(endpoint, port) => ending := c.SetEndpoint(endpoint, port);
    case CallConnect => ending := c.Connect();
    case CallDisconnect => ending := c.Disconnect();
    case Resolved(error, found) => ending := c.OnResolved(error, found);
    case ConnectDone(error) => ending := c.OnConnected(error);
    case HandshakeDone(error) => ending := c.OnHandshake(error);
    case Received(error, chunk) => ending := c.OnReceived(error, chunk);
    case Sent(error) => ending := c.OnSent(error);
  }

  /** Every endpoint found is tried; when the last attempt fails, the session
      is over. */
  method AllAttemptsFail(c: Connection, found: seq<nat>)
    requires c.Valid() && c.state == Connecting && c.HasTransport()
    modifies c, c.buffers, c.receiver
    ensures c.state == Disconnected && c.trace == old(c.trace) + [Disconnected]
    ensures c.errors == old(c.errors) + |found|
  {
    var _ := c.OnResolved(false, found);
    for i := 0 to |found|
      invariant c.Valid() && c.HasTransport() && c.errors == old(c.errors) + i
      invariant if found == [] then c.state == Disconnected && c.trace == old(c.trace) + [Disconnected]
        else if i < |found| then c.state == Connecting && c.trace == old(c.trace) && c.endpoints == found[i + 1..]
        else c.state == Disconnected && c.trace == old(c.trace) + [Disconnected]
    {
      var _ := c.OnConnected(true);
    }
  }

  /** Under any calls and any callbacks the state events are the beginning of
      (connecting connected? disconnecting? disconnected)*, each to be handled
      as `changed` first, and the last of them tells the state. The state is
      disconnecting only if no socket exists. */
  method AnyHistory(inputs: seq<Input>) returns (c: Connection)
    ensures fresh(c)
    ensures exists ss :: c.trace <= SpellAll(ss)
    ensures |c.queued| == |c.trace| && forall i | 0 <= i < |c.trace| :: c.queued[i] == [CHANGED, StateId(c.trace[i])]
    ensures c.state == if c.trace == [] then Disconnected else c.trace[|c.trace| - 1]
    ensures c.state == Disconnecting ==> !c.HasTransport()
  {
    c := new Connection();
    for i := 0 to |inputs|
      invariant fresh(c) && fresh(c.buffers) && fresh(c.receiver) && c.Valid()
    {
      var _ := Feed(c, inputs[i]);
    }
    ghost var ss := WalkIsPrefix(c.trace);
  }

  /** The failing family is not empty: without any endpoint set, connect and
      disconnect leave a connection that nothing gets out of disconnecting. */
  method StuckForGood(inputs: seq<Input>) returns (c: Connection)
    ensures fresh(c) && c.state == Disconnecting && c.trace == [Connecting, Disconnecting]
  {
    c := new Connection();
    var _ := c.Connect();
    var _ := c.Disconnect();
    for i := 0 to |inputs|
      invariant fresh(c) && fresh(c.buffers) && fresh(c.receiver) && c.Valid()
      invariant c.state == Disconnecting && c.trace == [Connecting, Disconnecting]
    {
      var _ := Feed(c, inputs[i]);
    }
  }

  lemma SomeEndpoints()
    ensures ParseEndpoint("ircs://a", 0) == Endpoint("a", DEFAULT_PORT_SSL, true) && ParseEndpoint("", 0).Invalid?
  {
    UrlComesBackExactly("ircs", None, "a", None, "", 0);
    assert Url("ircs", None, Server("a", None), "") == "ircs://a";
  }

  /** A connection whose attempt over SSL has been given up; its callback may
      still come. */
  method AbandonedAttempt() returns (c: Connection)
    ensures fresh(c) && fresh(c.buffers) && fresh(c.receiver)
    ensures c.Valid() && c.state == Disconnected && !c.socket
  {
    c := new Connection();
    SomeEndpoints();
    var _ := c.SetEndpoint("ircs://a", 0);
    var _ := c.Connect();
    var _ := c.OnResolved(false, [0]);
    var _ := c.Disconnect();
  }

  /** A success of an earlier attempt may arrive when there is no socket any
      more; the session is then announced, and reading from it is undefined. */
  method StaleSuccess() returns (c: Connection, ending: Ending)
    ensures fresh(c) && c.state == Connected && ending == EmptySocket
  {
    c := AbandonedAttempt();
    SomeEndpoints();
    ending := c.SetEndpoint("", 0);
    ending := c.Connect();
    ending := c.OnConnected(false);
  }
}
