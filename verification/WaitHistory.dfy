/** What the calls made by the threads come to, told from the moves of a run
    alone: every event submitted, every consumer registered, every answer given
    and every timeout is accounted for. */
module WaitHistory {
  import opened Wrappers
  import opened QueueSpec
  import opened WaitProtocol
  import opened WaitInvariant
  import opened WaitSteps
  import opened WaitSections
  import opened WaitTheorems

  // ------------------------------------------------- what the threads have in hand

  /** What the threads hold, taken together, `hand` telling it for one. */
  function AllOf<T(!new)>(pcs: seq<Pc>, hand: Pc -> seq<T>): multiset<T> {
    if pcs == [] then multiset{} else multiset(hand(pcs[0])) + AllOf(pcs[1..], hand)
  }

  lemma MoveOver<T>(x: multiset<T>, rest: multiset<T>, now: multiset<T>, before: multiset<T>, after: multiset<T>)
    requires now + before == rest + after
    ensures (x + now) + before == (x + rest) + after
  {
    forall y ensures ((x + now) + before)[y] == ((x + rest) + after)[y] {
      assert (now + before)[y] == (rest + after)[y];
    }
  }

  /** What is taken in and what is in hand balance what was in hand and is given. */
  lemma Balance<T>(taken: seq<T>, hand: seq<T>, before: seq<T>, given: seq<T>, all: multiset<T>, now: multiset<T>)
    requires taken + hand == before + given
    requires now + multiset(before) == all + multiset(hand)
    ensures multiset(taken) + now == all + multiset(given)
  {
    assert multiset(taken) + multiset(hand) == multiset(before) + multiset(given) by {
      assert multiset(taken + hand) == multiset(before + given);
    }
    forall x ensures (multiset(taken) + now)[x] == (all + multiset(given))[x] {
      assert (multiset(taken) + multiset(hand))[x] == (multiset(before) + multiset(given))[x];
      assert (now + multiset(before))[x] == (all + multiset(hand))[x];
    }
  }

  lemma Chain<T>(taken: multiset<T>, later: multiset<T>, first: multiset<T>, next: multiset<T>, last: multiset<T>,
                 given: multiset<T>, rest: multiset<T>)
    requires taken + next == first + given
    requires later + last == next + rest
    ensures (taken + later) + last == first + (given + rest)
  {
    forall x ensures ((taken + later) + last)[x] == (first + (given + rest))[x] {
      assert (taken + next)[x] == (first + given)[x] && (later + last)[x] == (next + rest)[x];
    }
  }

  /** One thread's hand changes. */
  lemma {:induction false} AllOfChanges<T(!new)>(pcs: seq<Pc>, now: seq<Pc>, t: nat, hand: Pc -> seq<T>)
    requires t < |pcs| == |now|
    requires forall u | 0 <= u < |pcs| && u != t :: hand(now[u]) == hand(pcs[u])
    ensures AllOf(now, hand) + multiset(hand(pcs[t])) == AllOf(pcs, hand) + multiset(hand(now[t]))
  {
    if t == 0 {
      AllOfSame(pcs[1..], now[1..], hand);
    } else {
      AllOfChanges(pcs[1..], now[1..], t - 1, hand);
      MoveOver(multiset(hand(pcs[0])), AllOf(pcs[1..], hand), AllOf(now[1..], hand),
               multiset(hand(pcs[t])), multiset(hand(now[t])));
    }
  }

  lemma {:induction false} AllOfSame<T(!new)>(pcs: seq<Pc>, now: seq<Pc>, hand: Pc -> seq<T>)
    requires |pcs| == |now| && forall u | 0 <= u < |pcs| :: hand(now[u]) == hand(pcs[u])
    ensures AllOf(now, hand) == AllOf(pcs, hand)
  {
    if pcs != [] {
      AllOfSame(pcs[1..], now[1..], hand);
    }
  }

  lemma {:induction false} AllOfNothing<T(!new)>(pcs: seq<Pc>, hand: Pc -> seq<T>)
    requires forall u | 0 <= u < |pcs| :: hand(pcs[u]) == []
    ensures AllOf(pcs, hand) == multiset{}
  {
    if pcs != [] {
      AllOfNothing(pcs[1..], hand);
    }
  }

  // ---------------------------------------------------------------------- events

  /** The events that a call passes to the manager. */
  function Submits(a: Action): seq<Event> {
    match a
    case StartQueue(e) => [e]
    case StartSplice(es) => es
    case _ => []
  }

  /** All events passed to the manager, from the calls alone. */
  function Submitted(moves: seq<Move>): multiset<Event> {
    if moves == [] then multiset{} else multiset(Submits(moves[0].action)) + Submitted(moves[1..])
  }

  /** Those passed by one thread, in its order. */
  function SubmittedBy(moves: seq<Move>, t: nat): seq<Event> {
    if moves == [] then []
    else (if moves[0].thread == t then Submits(moves[0].action) else []) + SubmittedBy(moves[1..], t)
  }

  /** The events of one thread that have entered the deque, in the order they did. */
  function EnteredBy(s: State, moves: seq<Move>, t: nat): seq<Event>
    requires Exec(s, moves).Some?
    decreases |moves|
  {
    if moves == [] then []
    else
      (if moves[0].thread == t then Pushes(s.pcs[t]) else []) +
      EnteredBy(Next(s, moves[0].thread, moves[0].action), moves[1..], t)
  }

  /** The events of a call that have not entered the deque yet. */
  function EventsInHand(pc: Pc): seq<Event> {
    match pc
    case QueueLock(e) => [e]
    case QueuePush(e) => [e]
    case SpliceLock(es) => es
    case SplicePush(es) => es
    case _ => []
  }

  /** A step moves its own thread, and at most wakes another. */
  lemma OthersStayPut(s: State, t: nat, a: Action)
    requires Enabled(s, t, a)
    ensures var n := Next(s, t, a);
      && |n.pcs| == |s.pcs|
      && forall u | 0 <= u < |s.pcs| && u != t :: n.pcs[u] == s.pcs[u] || (n.pcs[u].Asleep? && s.pcs[u].Asleep?)
  {}

  lemma OwnHand(s: State, t: nat, a: Action)
    requires Enabled(s, t, a)
    ensures |Next(s, t, a).pcs| == |s.pcs|
    ensures Pushes(s.pcs[t]) + EventsInHand(Next(s, t, a).pcs[t]) == EventsInHand(s.pcs[t]) + Submits(a)
  {
    if !Entering(s.pcs[t]) { NothingNewInHand(s, t, a); }
  }

  /** The counters of calls that have events or a callback to bring in. */
  predicate Entering(pc: Pc) {
    pc.Idle? || pc.QueueLock? || pc.QueuePush? || pc.SpliceLock? || pc.SplicePush? || pc.RegisterLock?
  }

  lemma NothingNewInHand(s: State, t: nat, a: Action)
    requires Enabled(s, t, a) && !Entering(s.pcs[t])
    ensures var n := Next(s, t, a);
      && |n.pcs| == |s.pcs| && EventsInHand(n.pcs[t]) == [] && TicketInHand(n.pcs[t]) == []
      && Submits(a) == [] && Announces(a) == []
  {
    NotEnteringAgain(s, t, a);
  }

  lemma NotEnteringAgain(s: State, t: nat, a: Action)
    requires Enabled(s, t, a) && !Entering(s.pcs[t])
    ensures var n := Next(s, t, a);
      && |n.pcs| == |s.pcs| && (Entering(n.pcs[t]) || n.pcs[t].RegisterBody? ==> n.pcs[t].Idle?)
      && !a.StartQueue? && !a.StartSplice? && !a.StartRegister?
  {}

  lemma StepHandsOver(s: State, t: nat, a: Action)
    requires Enabled(s, t, a)
    ensures |Next(s, t, a).pcs| == |s.pcs|
    ensures Pushes(s.pcs[t]) + EventsInHand(Next(s, t, a).pcs[t]) == EventsInHand(s.pcs[t]) + Submits(a)
    ensures forall u | 0 <= u < |s.pcs| && u != t :: EventsInHand(Next(s, t, a).pcs[u]) == EventsInHand(s.pcs[u])
  {
    OwnHand(s, t, a);
    OthersStayPut(s, t, a);
  }

  /** Every thread's events enter the deque in the order of its calls; at most
      those of its present call are missing. */
  lemma {:induction false} RunHandsOver(s: State, moves: seq<Move>, t: nat)
    requires Exec(s, moves).Some? && t < |s.pcs|
    ensures |Exec(s, moves).value.pcs| == |s.pcs|
    ensures EnteredBy(s, moves, t) + EventsInHand(Exec(s, moves).value.pcs[t]) ==
            EventsInHand(s.pcs[t]) + SubmittedBy(moves, t)
    decreases |moves|
  {
    if moves != [] {
      var m, n := moves[0], Next(s, moves[0].thread, moves[0].action);
      StepHandsOver(s, m.thread, m.action);
      RunHandsOver(n, moves[1..], t);
      Regroup(if m.thread == t then Pushes(s.pcs[t]) else [], EnteredBy(n, moves[1..], t),
              EventsInHand(s.pcs[t]), EventsInHand(n.pcs[t]), EventsInHand(Exec(s, moves).value.pcs[t]),
              if m.thread == t then Submits(m.action) else [], SubmittedBy(moves[1..], t));
    }
  }

  lemma Regroup(taken: seq<Event>, later: seq<Event>, first: seq<Event>, next: seq<Event>, last: seq<Event>,
                given: seq<Event>, rest: seq<Event>)
    requires taken + next == first + given
    requires later + last == next + rest
    ensures (taken + later) + last == first + (given + rest)
  {
    assert (taken + later) + last == taken + (later + last);
    assert taken + (next + rest) == (taken + next) + rest;
    assert (first + given) + rest == first + (given + rest);
  }

  lemma {:induction false} RunAccounts(s: State, moves: seq<Move>)
    requires Exec(s, moves).Some?
    ensures multiset(Entered(s, moves)) + AllOf(Exec(s, moves).value.pcs, EventsInHand) ==
            AllOf(s.pcs, EventsInHand) + Submitted(moves)
    decreases |moves|
  {
    if moves != [] {
      var m, n := moves[0], Next(s, moves[0].thread, moves[0].action);
      StepAccounts(s, m.thread, m.action);
      RunAccounts(n, moves[1..]);
      Chain(multiset(Pushes(s.pcs[m.thread])), multiset(Entered(n, moves[1..])), AllOf(s.pcs, EventsInHand),
            AllOf(n.pcs, EventsInHand), AllOf(Exec(s, moves).value.pcs, EventsInHand),
            multiset(Submits(m.action)), Submitted(moves[1..]));
    }
  }

  lemma StepAccounts(s: State, t: nat, a: Action)
    requires Enabled(s, t, a)
    ensures multiset(Pushes(s.pcs[t])) + AllOf(Next(s, t, a).pcs, EventsInHand) ==
            AllOf(s.pcs, EventsInHand) + multiset(Submits(a))
  {
    var now := Next(s, t, a).pcs;
    StepHandsOver(s, t, a);
    AllOfChanges(s.pcs, now, t, EventsInHand);
    Balance(Pushes(s.pcs[t]), EventsInHand(now[t]), EventsInHand(s.pcs[t]), Submits(a),
            AllOf(s.pcs, EventsInHand), AllOf(now, EventsInHand));
  }

  ghost predicate AllIdle(s: State) {
    forall t | 0 <= t < |s.pcs| :: s.pcs[t].Idle?
  }

  /** No event is lost or duplicated: whenever the queue mutex is free, what was
      delivered, what is in the deque and what calls still have in hand is what
      the calls of queue and splice have passed; with all threads idle nothing is
      in hand. */
  lemma EventsConserved(threads: nat, moves: seq<Move>, s: State)
    requires Reached(threads, moves, s) && s.qOwner.None?
    ensures multiset(Events(s.delivered)) + multiset(s.queue) + AllOf(s.pcs, EventsInHand) == Submitted(moves)
    ensures AllIdle(s) ==> multiset(Events(s.delivered)) + multiset(s.queue) == Submitted(moves)
  {
    PushesConserved(threads, moves, s);
    RunAccounts(Init(threads), moves);
    AllOfNothing(Init(threads).pcs, EventsInHand);
    if AllIdle(s) { AllOfNothing(s.pcs, EventsInHand); }
  }

  // ------------------------------------------------------------------- callbacks

  function Announces(a: Action): seq<nat> {
    if a.StartRegister? then [a.ticket] else []
  }

  /** The callbacks passed to wait_event, from the calls alone. */
  function Announced(moves: seq<Move>): multiset<nat> {
    if moves == [] then multiset{} else multiset(Announces(moves[0].action)) + Announced(moves[1..])
  }

  function TicketInHand(pc: Pc): seq<nat> {
    match pc
    case RegisterLock(k) => [k]
    case RegisterBody(k) => [k]
    case _ => []
  }

  function Tickets(cs: seq<Consumer>): seq<nat> {
    if cs == [] then []
    else Tickets(cs[..|cs| - 1]) + if cs[|cs| - 1].Callback? then [cs[|cs| - 1].ticket] else []
  }

  lemma TicketsGrow(cs: seq<Consumer>, c: Consumer)
    ensures Tickets(cs + [c]) == Tickets(cs) + if c.Callback? then [c.ticket] else []
  {
    assert (cs + [c])[..|cs|] == cs;
  }

  /** The callbacks that a step at `pc` registers. */
  function Registers(pc: Pc): seq<nat> {
    if pc.RegisterBody? then [pc.ticket] else []
  }

  lemma StepTakesTicket(s: State, t: nat, a: Action)
    requires Enabled(s, t, a)
    ensures |Next(s, t, a).pcs| == |s.pcs|
    ensures Registers(s.pcs[t]) + TicketInHand(Next(s, t, a).pcs[t]) == TicketInHand(s.pcs[t]) + Announces(a)
    ensures forall u | 0 <= u < |s.pcs| && u != t :: TicketInHand(Next(s, t, a).pcs[u]) == TicketInHand(s.pcs[u])
  {
    OwnTicket(s, t, a);
    OthersStayPut(s, t, a);
  }

  lemma OwnTicket(s: State, t: nat, a: Action)
    requires Enabled(s, t, a)
    ensures |Next(s, t, a).pcs| == |s.pcs|
    ensures Registers(s.pcs[t]) + TicketInHand(Next(s, t, a).pcs[t]) == TicketInHand(s.pcs[t]) + Announces(a)
  {
    if !Entering(s.pcs[t]) { NothingNewInHand(s, t, a); }
  }

  lemma StepRegisters(s: State, t: nat, a: Action)
    requires Enabled(s, t, a)
    ensures Tickets(Next(s, t, a).registered) == Tickets(s.registered) + Registers(s.pcs[t])
  {
    match s.pcs[t]
    case SecondCheck(w) => TicketsGrow(s.registered, Waiter(w));
    case RegisterBody(k) => TicketsGrow(s.registered, Callback(k));
    case _ => OthersRegisterNobody(s, t, a);
  }

  lemma OthersRegisterNobody(s: State, t: nat, a: Action)
    requires Enabled(s, t, a) && !s.pcs[t].SecondCheck? && !s.pcs[t].RegisterBody?
    ensures Next(s, t, a).registered == s.registered
  {}

  lemma {:induction false} RunRegisters(s: State, moves: seq<Move>)
    requires Exec(s, moves).Some?
    ensures var end := Exec(s, moves).value;
      multiset(Tickets(end.registered)) + AllOf(end.pcs, TicketInHand) ==
      (multiset(Tickets(s.registered)) + AllOf(s.pcs, TicketInHand)) + Announced(moves)
    decreases |moves|
  {
    if moves != [] {
      var n := Next(s, moves[0].thread, moves[0].action);
      StepRegistersAccount(s, moves[0].thread, moves[0].action);
      RunRegisters(n, moves[1..]);
      Associate(multiset(Tickets(s.registered)) + AllOf(s.pcs, TicketInHand),
                multiset(Announces(moves[0].action)), Announced(moves[1..]));
    }
  }

  lemma Associate<T>(a: multiset<T>, b: multiset<T>, c: multiset<T>)
    ensures (a + b) + c == a + (b + c)
  {}

  lemma StepRegistersAccount(s: State, t: nat, a: Action)
    requires Enabled(s, t, a)
    ensures var n := Next(s, t, a);
      multiset(Tickets(n.registered)) + AllOf(n.pcs, TicketInHand) ==
      (multiset(Tickets(s.registered)) + AllOf(s.pcs, TicketInHand)) + multiset(Announces(a))
  {
    var n := Next(s, t, a);
    StepTakesTicket(s, t, a);
    StepRegisters(s, t, a);
    AllOfChanges(s.pcs, n.pcs, t, TicketInHand);
    Balance(Registers(s.pcs[t]), TicketInHand(n.pcs[t]), TicketInHand(s.pcs[t]), Announces(a),
            AllOf(s.pcs, TicketInHand), AllOf(n.pcs, TicketInHand));
    Associate(multiset(Tickets(s.registered)), multiset(Registers(s.pcs[t])), AllOf(n.pcs, TicketInHand));
    Associate(multiset(Tickets(s.registered)), AllOf(s.pcs, TicketInHand), multiset(Announces(a)));
  }

  /** Every callback passed to wait_event gets registered, once; those missing are
      in the hands of calls in progress. */
  lemma CallbacksRegistered(threads: nat, moves: seq<Move>, s: State)
    requires Reached(threads, moves, s)
    ensures multiset(Tickets(s.registered)) + AllOf(s.pcs, TicketInHand) == Announced(moves)
    ensures AllIdle(s) ==> multiset(Tickets(s.registered)) == Announced(moves)
  {
    RunRegisters(Init(threads), moves);
    AllOfNothing(Init(threads).pcs, TicketInHand);
    if AllIdle(s) { AllOfNothing(s.pcs, TicketInHand); }
  }

  /** The callback that a thread at `pc` is calling. */
  function Asked(pc: Pc): seq<nat> {
    match pc
    case Offer(Callback(k)) => [k]
    case RegisterBody(k) => [k]
    case _ => []
  }

  /** The callbacks that have said yes, in that order. */
  function Yeses(s: State, moves: seq<Move>): seq<nat>
    requires Exec(s, moves).Some?
    decreases |moves|
  {
    if moves == [] then []
    else
      (if moves[0].action == Say(true) then Asked(s.pcs[moves[0].thread]) else []) +
      Yeses(Next(s, moves[0].thread, moves[0].action), moves[1..])
  }

  /** The callbacks that have received events, in that order. */
  function Receivers(ds: seq<Delivery>): seq<nat> {
    if ds == [] then []
    else Receivers(ds[..|ds| - 1]) + if ds[|ds| - 1].to.Callback? then [ds[|ds| - 1].to.ticket] else []
  }

  lemma StepAnswers(s: State, t: nat, a: Action)
    requires Enabled(s, t, a)
    ensures Receivers(Next(s, t, a).delivered) ==
            Receivers(s.delivered) + if a == Say(true) then Asked(s.pcs[t]) else []
  {
    var n := Next(s, t, a);
    if |n.delivered| > |s.delivered| {
      assert n.delivered[..|n.delivered| - 1] == s.delivered;
    }
  }

  lemma {:induction false} RunAnswers(s: State, moves: seq<Move>)
    requires Exec(s, moves).Some?
    ensures Receivers(Exec(s, moves).value.delivered) == Receivers(s.delivered) + Yeses(s, moves)
    decreases |moves|
  {
    if moves != [] {
      StepAnswers(s, moves[0].thread, moves[0].action);
      RunAnswers(Next(s, moves[0].thread, moves[0].action), moves[1..]);
    }
  }

  /** A callback receives an event exactly if it says yes to it. */
  lemma YesMeansDelivered(threads: nat, moves: seq<Move>, s: State)
    requires Reached(threads, moves, s)
    ensures Receivers(s.delivered) == Yeses(Init(threads), moves)
  {
    RunAnswers(Init(threads), moves);
  }

  // ----------------------------------------------------- calls of wait_event

  /** Thread `t` starts the call `w` with the i-th move. */
  predicate StartedAt(moves: seq<Move>, i: nat, t: nat, w: nat, timed: bool) {
    i < |moves| && moves[i] == Move(t, StartWait(w, timed))
  }

  predicate NoStartBetween(moves: seq<Move>, i: nat, j: nat, t: nat)
    requires j <= |moves|
  {
    forall k | i < k < j :: moves[k].thread == t ==> !moves[k].action.StartWait?
  }

  /** Thread `t` times out with the j-th move, in the call it started with the i-th. */
  predicate TimedOutAt(moves: seq<Move>, i: nat, j: nat, t: nat) {
    i < j < |moves| && moves[j] == Move(t, TimeOut) && NoStartBetween(moves, i, j, t)
  }

  /** The call has ended with null, or will do so unless an event comes. */
  predicate GaveUp(d: Wait, pc: Pc) {
    if d.result.Some? then d.result.value.None?
    else (pc.Relock? && pc.timedOut) || ((pc.Finish? || pc.Return?) && d.slot.None?)
  }

  /** What the moves tell about a call that the state knows as `d`. */
  ghost predicate Told(moves: seq<Move>, w: nat, d: Wait, pc: Pc) {
    exists i: nat ::
      && StartedAt(moves, i, d.thread, w, d.timed)
      && (d.result.None? ==> NoStartBetween(moves, i, |moves|, d.thread))
      && (GaveUp(d, pc) ==> d.timed && exists j: nat :: TimedOutAt(moves, i, j, d.thread))
  }

  lemma ToldOn(moves: seq<Move>, m: Move, w: nat, d: Wait, pc: Pc, e: Wait, now: Pc)
    requires Told(moves, w, d, pc)
    requires e.thread == d.thread && e.timed == d.timed
    requires e.result.None? ==> d.result.None? && !(m.thread == d.thread && m.action.StartWait?)
    requires GaveUp(e, now) ==> GaveUp(d, pc) || (d.timed && d.result.None? && m == Move(d.thread, TimeOut))
    ensures Told(moves + [m], w, e, now)
  {
    var i: nat :| && StartedAt(moves, i, d.thread, w, d.timed)
      && (d.result.None? ==> NoStartBetween(moves, i, |moves|, d.thread))
      && (GaveUp(d, pc) ==> d.timed && exists j: nat :: TimedOutAt(moves, i, j, d.thread));
    var more := moves + [m];
    assert StartedAt(more, i, d.thread, w, d.timed);
    if GaveUp(e, now) {
      if GaveUp(d, pc) {
        var j: nat :| TimedOutAt(moves, i, j, d.thread);
        assert TimedOutAt(more, i, j, d.thread);
      } else {
        assert TimedOutAt(more, i, |moves|, d.thread);
      }
    }
  }

  /** A call gives up by the timeout of its own thread only. */
  lemma StepGivesUp(s: State, t: nat, a: Action, w: nat)
    requires Calls(s.pcs, s.waits) && Phases(s.pcs, s.waits, s.registered) && Enabled(s, t, a) && w in s.waits
    ensures var n := Next(s, t, a);
      && w in n.waits && s.waits[w].thread < |s.pcs| == |n.pcs|
      && n.waits[w].thread == s.waits[w].thread && n.waits[w].timed == s.waits[w].timed
      && (n.waits[w].result.None? ==> s.waits[w].result.None? && !(t == s.waits[w].thread && a.StartWait?))
      && (GaveUp(n.waits[w], n.pcs[s.waits[w].thread]) ==>
            || GaveUp(s.waits[w], s.pcs[s.waits[w].thread])
            || (s.waits[w].timed && s.waits[w].result.None? && t == s.waits[w].thread && a.TimeOut?))
  {
    var d := s.waits[w];
    assert Phase(d, s.pcs[d.thread], Waiter(w) in s.registered);
    OthersStayPut(s, t, a);
    if Serving(s.pcs[t]) == Some(w) {
      OwnCallStep(s, t, a, w);
    } else if s.pcs[t] == OfferLock(w) || s.pcs[t] == OfferBody(w) {
      OfferedCallStep(s, t, a, w);
    } else {
      OtherCallsUntouched(s, t, a, w);
    }
  }

  lemma OwnCallStep(s: State, t: nat, a: Action, w: nat)
    requires Enabled(s, t, a) && w in s.waits && Serving(s.pcs[t]) == Some(w)
    requires s.waits[w].thread == t && s.waits[w].result.None? && Phase(s.waits[w], s.pcs[t], Waiter(w) in s.registered)
    ensures var n := Next(s, t, a);
      && w in n.waits && |n.pcs| == |s.pcs| && !a.StartWait?
      && n.waits[w].thread == t && n.waits[w].timed == s.waits[w].timed
      && (GaveUp(n.waits[w], n.pcs[t]) ==> GaveUp(s.waits[w], s.pcs[t]) || (s.waits[w].timed && a.TimeOut?))
  {}

  lemma OfferedCallStep(s: State, t: nat, a: Action, w: nat)
    requires Enabled(s, t, a) && w in s.waits && (s.pcs[t] == OfferLock(w) || s.pcs[t] == OfferBody(w))
    ensures var n := Next(s, t, a);
      && w in n.waits && !a.StartWait? && !a.TimeOut?
      && n.waits[w].thread == s.waits[w].thread && n.waits[w].timed == s.waits[w].timed
      && n.waits[w].result == s.waits[w].result && (n.waits[w].slot.None? ==> s.waits[w].slot.None?)
  {}

  ghost predicate AllTold(moves: seq<Move>, s: State) {
    && Calls(s.pcs, s.waits)
    && (forall w | w in s.waits :: Told(moves, w, s.waits[w], s.pcs[s.waits[w].thread]))
    && (forall i | 0 <= i < |moves| && moves[i].action.StartWait? :: moves[i].action.call in s.waits)
  }

  lemma StepTells(moves: seq<Move>, s: State, m: Move)
    requires Inv(s) && AllTold(moves, s) && Enabled(s, m.thread, m.action)
    ensures AllTold(moves + [m], Next(s, m.thread, m.action))
  {
    var n := Next(s, m.thread, m.action);
    StepKeepsInv(s, m.thread, m.action);
    forall w | w in s.waits ensures w in n.waits && Told(moves + [m], w, n.waits[w], n.pcs[n.waits[w].thread]) {
      var u := s.waits[w].thread;
      StepGivesUp(s, m.thread, m.action, w);
      ToldOn(moves, m, w, s.waits[w], s.pcs[u], n.waits[w], n.pcs[u]);
    }
    forall w | w in n.waits && w !in s.waits ensures Told(moves + [m], w, n.waits[w], n.pcs[n.waits[w].thread]) {
      NewCallIsStarted(s, m.thread, m.action, w);
      assert StartedAt(moves + [m], |moves|, m.thread, w, n.waits[w].timed);
    }
    if m.action.StartWait? { StartIsKnown(s, m.thread, m.action); }
  }

  lemma NewCallIsStarted(s: State, t: nat, a: Action, w: nat)
    requires Enabled(s, t, a) && w !in s.waits && w in Next(s, t, a).waits
    ensures var n := Next(s, t, a);
      a == StartWait(w, n.waits[w].timed) && n.waits[w].thread == t && t < |n.pcs| && !GaveUp(n.waits[w], n.pcs[t])
  {}

  lemma StartIsKnown(s: State, t: nat, a: Action)
    requires Enabled(s, t, a) && a.StartWait?
    ensures a.call in Next(s, t, a).waits
  {}

  lemma {:induction false} RunTells(threads: nat, moves: seq<Move>, s: State)
    requires Reached(threads, moves, s)
    ensures AllTold(moves, s)
    decreases |moves|
  {
    if moves != [] {
      var front, m := moves[..|moves| - 1], moves[|moves| - 1];
      assert moves == front + [m];
      LastMove(Init(threads), front, m);
      var before := Exec(Init(threads), front).value;
      RunTells(threads, front, before);
      ReachedInv(threads, front, before);
      StepTells(front, before, m);
    }
  }

  lemma {:induction false} LastMove(s: State, moves: seq<Move>, m: Move)
    requires Exec(s, moves + [m]).Some?
    ensures Exec(s, moves).Some?
    ensures var before := Exec(s, moves).value;
      Enabled(before, m.thread, m.action) && Exec(s, moves + [m]) == Some(Next(before, m.thread, m.action))
    decreases |moves|
  {
    if moves == [] {
      assert moves + [m] == [m] && [m][1..] == [];
    } else {
      assert (moves + [m])[1..] == moves[1..] + [m];
      LastMove(Next(s, moves[0].thread, moves[0].action), moves[1..], m);
    }
  }

  /** A call of wait_event returns null only if it was started with a timeout and
      its thread has timed out in it. */
  lemma NullMeansTimeout(threads: nat, moves: seq<Move>, s: State, w: nat)
    requires Reached(threads, moves, s) && w in s.waits && s.waits[w].result == Some(None)
    ensures exists t: nat, i: nat, j: nat :: StartedAt(moves, i, t, w, true) && TimedOutAt(moves, i, j, t)
  {
    RunTells(threads, moves, s);
    var d := s.waits[w];
    assert Told(moves, w, d, s.pcs[d.thread]);
  }

  /** Every call that was started is known, and nothing else; with all threads
      idle each has returned: an event that was delivered to it, or null after a
      timeout. */
  lemma CallsReturn(threads: nat, moves: seq<Move>, s: State, w: nat)
    requires Reached(threads, moves, s)
    ensures w in s.waits <==> exists t: nat, i: nat, timed: bool :: StartedAt(moves, i, t, w, timed)
    ensures w in s.waits && AllIdle(s) ==> s.waits[w].result.Some?
  {
    RunTells(threads, moves, s);
    ReachedInv(threads, moves, s);
    if w in s.waits {
      assert Told(moves, w, s.waits[w], s.pcs[s.waits[w].thread]);
    }
  }

  // ------------------------------------------------------------------- progress

  /** How far a call of wait_event is from its return; being woken adds a round. */
  function Distance(pc: Pc): nat {
    match pc
    case FirstLock(_) => 10
    case FirstCheck(_) => 9
    case MakeData(_) => 8
    case SecondLock(_) => 7
    case SecondCheck(_) => 6
    case TestWait(_) => 5
    case Asleep(_, _) => 4
    case Relock(_, timedOut) => if timedOut then 3 else 6
    case Finish(_) => 2
    case Return(_) => 1
    case _ => 0
  }

  function Wakes(moves: seq<Move>, t: nat): nat {
    if moves == [] then 0 else (if moves[0] == Move(t, Wake) then 1 else 0) + Wakes(moves[1..], t)
  }

  lemma CallProgresses(s: State, t: nat, a: Action)
    requires Enabled(s, t, a) && Serving(s.pcs[t]).Some?
    ensures var n := Next(s, t, a);
      && |n.pcs| == |s.pcs|
      && Distance(n.pcs[t]) <= (if a.Wake? then Distance(s.pcs[t]) + 2 else Distance(s.pcs[t]) - 1)
      && (Serving(n.pcs[t]).Some? || n.pcs[t].Idle?)
  {}

  /** Thread `t` is in a call of wait_event before and after every one of the moves. */
  predicate Waits(s: State, moves: seq<Move>, t: nat)
    requires Exec(s, moves).Some?
    decreases |moves|
  {
    t < |s.pcs| && Serving(s.pcs[t]).Some? &&
    (moves == [] || Waits(Next(s, moves[0].thread, moves[0].action), moves[1..], t))
  }

  /** A call returns after ten steps of its thread, and three more for each time
      it has been woken, whatever the others do. */
  lemma {:induction false} CallsEnd(s: State, moves: seq<Move>, t: nat)
    requires Exec(s, moves).Some? && Waits(s, moves, t)
    ensures MovesOf(moves, t) <= Distance(s.pcs[t]) + 3 * Wakes(moves, t) <= 10 + 3 * Wakes(moves, t)
    decreases |moves|
  {
    if moves != [] {
      var m := moves[0];
      OthersStayPut(s, m.thread, m.action);
      if m.thread == t { CallProgresses(s, t, m.action); }
      CallsEnd(Next(s, m.thread, m.action), moves[1..], t);
    }
  }

  /** The calls of the other operations end as well: the step that acquires the
      queue mutex enters the section, and the step that leaves it ends the call. */
  lemma OperationsEnd(s: State, t: nat, a: Action)
    requires QueueLocks(s.pcs, s.qOwner) && Enabled(s, t, a) && Serving(s.pcs[t]).None? && !s.pcs[t].Idle?
    ensures var n := Next(s, t, a);
      && |n.pcs| == |s.pcs|
      && (WantsQueue(s.pcs[t]) <==> s.qOwner != Some(t))
      && (WantsQueue(s.pcs[t]) ==> n.qOwner == Some(t))
      && (s.qOwner == Some(t) && n.qOwner != Some(t) ==> n.qOwner.None? && n.pcs[t].Idle?)
  {}

  /** What may happen next is not up to the manager: an idle thread may make any
      call, a callback may give any answer, a sleeper may be woken, and it may
      time out exactly if its call has a timeout. */
  lemma CallersAreFree(s: State, t: nat, e: Event, es: seq<Event>, w: nat, k: nat, timed: bool, yes: bool)
    requires t < |s.pcs| && Defined(s, s.pcs[t])
    ensures s.pcs[t].Idle? ==>
      && Enabled(s, t, StartQueue(e)) && Enabled(s, t, StartSplice(es))
      && (w !in s.waits ==> Enabled(s, t, StartWait(w, timed)))
      && (k !in s.issued ==> Enabled(s, t, StartRegister(k)))
    ensures Asked(s.pcs[t]) != [] && s.queue != [] ==> Enabled(s, t, Say(yes))
    ensures s.pcs[t].Asleep? ==>
      Enabled(s, t, Wake) && (Enabled(s, t, TimeOut) <==> s.waits[s.pcs[t].call].timed)
  {}
}
