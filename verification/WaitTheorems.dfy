/** What the invariant of the wait protocol means for its users, over every
    run of any number of threads. */
module WaitTheorems {
  import opened Wrappers
  import opened QueueSpec
  import opened WaitProtocol
  import opened WaitInvariant
  import opened WaitSteps

  /** The states that some run of `threads` threads can reach. */
  ghost predicate Reached(threads: nat, moves: seq<Move>, s: State) {
    Exec(Init(threads), moves) == Some(s)
  }

  lemma ReachedInv(threads: nat, moves: seq<Move>, s: State)
    requires Reached(threads, moves, s)
    ensures Inv(s)
  {
    InitInv(threads);
    RunKeepsInv(Init(threads), moves);
  }

  // ------------------------------------------------------------- no lost events

  /** The events that a step at `pc` puts into the deque. */
  function Pushes(pc: Pc): seq<Event> {
    match pc
    case QueuePush(e) => [e]
    case SplicePush(es) => es
    case _ => []
  }

  /** The events put into the deque by a run, in the order the pushes happen. */
  function Entered(s: State, moves: seq<Move>): seq<Event>
    requires Exec(s, moves).Some?
    decreases |moves|
  {
    if moves == [] then []
    else
      Pushes(s.pcs[moves[0].thread]) + Entered(Next(s, moves[0].thread, moves[0].action), moves[1..])
  }

  ghost predicate NobodySplices(s: State) {
    forall t | 0 <= t < |s.pcs| :: !s.pcs[t].SpliceLock? && !s.pcs[t].SplicePush?
  }

  ghost predicate NeverSplices(moves: seq<Move>) {
    forall i | 0 <= i < |moves| :: !moves[i].action.StartSplice?
  }

  lemma StepOrders(s: State, t: nat, a: Action)
    requires Enabled(s, t, a)
    ensures multiset(Next(s, t, a).order) == multiset(s.order) + multiset(Pushes(s.pcs[t]))
    ensures !s.pcs[t].SplicePush? ==> Next(s, t, a).order == s.order + Pushes(s.pcs[t])
  {
    if s.pcs[t].SplicePush? {
      var n := if |s.delivered| <= |s.order| then |s.delivered| else |s.order|;
      assert s.order == s.order[..n] + s.order[n..];
    } else if !s.pcs[t].QueuePush? {
      OthersKeepOrder(s, t, a);
    }
  }

  lemma OthersKeepOrder(s: State, t: nat, a: Action)
    requires Enabled(s, t, a) && !s.pcs[t].QueuePush? && !s.pcs[t].SplicePush?
    ensures Next(s, t, a).order == s.order
  {}

  lemma StepKeepsNobody(s: State, t: nat, a: Action)
    requires Enabled(s, t, a) && NobodySplices(s) && !a.StartSplice?
    ensures NobodySplices(Next(s, t, a))
  {}

  lemma {:induction false} RunKeepsEvents(s: State, moves: seq<Move>)
    requires Exec(s, moves).Some?
    ensures multiset(Exec(s, moves).value.order) == multiset(s.order) + multiset(Entered(s, moves))
    decreases |moves|
  {
    if moves != [] {
      StepOrders(s, moves[0].thread, moves[0].action);
      RunKeepsEvents(Next(s, moves[0].thread, moves[0].action), moves[1..]);
    }
  }

  lemma {:induction false} RunKeepsOrder(s: State, moves: seq<Move>)
    requires Exec(s, moves).Some? && NobodySplices(s) && NeverSplices(moves)
    ensures Exec(s, moves).value.order == s.order + Entered(s, moves)
    decreases |moves|
  {
    if moves != [] {
      var t, a := moves[0].thread, moves[0].action;
      assert !a.StartSplice?;
      StepOrders(s, t, a);
      StepKeepsNobody(s, t, a);
      assert NeverSplices(moves[1..]) by {
        assert forall i | 0 <= i < |moves[1..]| :: moves[1..][i] == moves[i + 1];
      }
      RunKeepsOrder(Next(s, t, a), moves[1..]);
    }
  }

  lemma FreeOrder(s: State)
    requires Inv(s) && s.qOwner.None?
    ensures Events(s.delivered) + s.queue == s.order
  {}

  /** Behind the push no event is lost or duplicated: whenever the queue mutex is
      free, what was delivered together with the deque is what entered it;
      without splices, in that very order. */
  lemma PushesConserved(threads: nat, moves: seq<Move>, s: State)
    requires Reached(threads, moves, s) && s.qOwner.None?
    ensures multiset(Events(s.delivered)) + multiset(s.queue) == multiset(Entered(Init(threads), moves))
    ensures NeverSplices(moves) ==> Events(s.delivered) + s.queue == Entered(Init(threads), moves)
  {
    var start := Init(threads);
    ReachedInv(threads, moves, s);
    FreeOrder(s);
    RunKeepsEvents(start, moves);
    assert start.order == [] && multiset(start.order) == multiset{};
    assert multiset(s.order) == multiset(Events(s.delivered)) + multiset(s.queue);
    if NeverSplices(moves) {
      RunKeepsOrder(start, moves);
    }
  }

  // ---------------------------------------------------------- what calls return

  ghost predicate DeliveredTo(s: State, c: Consumer) {
    exists i :: 0 <= i < |s.delivered| && s.delivered[i].to == c
  }

  /** A call that returned an event was delivered that event and no other; a
      call that returned null was delivered none; only timed calls return null. */
  lemma ReturnsWhatWasDelivered(threads: nat, moves: seq<Move>, s: State, w: nat)
    requires Reached(threads, moves, s) && w in s.waits && s.waits[w].result.Some?
    ensures match s.waits[w].result.value
      case Some(e) =>
        && Delivery(Waiter(w), e) in s.delivered
        && (forall i, j | 0 <= i < |s.delivered| && 0 <= j < |s.delivered| ::
              s.delivered[i].to == s.delivered[j].to == Waiter(w) ==> i == j)
      case None => s.waits[w].timed && !DeliveredTo(s, Waiter(w))
  {
    ReachedInv(threads, moves, s);
    assert Phase(s.waits[w], s.pcs[s.waits[w].thread], Waiter(w) in s.registered);
  }

  /** A step changes no call but the one it serves or offers an event to. */
  lemma OtherCallsUntouched(s: State, t: nat, a: Action, v: nat)
    requires Enabled(s, t, a) && v in s.waits
    requires Serving(s.pcs[t]) != Some(v) && s.pcs[t] != OfferLock(v) && s.pcs[t] != OfferBody(v)
    ensures v in Next(s, t, a).waits && Next(s, t, a).waits[v] == s.waits[v]
  {}

  lemma StepKeepsResults(s: State, t: nat, a: Action, w: nat)
    requires Calls(s.pcs, s.waits) && Enabled(s, t, a) && w in s.waits && s.waits[w].result.Some?
    ensures w in Next(s, t, a).waits && Next(s, t, a).waits[w].result == s.waits[w].result
  {
    if s.pcs[t] != OfferLock(w) && s.pcs[t] != OfferBody(w) {
      OtherCallsUntouched(s, t, a, w);
    }
  }

  lemma {:induction false} RunKeepsResults(s: State, moves: seq<Move>, w: nat)
    requires Inv(s) && w in s.waits && s.waits[w].result.Some? && Exec(s, moves).Some?
    ensures w in Exec(s, moves).value.waits && Exec(s, moves).value.waits[w].result == s.waits[w].result
    decreases |moves|
  {
    if moves != [] {
      StepKeepsInv(s, moves[0].thread, moves[0].action);
      StepKeepsResults(s, moves[0].thread, moves[0].action, w);
      RunKeepsResults(Next(s, moves[0].thread, moves[0].action), moves[1..], w);
    }
  }

  lemma {:induction false} ExecConcat(s: State, moves: seq<Move>, more: seq<Move>)
    requires Exec(s, moves).Some?
    ensures Exec(s, moves + more) == Exec(Exec(s, moves).value, more)
    decreases |moves|
  {
    if moves == [] {
      assert moves + more == more;
    } else {
      ExecConcat(Next(s, moves[0].thread, moves[0].action), moves[1..], more);
      assert (moves + more)[1..] == moves[1..] + more;
    }
  }

  /** Once a timed call has returned null, nothing is ever accepted on its
      behalf, however the timeout raced with its consumer. */
  lemma NullIsFinal(threads: nat, moves: seq<Move>, s: State, more: seq<Move>, later: State, w: nat)
    requires Reached(threads, moves, s) && w in s.waits && s.waits[w].result == Some(None)
    requires Exec(s, more) == Some(later)
    ensures !DeliveredTo(later, Waiter(w))
  {
    ReachedInv(threads, moves, s);
    RunKeepsResults(s, more, w);
    ExecConcat(Init(threads), moves, more);
    ReturnsWhatWasDelivered(threads, moves + more, later, w);
  }

  /** The slot a waiter reads after giving up its data mutex is not written by
      anybody else. */
  lemma SlotReadIsSafe(s: State, t: nat, a: Action, u: nat)
    requires Inv(s) && Enabled(s, t, a) && u < |s.pcs| && u != t && s.pcs[u].Return?
    ensures var w := s.pcs[u].call;
      w in s.waits && w in Next(s, t, a).waits && Next(s, t, a).waits[w].slot == s.waits[w].slot
  {
    var w := s.pcs[u].call;
    assert Serving(s.pcs[u]) == Some(w);
    if s.pcs[t] == OfferBody(w) {
      assert Waiter(w) in s.called;
      assert Waiter(w) in s.registered;
      assert Phase(s.waits[w], s.pcs[u], true);
    } else if s.pcs[t] != OfferLock(w) {
      OtherCallsUntouched(s, t, a, w);
    }
  }

  // ----------------------------------------------------- lost wakeups, and order

  /** Whenever the queue mutex is free, no consumer is pending while an event
      is waiting, and the cursor stands in front of a pending consumer or
      everything has been reset. */
  lemma FreeMeansSettled(threads: nat, moves: seq<Move>, s: State)
    requires Reached(threads, moves, s) && s.qOwner.None?
    ensures s.queue == [] || s.index == |s.consumers|
    ensures s.index < |s.consumers| || s.index == |s.consumers| == 0
  {
    ReachedInv(threads, moves, s);
  }

  /** No lost wakeup: a waiter that sleeps without having been notified still
      awaits an event. If the queue mutex is free, its consumer is pending and
      the deque is empty; otherwise it is pending or being called just now. */
  lemma SleeperIsServed(threads: nat, moves: seq<Move>, s: State, t: nat)
    requires Reached(threads, moves, s) && t < |s.pcs| && s.pcs[t].Asleep? && !s.pcs[t].notified
    ensures var w := s.pcs[t].call; w in s.waits && s.waits[w].awaits && s.waits[w].slot.None?
    ensures s.index <= |s.consumers|
    ensures Waiter(s.pcs[t].call) in s.consumers[s.index..] || Offered(OwnerPc(s)) == Some(Waiter(s.pcs[t].call))
    ensures s.qOwner.None? ==> s.queue == []
  {
    ReachedInv(threads, moves, s);
    var w := s.pcs[t].call;
    assert Serving(s.pcs[t]) == Some(w);
    assert Phase(s.waits[w], s.pcs[t], Waiter(w) in s.registered);
    assert Waiter(w) in s.called + s.consumers[s.index..];
  }

  /** Consumers are called in the order of their registration, each at most
      once; those not called are the pending ones. */
  lemma CalledInOrder(threads: nat, moves: seq<Move>, s: State)
    requires Reached(threads, moves, s)
    ensures s.index <= |s.consumers| && s.registered == s.called + s.consumers[s.index..]
    ensures NoDuplicates(s.called)
  {
    ReachedInv(threads, moves, s);
    assert forall i | 0 <= i < |s.called| :: s.called[i] == s.registered[i];
  }

  /** front() and pop_front() meet no empty deque, and no consumer meets data
      that does not exist. */
  lemma NothingUndefined(threads: nat, moves: seq<Move>, s: State, t: nat)
    requires Reached(threads, moves, s) && t < |s.pcs|
    ensures Defined(s, s.pcs[t])
  {
    ReachedInv(threads, moves, s);
    InvDefined(s, t);
  }

  lemma InvDefined(s: State, t: nat)
    requires Inv(s) && t < |s.pcs|
    ensures Defined(s, s.pcs[t])
  {
    if Offered(s.pcs[t]).Some? {
      assert s.qOwner == Some(t);
      assert Offered(s.pcs[t]).value in s.registered;
    }
  }

  // ------------------------------------------------------------------ deadlocks

  /** Thread `t` can go on only when somebody else gives up a mutex. */
  predicate Blocked(s: State, t: nat)
    requires t < |s.pcs| && Defined(s, s.pcs[t])
  {
    var pc := s.pcs[t];
    || (WantsQueue(pc) && s.qOwner.Some?)
    || (pc.OfferLock? && s.waits[pc.call].owner.Some?)
    || (pc.Relock? && s.waits[pc.call].owner.Some?)
  }

  /** The thread that owns what the blocked thread `t` asks for. */
  function Blocker(s: State, t: nat): nat
    requires t < |s.pcs| && Defined(s, s.pcs[t]) && Blocked(s, t)
  {
    if WantsQueue(s.pcs[t]) then s.qOwner.value else s.waits[s.pcs[t].call].owner.value
  }

  predicate HoldsSomething(s: State, u: nat)
    requires u < |s.pcs|
  {
    var pc := s.pcs[u];
    HoldsQueue(pc) || pc.SecondLock? || pc.TestWait? || pc.Finish?
  }

  /** Whoever owns a data mutex that another thread asks for does not itself
      ask for the queue mutex: a consumer is published only inside the waiter's
      last section under the queue mutex. */
  lemma DataOwnersRun(s: State, t: nat)
    requires ControlInv(s) && Consumers(s) && t < |s.pcs| && Defined(s, s.pcs[t])
    requires Blocked(s, t) && !WantsQueue(s.pcs[t])
    ensures var u := Blocker(s, t);
      u < |s.pcs| && !WantsQueue(s.pcs[u]) && !s.pcs[u].OfferLock? && !s.pcs[u].Relock? && HoldsSomething(s, u)
  {
    var w := s.pcs[t].call;
    var u := Blocker(s, t);
    assert HoldsData(s.pcs[u], w);
    if s.pcs[t].OfferLock? {
      assert Waiter(w) in s.called;
      assert Waiter(w) in s.registered;
      assert Phase(s.waits[w], s.pcs[s.waits[w].thread], true);
    } else {
      assert Serving(s.pcs[t]) == Some(w);
    }
  }

  /** The wait-for chain of a blocked thread ends after one or two owners, in a
      thread that is not blocked. */
  lemma ChainEnds(s: State, t: nat) returns (u: nat)
    requires Inv(s) && t < |s.pcs| && Defined(s, s.pcs[t]) && Blocked(s, t)
    ensures u < |s.pcs| && Defined(s, s.pcs[u]) && !Blocked(s, u)
    ensures var o := Blocker(s, t);
      o < |s.pcs| && Defined(s, s.pcs[o]) && (u == o || (Blocked(s, o) && u == Blocker(s, o)))
    ensures HoldsSomething(s, u)
  {
    u := Blocker(s, t);
    InvDefined(s, u);
    if !WantsQueue(s.pcs[t]) {
      DataOwnersRun(s, t);
      InvDefined(s, u);
    } else if Blocked(s, u) {
      DataOwnersRun(s, u);
      u := Blocker(s, u);
      InvDefined(s, u);
    }
  }

  ghost predicate CanMove(s: State, u: nat) {
    exists a :: Enabled(s, u, a)
  }

  /** A thread that is neither idle, asleep nor blocked has a next step. */
  lemma UnblockedMoves(s: State, u: nat)
    requires u < |s.pcs| && Defined(s, s.pcs[u]) && !Blocked(s, u) && !s.pcs[u].Idle? && !s.pcs[u].Asleep?
    ensures CanMove(s, u)
  {
    var pc := s.pcs[u];
    var a := if (pc.Offer? && pc.to.Callback?) || (pc.RegisterBody? && s.queue != []) then Say(false) else Go;
    assert Enabled(s, u, a);
  }

  lemma ChainMoves(s: State, t: nat) returns (u: nat)
    requires Inv(s) && t < |s.pcs| && Defined(s, s.pcs[t]) && Blocked(s, t)
    ensures u < |s.pcs| && HoldsSomething(s, u) && CanMove(s, u)
  {
    u := ChainEnds(s, t);
    HoldersAreAwake(s, u);
    UnblockedMoves(s, u);
  }

  lemma HoldersAreAwake(s: State, u: nat)
    requires u < |s.pcs| && HoldsSomething(s, u)
    ensures !s.pcs[u].Idle? && !s.pcs[u].Asleep?
  {}

  /** Deadlock freedom: if a thread is blocked, a thread that holds a mutex, the
      one at the end of its wait-for chain, can take a step. */
  lemma NoDeadlock(threads: nat, moves: seq<Move>, s: State, t: nat)
    requires Reached(threads, moves, s) && t < |s.pcs|
    ensures Defined(s, s.pcs[t])
    ensures Blocked(s, t) ==> exists u: nat :: u < |s.pcs| && HoldsSomething(s, u) && CanMove(s, u)
  {
    ReachedInv(threads, moves, s);
    InvDefined(s, t);
    if Blocked(s, t) {
      var u := ChainMoves(s, t);
      assert CanMove(s, u);
    }
  }
}
