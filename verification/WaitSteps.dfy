/** Every step of the wait protocol keeps the invariant. */
module WaitSteps {
  import opened Wrappers
  import opened QueueSpec
  import opened WaitProtocol
  import opened WaitInvariant

  // ------------------------------------------------- mutexes, calls and phases

  /** What the invariant says about one thread and the call it is in. */
  predicate Local(s: State, t: nat, w: nat)
    requires t < |s.pcs| && w in s.waits
  {
    var d := s.waits[w];
    && (HoldsQueue(s.pcs[t]) <==> s.qOwner == Some(t))
    && (HoldsData(s.pcs[t], w) <==> d.owner == Some(t))
    && d.thread == t && d.result.None?
    && Phase(d, s.pcs[t], Waiter(w) in s.registered)
  }

  /** A thread inside a call of wait_event changes its own counter and its own
      call only, and goes on to the next phase. */
  lemma ServingShape(s: State, t: nat, a: Action, w: nat)
    requires Enabled(s, t, a) && Serving(s.pcs[t]) == Some(w) && w in s.waits && Local(s, t, w)
    ensures var n := Next(s, t, a);
      && w in n.waits && |n.pcs| == |s.pcs|
      && n.pcs == s.pcs[t := n.pcs[t]] && n.waits == s.waits[w := n.waits[w]]
  {}

  lemma ServingShapeCall(s: State, t: nat, a: Action, w: nat)
    requires Enabled(s, t, a) && Serving(s.pcs[t]) == Some(w) && w in s.waits && Local(s, t, w)
    ensures var n := Next(s, t, a);
      && w in n.waits && |n.pcs| == |s.pcs|
      && CallMove(s.pcs, s.waits, t, n.pcs[t], w, n.waits[w])
  {}

  lemma ServingShapeQueue(s: State, t: nat, a: Action, w: nat)
    requires Enabled(s, t, a) && Serving(s.pcs[t]) == Some(w) && w in s.waits && Local(s, t, w)
    ensures var n := Next(s, t, a);
      && |n.pcs| == |s.pcs|
      && (HoldsQueue(n.pcs[t]) <==> n.qOwner == Some(t))
      && (n.qOwner == s.qOwner || (s.qOwner.None? && n.qOwner == Some(t)) || (s.qOwner == Some(t) && n.qOwner.None?))
  {}

  lemma ServingShapeData(s: State, t: nat, a: Action, w: nat)
    requires Enabled(s, t, a) && Serving(s.pcs[t]) == Some(w) && w in s.waits && Local(s, t, w)
    ensures var n := Next(s, t, a);
      && |n.pcs| == |s.pcs| && w in n.waits
      && (HoldsData(n.pcs[t], w) <==> n.waits[w].owner == Some(t))
      && (n.waits[w].owner == s.waits[w].owner || (s.waits[w].owner.None? && n.waits[w].owner == Some(t)) ||
          (s.waits[w].owner == Some(t) && n.waits[w].owner.None?))
  {}

  lemma ServingShapePhase(s: State, t: nat, a: Action, w: nat)
    requires Enabled(s, t, a) && Serving(s.pcs[t]) == Some(w) && w in s.waits && Local(s, t, w)
    ensures var n := Next(s, t, a);
      && |n.pcs| == |s.pcs| && w in n.waits
      && Phase(n.waits[w], n.pcs[t], Waiter(w) in n.registered)
      && (forall v :: v != w ==> (Waiter(v) in n.registered <==> Waiter(v) in s.registered))
  {}

  lemma ServingKeepsMutexes(s: State, t: nat, a: Action, w: nat)
    requires QueueLocks(s.pcs, s.qOwner) && DataLocks(s.pcs, s.waits) && Enabled(s, t, a)
    requires Serving(s.pcs[t]) == Some(w) && w in s.waits && Local(s, t, w)
    ensures var n := Next(s, t, a); QueueLocks(n.pcs, n.qOwner) && DataLocks(n.pcs, n.waits)
  {
    var n := Next(s, t, a);
    ServingShape(s, t, a, w);
    ServingShapeQueue(s, t, a, w);
    ServingShapeData(s, t, a, w);
    MoveQueueLocks(s.pcs, s.qOwner, t, n.pcs[t], n.qOwner);
    MoveDataLocks(s.pcs, s.waits, t, n.pcs[t], w, n.waits[w]);
  }

  lemma ServingKeepsControl(s: State, t: nat, a: Action)
    requires ControlInv(s) && Enabled(s, t, a) && Serving(s.pcs[t]).Some?
    ensures var n := Next(s, t, a);
      QueueLocks(n.pcs, n.qOwner) && DataLocks(n.pcs, n.waits) &&
      Calls(n.pcs, n.waits) && Phases(n.pcs, n.waits, n.registered)
  {
    var n := Next(s, t, a);
    var w := Serving(s.pcs[t]).value;
    ServingKeepsMutexes(s, t, a, w);
    ServingShape(s, t, a, w);
    ServingShapeCall(s, t, a, w);
    ServingShapePhase(s, t, a, w);
    MovePhases(s.pcs, s.waits, s.registered, t, n.pcs[t], w, n.waits[w], n.registered);
  }

  /** The steps of a thread outside wait_event that touch no call at all. */
  predicate Plain(pc: Pc, a: Action) {
    Serving(pc).None? && !pc.OfferLock? && !pc.OfferBody? && !(pc.Idle? && a.StartWait?)
  }

  lemma PlainShape(s: State, t: nat, a: Action)
    requires Enabled(s, t, a) && Plain(s.pcs[t], a)
    ensures var n := Next(s, t, a);
      && n.waits == s.waits && |n.pcs| == |s.pcs| && n.pcs == s.pcs[t := n.pcs[t]]
      && Serving(n.pcs[t]).None?
      && (forall v :: !HoldsData(s.pcs[t], v) && !HoldsData(n.pcs[t], v))
  {}

  lemma PlainShapeQueue(s: State, t: nat, a: Action)
    requires Enabled(s, t, a) && Plain(s.pcs[t], a)
    requires HoldsQueue(s.pcs[t]) <==> s.qOwner == Some(t)
    ensures var n := Next(s, t, a);
      && |n.pcs| == |s.pcs|
      && (HoldsQueue(n.pcs[t]) <==> n.qOwner == Some(t))
      && (n.qOwner == s.qOwner || (s.qOwner.None? && n.qOwner == Some(t)) || (s.qOwner == Some(t) && n.qOwner.None?))
      && (forall v :: Waiter(v) in n.registered <==> Waiter(v) in s.registered)
  {}

  lemma PlainKeepsControl(s: State, t: nat, a: Action)
    requires ControlInv(s) && Enabled(s, t, a) && Plain(s.pcs[t], a)
    ensures var n := Next(s, t, a);
      QueueLocks(n.pcs, n.qOwner) && DataLocks(n.pcs, n.waits) &&
      Calls(n.pcs, n.waits) && Phases(n.pcs, n.waits, n.registered)
  {
    var n := Next(s, t, a);
    PlainShape(s, t, a);
    PlainShapeQueue(s, t, a);
    MoveQueueLocks(s.pcs, s.qOwner, t, n.pcs[t], n.qOwner);
    PassDataLocks(s.pcs, s.waits, t, n.pcs[t]);
    PassPhases(s.pcs, s.waits, s.registered, t, n.pcs[t], n.registered);
  }

  lemma StartWaitKeepsControl(s: State, t: nat, a: Action)
    requires ControlInv(s) && Tickets(s) && Enabled(s, t, a) && s.pcs[t].Idle? && a.StartWait?
    ensures var n := Next(s, t, a);
      QueueLocks(n.pcs, n.qOwner) && DataLocks(n.pcs, n.waits) &&
      Calls(n.pcs, n.waits) && Phases(n.pcs, n.waits, n.registered)
  {
    var n := Next(s, t, a);
    var d := n.waits[a.call];
    assert Waiter(a.call) !in s.registered;
    MoveQueueLocks(s.pcs, s.qOwner, t, n.pcs[t], n.qOwner);
    MoveDataLocks(s.pcs, s.waits, t, n.pcs[t], a.call, d);
    MovePhases(s.pcs, s.waits, s.registered, t, n.pcs[t], a.call, d, s.registered);
  }

  lemma OfferLockKeepsControl(s: State, t: nat, a: Action)
    requires ControlInv(s) && Consumers(s) && Enabled(s, t, a) && s.pcs[t].OfferLock?
    ensures var n := Next(s, t, a);
      QueueLocks(n.pcs, n.qOwner) && DataLocks(n.pcs, n.waits) &&
      Calls(n.pcs, n.waits) && Phases(n.pcs, n.waits, n.registered)
  {
    var n := Next(s, t, a);
    var w := s.pcs[t].call;
    assert s.qOwner == Some(t) && Waiter(w) in s.called;
    assert Waiter(w) in s.registered;
    assert Phase(s.waits[w], s.pcs[s.waits[w].thread], true);
    MoveQueueLocks(s.pcs, s.qOwner, t, n.pcs[t], n.qOwner);
    MoveDataLocks(s.pcs, s.waits, t, n.pcs[t], w, n.waits[w]);
    MovePhases(s.pcs, s.waits, s.registered, t, n.pcs[t], w, n.waits[w], s.registered);
  }

  lemma OfferBodyKeepsMutexes(s: State, t: nat, a: Action)
    requires QueueLocks(s.pcs, s.qOwner) && DataLocks(s.pcs, s.waits) && Enabled(s, t, a) && s.pcs[t].OfferBody?
    ensures var n := Next(s, t, a); QueueLocks(n.pcs, n.qOwner) && DataLocks(n.pcs, n.waits)
  {
    var n := Next(s, t, a);
    var w := s.pcs[t].call;
    var m := if s.waits[w].awaits then Notify(s, w) else s;
    NotifyKeepsMutexes(s, w);
    MoveQueueLocks(m.pcs, m.qOwner, t, n.pcs[t], n.qOwner);
    MoveDataLocks(m.pcs, m.waits, t, n.pcs[t], w, n.waits[w]);
  }

  lemma OfferBodyKeepsPhases(s: State, t: nat, a: Action)
    requires Calls(s.pcs, s.waits) && Phases(s.pcs, s.waits, s.registered) && Enabled(s, t, a)
    requires s.pcs[t].OfferBody? && Waiter(s.pcs[t].call) in s.registered
    ensures var n := Next(s, t, a); Calls(n.pcs, n.waits) && Phases(n.pcs, n.waits, n.registered)
  {
    var n := Next(s, t, a);
    var w := s.pcs[t].call;
    var d := s.waits[w];
    assert Phase(d, s.pcs[d.thread], true);
    var m := if d.awaits then Notify(s, w) else s;
    NotifyKeepsPhases(s, w);
    MovePhases(m.pcs, m.waits, m.registered, t, n.pcs[t], w, n.waits[w], m.registered);
  }

  // --------------------------------------- promises to waiters, and the records

  ghost predicate Promised(s: State) {
    Promises(s.waits, s.registered, s.called, Offered(OwnerPc(s)))
  }

  lemma ServingView(s: State, t: nat, a: Action)
    requires QueueLocks(s.pcs, s.qOwner) && Enabled(s, t, a) && Serving(s.pcs[t]).Some?
    ensures SameView(OwnerPc(s), OwnerPc(Next(s, t, a)))
  {}

  lemma PlainView(s: State, t: nat, a: Action)
    requires QueueLocks(s.pcs, s.qOwner) && Enabled(s, t, a) && Plain(s.pcs[t], a)
    requires !s.pcs[t].Drain? && !s.pcs[t].Offer?
    ensures Offered(OwnerPc(s)) == Offered(OwnerPc(Next(s, t, a)))
  {}

  lemma ServingKeepsPromises(s: State, t: nat, a: Action)
    requires ControlInv(s) && Consumers(s) && Enabled(s, t, a) && Serving(s.pcs[t]).Some?
    requires !s.pcs[t].FirstCheck? && !s.pcs[t].SecondCheck?
    ensures Promised(Next(s, t, a))
  {
    var w := Serving(s.pcs[t]).value;
    ServingView(s, t, a);
    assert Phase(s.waits[w], s.pcs[t], Waiter(w) in s.registered);
  }

  lemma CheckKeepsPromises(s: State, t: nat, a: Action)
    requires ControlInv(s) && Consumers(s) && Enabled(s, t, a)
    requires s.pcs[t].FirstCheck? || s.pcs[t].SecondCheck?
    ensures Promised(Next(s, t, a))
  {}

  lemma PlainKeepsPromises(s: State, t: nat, a: Action)
    requires ControlInv(s) && Consumers(s) && Enabled(s, t, a) && Plain(s.pcs[t], a) && !s.pcs[t].RegisterBody?
    ensures Promised(Next(s, t, a))
  {
    if s.pcs[t].Drain? {
      DrainKeepsPromises(s, t, a);
    } else if s.pcs[t].Offer? {
      OfferKeepsPromises(s, t, a);
    } else {
      PlainView(s, t, a);
      PlainRecords(s, t, a);
    }
  }

  lemma PlainRecords(s: State, t: nat, a: Action)
    requires Enabled(s, t, a) && Plain(s.pcs[t], a) && !s.pcs[t].RegisterBody? && !s.pcs[t].Drain?
    ensures var n := Next(s, t, a); n.waits == s.waits && n.registered == s.registered && n.called == s.called
  {}

  lemma DrainKeepsPromises(s: State, t: nat, a: Action)
    requires ControlInv(s) && Consumers(s) && Enabled(s, t, a) && s.pcs[t].Drain?
    ensures Promised(Next(s, t, a))
  {}

  lemma OfferKeepsPromises(s: State, t: nat, a: Action)
    requires ControlInv(s) && Enabled(s, t, a) && s.pcs[t].Offer?
    ensures Promised(Next(s, t, a))
  {}

  lemma RegisterKeepsPromises(s: State, t: nat, a: Action)
    requires ControlInv(s) && Enabled(s, t, a) && s.pcs[t].RegisterBody?
    ensures Promised(Next(s, t, a))
  {}

  lemma StartWaitKeepsPromises(s: State, t: nat, a: Action)
    requires ControlInv(s) && Tickets(s) && Enabled(s, t, a) && s.pcs[t].Idle? && a.StartWait?
    ensures Promised(Next(s, t, a))
  {}

  lemma OfferLockKeepsPromises(s: State, t: nat, a: Action)
    requires ControlInv(s) && Enabled(s, t, a) && s.pcs[t].OfferLock?
    ensures Promised(Next(s, t, a))
  {}

  /** A waiter that has been called awaits nothing any more. */
  lemma OfferBodyKeepsPromises(s: State, t: nat, a: Action)
    requires ControlInv(s) && Enabled(s, t, a) && s.pcs[t].OfferBody?
    ensures Promised(Next(s, t, a))
  {
    var n := Next(s, t, a);
    var w := s.pcs[t].call;
    assert n.waits == s.waits[w := n.waits[w]] && !n.waits[w].awaits;
    assert n.registered == s.registered && n.called == s.called;
  }

  /** The consumer to be called next has not been called. */
  lemma PendingIsUncalled(s: State)
    requires Consumers(s) && s.index < |s.consumers|
    ensures s.consumers[s.index] !in s.called
    ensures s.called + [s.consumers[s.index]] + s.consumers[s.index + 1..] == s.registered
  {
    assert s.registered[|s.called|] == s.consumers[s.index];
    assert forall i | 0 <= i < |s.called| :: s.registered[i] == s.called[i];
  }

  lemma RegisteringIsNew(xs: seq<Consumer>, c: Consumer)
    requires NoDuplicates(xs) && c !in xs
    ensures NoDuplicates(xs + [c])
  {}

  lemma ServingKeepsConsumers(s: State, t: nat, a: Action)
    requires QueueLocks(s.pcs, s.qOwner) && Consumers(s) && Enabled(s, t, a)
    requires Serving(s.pcs[t]).Some? && !s.pcs[t].FirstCheck? && !s.pcs[t].SecondCheck?
    ensures Consumers(Next(s, t, a))
  {}

  lemma CheckKeepsConsumers(s: State, t: nat, a: Action)
    requires ControlInv(s) && Consumers(s) && Enabled(s, t, a)
    requires s.pcs[t].FirstCheck? || s.pcs[t].SecondCheck?
    ensures Consumers(Next(s, t, a))
  {
    var w := s.pcs[t].call;
    assert Waiter(w) !in s.registered by { assert Phase(s.waits[w], s.pcs[t], Waiter(w) in s.registered); }
    RegisteringIsNew(s.registered, Waiter(w));
  }

  lemma PlainKeepsConsumers(s: State, t: nat, a: Action)
    requires QueueLocks(s.pcs, s.qOwner) && Consumers(s) && Enabled(s, t, a)
    requires Plain(s.pcs[t], a) && !s.pcs[t].RegisterBody? && !s.pcs[t].Drain?
    ensures Consumers(Next(s, t, a))
  {}

  lemma DrainKeepsConsumers(s: State, t: nat, a: Action)
    requires QueueLocks(s.pcs, s.qOwner) && Consumers(s) && Enabled(s, t, a) && s.pcs[t].Drain?
    ensures Consumers(Next(s, t, a))
  {
    if s.queue != [] && s.index < |s.consumers| { PendingIsUncalled(s); }
  }

  lemma RegisterKeepsConsumers(s: State, t: nat, a: Action)
    requires QueueLocks(s.pcs, s.qOwner) && Consumers(s) && Tickets(s) && Enabled(s, t, a) && s.pcs[t].RegisterBody?
    ensures Consumers(Next(s, t, a))
  {
    RegisteringIsNew(s.registered, Callback(s.pcs[t].ticket));
  }

  lemma OtherKeepsConsumers(s: State, t: nat, a: Action)
    requires QueueLocks(s.pcs, s.qOwner) && Consumers(s) && Enabled(s, t, a)
    requires Serving(s.pcs[t]).None? && !Plain(s.pcs[t], a)
    ensures Consumers(Next(s, t, a))
  {}

  lemma ServingKeepsOrder(s: State, t: nat, a: Action)
    requires QueueLocks(s.pcs, s.qOwner) && Order(s) && Enabled(s, t, a) && Serving(s.pcs[t]).Some?
    ensures Order(Next(s, t, a))
  {}

  lemma PlainKeepsOrder(s: State, t: nat, a: Action)
    requires QueueLocks(s.pcs, s.qOwner) && Order(s) && Enabled(s, t, a) && Plain(s.pcs[t], a)
    ensures Order(Next(s, t, a))
  {}

  lemma OtherKeepsOrder(s: State, t: nat, a: Action)
    requires QueueLocks(s.pcs, s.qOwner) && Order(s) && Enabled(s, t, a)
    requires Serving(s.pcs[t]).None? && !Plain(s.pcs[t], a)
    ensures Order(Next(s, t, a))
  {}

  lemma ServingKeepsTickets(s: State, t: nat, a: Action)
    requires Tickets(s) && Enabled(s, t, a) && Serving(s.pcs[t]).Some?
    ensures Tickets(Next(s, t, a))
  {}

  lemma PlainKeepsTickets(s: State, t: nat, a: Action)
    requires Tickets(s) && Enabled(s, t, a) && Plain(s.pcs[t], a) && !s.pcs[t].Idle?
    ensures Tickets(Next(s, t, a))
  {}

  lemma IdleKeepsTickets(s: State, t: nat, a: Action)
    requires Tickets(s) && Enabled(s, t, a) && s.pcs[t].Idle?
    ensures Tickets(Next(s, t, a))
  {}

  lemma OfferKeepsTickets(s: State, t: nat, a: Action)
    requires Tickets(s) && Enabled(s, t, a) && (s.pcs[t].OfferLock? || s.pcs[t].OfferBody?)
    ensures Tickets(Next(s, t, a))
  {}

  lemma ServingKeepsDeliveries(s: State, t: nat, a: Action)
    requires QueueLocks(s.pcs, s.qOwner) && Deliveries(s) && Enabled(s, t, a)
    requires Serving(s.pcs[t]).Some? && !s.pcs[t].FirstCheck? && !s.pcs[t].SecondCheck?
    ensures Deliveries(Next(s, t, a))
  {
    var n := Next(s, t, a);
    var w := Serving(s.pcs[t]).value;
    ServingView(s, t, a);
    assert n.waits == s.waits[w := n.waits[w]];
    MoveDelivered(s.delivered, s.waits, s.called, Offered(OwnerPc(s)), w, n.waits[w], Offered(OwnerPc(n)));
  }

  /** The receiver of a new delivery has had none before. */
  lemma CheckKeepsDeliveries(s: State, t: nat, a: Action)
    requires ControlInv(s) && Deliveries(s) && Enabled(s, t, a)
    requires s.pcs[t].FirstCheck? || s.pcs[t].SecondCheck?
    ensures Deliveries(Next(s, t, a))
  {
    var n := Next(s, t, a);
    var w := s.pcs[t].call;
    assert n.qOwner.None?;
    if s.queue != [] {
      assert s.waits[w].slot.None? by { assert Phase(s.waits[w], s.pcs[t], Waiter(w) in s.registered); }
      DeliverToWaiter(s.delivered, s.waits, s.called, Offered(OwnerPc(s)), w, n.waits[w], s.queue[0]);
    }
  }

  lemma PlainKeepsDeliveries(s: State, t: nat, a: Action)
    requires QueueLocks(s.pcs, s.qOwner) && Deliveries(s) && Enabled(s, t, a)
    requires Plain(s.pcs[t], a) && !s.pcs[t].RegisterBody? && !s.pcs[t].Drain? && !s.pcs[t].Offer?
    ensures Deliveries(Next(s, t, a))
  {
    PlainView(s, t, a);
  }

  /** A consumer answers without its data mutex. */
  lemma OfferKeepsDeliveries(s: State, t: nat, a: Action)
    requires QueueLocks(s.pcs, s.qOwner) && Consumers(s) && Deliveries(s) && Enabled(s, t, a) && s.pcs[t].Offer?
    ensures Deliveries(Next(s, t, a))
  {
    var n := Next(s, t, a);
    var c := s.pcs[t].to;
    assert s.qOwner == Some(t) && n.qOwner == Some(t);
    if c.Callback? && a.yes {
      DeliverToCallback(s.delivered, s.waits, s.called, Some(c), c.ticket, s.queue[0], s.called);
    }
  }

  lemma DrainKeepsDeliveries(s: State, t: nat, a: Action)
    requires QueueLocks(s.pcs, s.qOwner) && Consumers(s) && Deliveries(s) && Enabled(s, t, a) && s.pcs[t].Drain?
    ensures Deliveries(Next(s, t, a))
  {
    if s.queue != [] && s.index < |s.consumers| { PendingIsUncalled(s); }
  }

  lemma RegisterKeepsDeliveries(s: State, t: nat, a: Action)
    requires QueueLocks(s.pcs, s.qOwner) && Consumers(s) && Tickets(s) && Deliveries(s)
    requires Enabled(s, t, a) && s.pcs[t].RegisterBody?
    ensures Deliveries(Next(s, t, a))
  {
    var n := Next(s, t, a);
    var k := s.pcs[t].ticket;
    assert n.qOwner.None? && Callback(k) !in s.called;
    if s.queue != [] && a.yes {
      DeliverToCallback(s.delivered, s.waits, s.called, Offered(OwnerPc(s)), k, s.queue[0], n.called);
    }
  }

  lemma StartWaitKeepsDeliveries(s: State, t: nat, a: Action)
    requires QueueLocks(s.pcs, s.qOwner) && Deliveries(s) && Enabled(s, t, a) && s.pcs[t].Idle? && a.StartWait?
    ensures Deliveries(Next(s, t, a))
  {}

  lemma OfferLockKeepsDeliveries(s: State, t: nat, a: Action)
    requires QueueLocks(s.pcs, s.qOwner) && Deliveries(s) && Enabled(s, t, a) && s.pcs[t].OfferLock?
    ensures Deliveries(Next(s, t, a))
  {}

  lemma OfferBodyShape(s: State, t: nat, a: Action)
    requires QueueLocks(s.pcs, s.qOwner) && Enabled(s, t, a) && s.pcs[t].OfferBody?
    ensures var n := Next(s, t, a);
      var w := s.pcs[t].call;
      && w in n.waits && n.called == s.called && n.waits == s.waits[w := n.waits[w]]
      && Offered(OwnerPc(n)) == None
      && if s.waits[w].awaits then
           n.waits[w].slot == Some(s.queue[0]) && n.delivered == s.delivered + [Delivery(Waiter(w), s.queue[0])]
         else n.waits[w].slot == s.waits[w].slot && n.delivered == s.delivered
  {}

  lemma OfferBodyKeepsDeliveries(s: State, t: nat, a: Action)
    requires ControlInv(s) && Consumers(s) && Deliveries(s) && Enabled(s, t, a) && s.pcs[t].OfferBody?
    ensures Deliveries(Next(s, t, a))
  {
    var n := Next(s, t, a);
    var w := s.pcs[t].call;
    var d := s.waits[w];
    OfferBodyShape(s, t, a);
    if d.awaits {
      assert d.slot.None? by {
        assert Waiter(w) in s.registered;
        assert Phase(d, s.pcs[d.thread], true);
      }
      DeliverToWaiter(s.delivered, s.waits, s.called, Offered(OwnerPc(s)), w, n.waits[w], s.queue[0]);
    } else {
      MoveDelivered(s.delivered, s.waits, s.called, Offered(OwnerPc(s)), w, n.waits[w], None);
    }
  }

  // --------------------------------------------------------------- the invariant

  lemma StepKeepsInv(s: State, t: nat, a: Action)
    requires Inv(s) && Enabled(s, t, a)
    ensures Inv(Next(s, t, a))
  {
    var pc := s.pcs[t];
    if Serving(pc).Some? {
      ServingKeepsControl(s, t, a);
      ServingKeepsOrder(s, t, a);
      ServingKeepsTickets(s, t, a);
      if pc.FirstCheck? || pc.SecondCheck? {
        CheckKeepsPromises(s, t, a);
        CheckKeepsConsumers(s, t, a);
        CheckKeepsDeliveries(s, t, a);
      } else {
        ServingKeepsPromises(s, t, a);
        ServingKeepsConsumers(s, t, a);
        ServingKeepsDeliveries(s, t, a);
      }
    } else if Plain(pc, a) {
      PlainStepKeepsInv(s, t, a);
    } else {
      OtherStepKeepsInv(s, t, a);
    }
  }

  lemma PlainStepKeepsInv(s: State, t: nat, a: Action)
    requires Inv(s) && Enabled(s, t, a) && Plain(s.pcs[t], a)
    ensures Inv(Next(s, t, a))
  {
    var pc := s.pcs[t];
    PlainKeepsControl(s, t, a);
    PlainKeepsOrder(s, t, a);
    if pc.Idle? { IdleKeepsTickets(s, t, a); } else { PlainKeepsTickets(s, t, a); }
    if pc.RegisterBody? { RegisterKeepsPromises(s, t, a); } else { PlainKeepsPromises(s, t, a); }
    if pc.RegisterBody? {
      RegisterKeepsConsumers(s, t, a);
      RegisterKeepsDeliveries(s, t, a);
    } else if pc.Drain? {
      DrainKeepsConsumers(s, t, a);
      DrainKeepsDeliveries(s, t, a);
    } else if pc.Offer? {
      PlainKeepsConsumers(s, t, a);
      OfferKeepsDeliveries(s, t, a);
    } else {
      PlainKeepsConsumers(s, t, a);
      PlainKeepsDeliveries(s, t, a);
    }
  }

  lemma OtherStepKeepsInv(s: State, t: nat, a: Action)
    requires Inv(s) && Enabled(s, t, a) && Serving(s.pcs[t]).None? && !Plain(s.pcs[t], a)
    ensures Inv(Next(s, t, a))
  {
    OtherKeepsConsumers(s, t, a);
    OtherKeepsOrder(s, t, a);
    if s.pcs[t].Idle? {
      StartWaitKeepsControl(s, t, a);
      StartWaitKeepsPromises(s, t, a);
      StartWaitKeepsDeliveries(s, t, a);
      IdleKeepsTickets(s, t, a);
    } else {
      OfferKeepsTickets(s, t, a);
      if s.pcs[t].OfferLock? {
        OfferLockKeepsControl(s, t, a);
        OfferLockKeepsDeliveries(s, t, a);
        OfferLockKeepsPromises(s, t, a);
      } else {
        assert Waiter(s.pcs[t].call) in s.called;
        OfferBodyKeepsMutexes(s, t, a);
        OfferBodyKeepsPhases(s, t, a);
        OfferBodyKeepsDeliveries(s, t, a);
        OfferBodyKeepsPromises(s, t, a);
      }
    }
  }

  /** The invariant holds after every run. */
  lemma {:induction false} RunKeepsInv(s: State, moves: seq<Move>)
    requires Inv(s) && Exec(s, moves).Some?
    ensures Inv(Exec(s, moves).value)
    decreases |moves|
  {
    if moves != [] {
      StepKeepsInv(s, moves[0].thread, moves[0].action);
      RunKeepsInv(Next(s, moves[0].thread, moves[0].action), moves[1..]);
    }
  }
}
