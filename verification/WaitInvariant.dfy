/** What holds in every reachable state of the wait protocol, in parts that
    each look at a few fields of the state only. */
module WaitInvariant {
  import opened Wrappers
  import opened QueueSpec
  import opened WaitProtocol

  ghost predicate NoDuplicates<T>(xs: seq<T>) {
    forall i, j | 0 <= i < j < |xs| :: xs[i] != xs[j]
  }

  /** What the owner of the queue mutex is doing; Idle if the mutex is free. */
  function OwnerPc(s: State): Pc {
    if s.qOwner.Some? && s.qOwner.value < |s.pcs| then s.pcs[s.qOwner.value] else Idle
  }

  /** The consumer that is being called at `pc`. */
  function Offered(pc: Pc): Option<Consumer> {
    match pc
    case Offer(c) => Some(c)
    case OfferLock(w) => Some(Waiter(w))
    case OfferBody(w) => Some(Waiter(w))
    case _ => None
  }

  function Registering(pc: Pc): Option<nat> {
    match pc
    case RegisterLock(k) => Some(k)
    case RegisterBody(k) => Some(k)
    case _ => None
  }

  /** The events still to be delivered: an accepted one stays at the front of
      the deque until the loop pops it. */
  function Undelivered(queue: seq<Event>, owner: Pc): seq<Event> {
    if owner == Answered(true) && queue != [] then queue[1..] else queue
  }

  // ---------------------------------------------------------------- mutexes

  ghost predicate QueueLocks(pcs: seq<Pc>, qOwner: Option<nat>) {
    && (qOwner.Some? ==> qOwner.value < |pcs| && HoldsQueue(pcs[qOwner.value]))
    && (forall t | 0 <= t < |pcs| :: HoldsQueue(pcs[t]) ==> qOwner == Some(t))
  }

  ghost predicate DataLocks(pcs: seq<Pc>, waits: map<nat, Wait>) {
    && (forall w | w in waits && waits[w].owner.Some? ::
          waits[w].owner.value < |pcs| && HoldsData(pcs[waits[w].owner.value], w))
    && (forall t, w | 0 <= t < |pcs| && HoldsData(pcs[t], w) :: w in waits && waits[w].owner == Some(t))
  }

  // ------------------------------------------------------ calls of wait_event

  /** A call in progress has its own thread, which is in no other call. */
  ghost predicate Calls(pcs: seq<Pc>, waits: map<nat, Wait>) {
    && (forall t | 0 <= t < |pcs| && Serving(pcs[t]).Some? ::
          var w := Serving(pcs[t]).value;
          w in waits && waits[w].thread == t && waits[w].result.None?)
    && (forall w | w in waits ::
          waits[w].thread < |pcs| &&
          (waits[w].result.None? ==> Serving(pcs[waits[w].thread]) == Some(w)))
  }

  /** How far a call has come, told from its thread's counter. */
  predicate Phase(d: Wait, pc: Pc, published: bool) {
    if d.result.Some? then
      d.result.value == d.slot && !d.live && (published ==> !d.awaits) && (!d.timed ==> d.slot.Some?)
    else if pc.FirstLock? || pc.FirstCheck? || pc.MakeData? then
      !published && d.slot.None? && !d.live && !d.awaits && d.owner.None?
    else if pc.SecondLock? || pc.SecondCheck? then
      !published && d.slot.None? && d.live && d.awaits
    else if pc.Return? then
      (published ==> !d.awaits) && (!d.timed ==> d.slot.Some?)
    else
      && published && d.live && (d.awaits <==> d.slot.None?)
      && (pc.Asleep? && !pc.notified ==> d.awaits)
      && (pc.Relock? && pc.timedOut ==> d.timed)
      && (pc.Finish? && !d.timed ==> !d.awaits)
  }

  ghost predicate Phases(pcs: seq<Pc>, waits: map<nat, Wait>, registered: seq<Consumer>)
    requires Calls(pcs, waits)
  {
    forall w | w in waits :: Phase(waits[w], pcs[waits[w].thread], Waiter(w) in registered)
  }

  /** The consumer of a call that awaits an event is still to be called, or is
      being called. */
  ghost predicate Promises(waits: map<nat, Wait>, registered: seq<Consumer>, called: seq<Consumer>,
                           offered: Option<Consumer>) {
    forall w | w in waits && waits[w].awaits && Waiter(w) in registered ::
      Waiter(w) !in called || offered == Some(Waiter(w))
  }

  // ------------------------------------------------- deque, consumers and past

  /** The deque or the list of pending consumers is empty, and a list that is
      used up has been reset. */
  ghost predicate Settled(s: State) {
    && (s.queue == [] || s.index == |s.consumers|)
    && (s.index < |s.consumers| || s.index == |s.consumers| == 0)
  }

  ghost predicate Consumers(s: State) {
    var owner := OwnerPc(s);
    && s.index <= |s.consumers|
    && s.registered == s.called + s.consumers[s.index..]
    && NoDuplicates(s.registered)
    && (!Draining(owner) ==> Settled(s))
    && (Offered(owner).Some? ==> s.queue != [] && s.called != [] && s.called[|s.called| - 1] == Offered(owner).value)
    && (owner == Answered(true) ==> s.queue != [])
  }

  /** Calls and callback tickets are registered once. */
  ghost predicate Tickets(s: State) {
    && (forall c | c in s.registered :: if c.Waiter? then c.call in s.waits else c.ticket in s.issued)
    && (forall t | 0 <= t < |s.pcs| && Registering(s.pcs[t]).Some? ::
          Registering(s.pcs[t]).value in s.issued && Callback(Registering(s.pcs[t]).value) !in s.registered)
    && (forall t, u | 0 <= t < u < |s.pcs| && Registering(s.pcs[t]).Some? ::
          Registering(s.pcs[t]) != Registering(s.pcs[u]))
  }

  /** Every delivery has its receiver, every filled slot its delivery, and no
      receiver has two. */
  ghost predicate Delivered(ds: seq<Delivery>, waits: map<nat, Wait>, called: seq<Consumer>,
                            offered: Option<Consumer>) {
    && (forall d | d in ds ::
          if d.to.Waiter? then d.to.call in waits && waits[d.to.call].slot == Some(d.event)
          else d.to in called && offered != Some(d.to))
    && (forall w | w in waits && waits[w].slot.Some? :: Delivery(Waiter(w), waits[w].slot.value) in ds)
    && (forall i, j | 0 <= i < j < |ds| :: ds[i].to != ds[j].to)
  }

  ghost predicate Deliveries(s: State) {
    Delivered(s.delivered, s.waits, s.called, Offered(OwnerPc(s)))
  }

  ghost predicate Order(s: State) {
    Events(s.delivered) + Undelivered(s.queue, OwnerPc(s)) == s.order
  }

  ghost predicate ControlInv(s: State) {
    && QueueLocks(s.pcs, s.qOwner) && DataLocks(s.pcs, s.waits) && Calls(s.pcs, s.waits)
    && Phases(s.pcs, s.waits, s.registered)
    && Promises(s.waits, s.registered, s.called, Offered(OwnerPc(s)))
  }

  ghost predicate Inv(s: State) {
    ControlInv(s) && Consumers(s) && Tickets(s) && Deliveries(s) && Order(s)
  }

  lemma InitInv(threads: nat)
    ensures Inv(Init(threads))
  {
    assert Init(threads).registered == [];
  }

  // ------------------------------------- one thread moves, one call is updated

  lemma MoveQueueLocks(pcs: seq<Pc>, qOwner: Option<nat>, t: nat, pc: Pc, newOwner: Option<nat>)
    requires QueueLocks(pcs, qOwner) && t < |pcs|
    requires HoldsQueue(pc) <==> newOwner == Some(t)
    requires newOwner == qOwner || (qOwner.None? && newOwner == Some(t)) || (qOwner == Some(t) && newOwner.None?)
    ensures QueueLocks(pcs[t := pc], newOwner)
  {}

  function OwnerOf(waits: map<nat, Wait>, w: nat): Option<nat> {
    if w in waits then waits[w].owner else None
  }

  lemma MoveDataLocks(pcs: seq<Pc>, waits: map<nat, Wait>, t: nat, pc: Pc, w: nat, d: Wait)
    requires DataLocks(pcs, waits) && t < |pcs|
    requires forall v :: v != w ==> !HoldsData(pcs[t], v) && !HoldsData(pc, v)
    requires HoldsData(pc, w) <==> d.owner == Some(t)
    requires d.owner == OwnerOf(waits, w) || (OwnerOf(waits, w).None? && d.owner == Some(t)) ||
             (OwnerOf(waits, w) == Some(t) && d.owner.None?)
    ensures DataLocks(pcs[t := pc], waits[w := d])
  {}

  lemma PassDataLocks(pcs: seq<Pc>, waits: map<nat, Wait>, t: nat, pc: Pc)
    requires DataLocks(pcs, waits) && t < |pcs|
    requires forall v :: !HoldsData(pcs[t], v) && !HoldsData(pc, v)
    ensures DataLocks(pcs[t := pc], waits)
  {}

  /** The call `w` begins, ends or goes on as thread `t` moves to `pc`. */
  predicate CallMove(pcs: seq<Pc>, waits: map<nat, Wait>, t: nat, pc: Pc, w: nat, d: Wait)
    requires t < |pcs|
  {
    if w !in waits then
      Serving(pcs[t]).None? && Serving(pc) == Some(w) && d.thread == t && d.result.None?
    else
      d.thread == waits[w].thread &&
      if Serving(pc) == Serving(pcs[t]) then
        (Serving(pc).None? || Serving(pc) == Some(w)) && d.result == waits[w].result
      else
        Serving(pcs[t]) == Some(w) && Serving(pc).None? && d.result.Some?
  }

  lemma MoveCalls(pcs: seq<Pc>, waits: map<nat, Wait>, t: nat, pc: Pc, w: nat, d: Wait)
    requires Calls(pcs, waits) && t < |pcs| && CallMove(pcs, waits, t, pc, w, d)
    ensures Calls(pcs[t := pc], waits[w := d])
  {}

  lemma PassCalls(pcs: seq<Pc>, waits: map<nat, Wait>, t: nat, pc: Pc)
    requires Calls(pcs, waits) && t < |pcs| && Serving(pc) == Serving(pcs[t]) == None
    ensures Calls(pcs[t := pc], waits)
  {}

  lemma MovePhases(pcs: seq<Pc>, waits: map<nat, Wait>, registered: seq<Consumer>,
                   t: nat, pc: Pc, w: nat, d: Wait, now: seq<Consumer>)
    requires Calls(pcs, waits) && t < |pcs| && CallMove(pcs, waits, t, pc, w, d)
    requires Phases(pcs, waits, registered)
    requires forall v :: v != w ==> (Waiter(v) in now <==> Waiter(v) in registered)
    requires d.thread < |pcs| && Phase(d, pcs[t := pc][d.thread], Waiter(w) in now)
    ensures Calls(pcs[t := pc], waits[w := d])
    ensures Phases(pcs[t := pc], waits[w := d], now)
  {
    MoveCalls(pcs, waits, t, pc, w, d);
  }

  lemma PassPhases(pcs: seq<Pc>, waits: map<nat, Wait>, registered: seq<Consumer>, t: nat, pc: Pc, now: seq<Consumer>)
    requires Calls(pcs, waits) && t < |pcs| && Serving(pc) == Serving(pcs[t]) == None
    requires Phases(pcs, waits, registered)
    requires forall v :: Waiter(v) in now <==> Waiter(v) in registered
    ensures Calls(pcs[t := pc], waits)
    ensures Phases(pcs[t := pc], waits, now)
  {
    PassCalls(pcs, waits, t, pc);
  }

  lemma MoveDelivered(ds: seq<Delivery>, waits: map<nat, Wait>, called: seq<Consumer>, offered: Option<Consumer>,
                      w: nat, d: Wait, now: Option<Consumer>)
    requires Delivered(ds, waits, called, offered)
    requires if w in waits then d.slot == waits[w].slot else d.slot.None?
    requires now == offered || now.None? || now.value.Waiter?
    ensures Delivered(ds, waits[w := d], called, now)
  {}

  lemma DeliverToWaiter(ds: seq<Delivery>, waits: map<nat, Wait>, called: seq<Consumer>, offered: Option<Consumer>,
                        w: nat, d: Wait, event: Event)
    requires Delivered(ds, waits, called, offered)
    requires w in waits && waits[w].slot.None? && d.slot == Some(event)
    ensures Delivered(ds + [Delivery(Waiter(w), event)], waits[w := d], called, None)
  {}

  lemma DeliverToCallback(ds: seq<Delivery>, waits: map<nat, Wait>, called: seq<Consumer>, offered: Option<Consumer>,
                          k: nat, event: Event, now: seq<Consumer>)
    requires Delivered(ds, waits, called, offered)
    requires Callback(k) in now && (Callback(k) !in called || offered == Some(Callback(k)))
    requires forall c | c in called :: c in now
    ensures Delivered(ds + [Delivery(Callback(k), event)], waits, now, None)
  {}

  /** The three facts about the owner of the queue mutex that matter to the records. */
  predicate SameView(before: Pc, after: Pc) {
    && Offered(before) == Offered(after)
    && (Draining(before) <==> Draining(after))
    && (before == Answered(true) <==> after == Answered(true))
  }

  /** Waking a sleeper leaves everything else as it is. */
  lemma NotifyKeepsMutexes(s: State, w: nat)
    requires QueueLocks(s.pcs, s.qOwner) && DataLocks(s.pcs, s.waits) && w in s.waits && s.waits[w].thread < |s.pcs|
    ensures var n := Notify(s, w); QueueLocks(n.pcs, n.qOwner) && DataLocks(n.pcs, n.waits)
  {
    var n := Notify(s, w);
    var u := s.waits[w].thread;
    if n != s {
      MoveQueueLocks(s.pcs, s.qOwner, u, n.pcs[u], s.qOwner);
      PassDataLocks(s.pcs, s.waits, u, n.pcs[u]);
    }
  }

  lemma NotifyKeepsPhases(s: State, w: nat)
    requires Calls(s.pcs, s.waits) && Phases(s.pcs, s.waits, s.registered) && w in s.waits
    ensures var n := Notify(s, w);
      |n.pcs| == |s.pcs| && Calls(n.pcs, n.waits) && Phases(n.pcs, n.waits, n.registered)
  {
    var n := Notify(s, w);
    var u := s.waits[w].thread;
    if n != s {
      MovePhases(s.pcs, s.waits, s.registered, u, n.pcs[u], w, s.waits[w], s.registered);
      assert s.waits[w := s.waits[w]] == s.waits;
    }
  }
}
