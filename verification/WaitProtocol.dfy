/** The queue, consumer and waiter protocol of the event manager as a
    transition system.

    Every thread has a program counter; both kinds of mutex have an owner. A
    thread takes one step at a time: it acquires a mutex that is free, or it
    does the work of one statement (and releases the mutexes that statement is
    the last to need). Events are identities; the null event is None. */
module WaitProtocol {
  import opened Wrappers
  import opened QueueSpec

  datatype Pc =
    | Idle
      // queue(e)
    | QueueLock(event: Event)
    | QueuePush(event: Event)
      // the splice at the end of handle
    | SpliceLock(events: seq<Event>)
    | SplicePush(events: seq<Event>)
      // try_unqueue, run by the two operations above under the queue mutex
    | Drain
    | Offer(to: Consumer)
    | OfferLock(call: nat)
    | OfferBody(call: nat)
    | Answered(taken: bool)
    | Unlock
      // wait_event() and wait_event(timeout)
    | FirstLock(call: nat)
    | FirstCheck(call: nat)
    | MakeData(call: nat)
    | SecondLock(call: nat)
    | SecondCheck(call: nat)
    | TestWait(call: nat)
    | Asleep(call: nat, notified: bool)
    | Relock(call: nat, timedOut: bool)
    | Finish(call: nat)
    | Return(call: nat)
      // wait_event(callback)
    | RegisterLock(ticket: nat)
    | RegisterBody(ticket: nat)

  /** One call of a returning wait_event: its result slot `ep`, and the shared
      data that its consumer refers to weakly. `live` says that the waiter
      still holds its strong reference; `owner` is the owner of data->mutex. */
  datatype Wait = Wait(thread: nat, timed: bool,
                       slot: Option<Event>, awaits: bool, live: bool, owner: Option<nat>,
                       result: Option<Option<Event>>)

  /** The last five fields record the past; no step reads them to decide what
      it does to the other fields. `order` is the order of service: everything
      ever queued, a spliced list standing in front of what was then waiting. */
  datatype State = State(
    pcs: seq<Pc>,
    qOwner: Option<nat>,
    queue: seq<Event>,
    consumers: seq<Consumer>,
    index: nat,
    waits: map<nat, Wait>,
    issued: set<nat>,
    order: seq<Event>,
    delivered: seq<Delivery>,
    registered: seq<Consumer>,
    called: seq<Consumer>)

  datatype Action =
    | StartQueue(event: Event)
    | StartSplice(events: seq<Event>)
    | StartWait(call: nat, timed: bool)
    | StartRegister(ticket: nat)
    | Go
    | Say(yes: bool)  // what a callback answers
    | Wake            // notified, or spuriously
    | TimeOut

  function Init(threads: nat): State {
    State(seq(threads, _ => Idle), None, [], [], 0, map[], {}, [], [], [], [])
  }

  predicate HoldsQueue(pc: Pc) {
    pc.QueuePush? || pc.SplicePush? || Draining(pc) || pc.Unlock? ||
    pc.FirstCheck? || pc.SecondCheck? || pc.RegisterBody?
  }

  predicate Draining(pc: Pc) {
    pc.Drain? || pc.Offer? || pc.OfferLock? || pc.OfferBody? || pc.Answered?
  }

  predicate HoldsData(pc: Pc, call: nat) {
    pc == OfferBody(call) || pc == SecondLock(call) || pc == SecondCheck(call) ||
    pc == TestWait(call) || pc == Finish(call)
  }

  /** The program counters at which the next step acquires the queue mutex. */
  predicate WantsQueue(pc: Pc) {
    pc.QueueLock? || pc.SpliceLock? || pc.FirstLock? || pc.SecondLock? || pc.RegisterLock?
  }

  /** The program counters at which the next step acquires the mutex of `call`. */
  predicate WantsData(pc: Pc, call: nat) {
    pc == OfferLock(call) || (pc.Relock? && pc.call == call)
  }

  /** The call of wait_event a thread is in, if it is in one. */
  function Serving(pc: Pc): Option<nat> {
    match pc
    case FirstLock(w) => Some(w)
    case FirstCheck(w) => Some(w)
    case MakeData(w) => Some(w)
    case SecondLock(w) => Some(w)
    case SecondCheck(w) => Some(w)
    case TestWait(w) => Some(w)
    case Asleep(w, _) => Some(w)
    case Relock(w, _) => Some(w)
    case Finish(w) => Some(w)
    case Return(w) => Some(w)
    case _ => None
  }

  /** What the statement at `pc` takes for granted: front() and pop_front()
      need a non-empty deque, and the data of a call must exist. */
  predicate Defined(s: State, pc: Pc) {
    match pc
    case Offer(Callback(_)) => s.queue != []
    case Offer(Waiter(w)) => s.queue != [] && w in s.waits
    case OfferLock(w) => w in s.waits
    case OfferBody(w) => s.queue != [] && w in s.waits && s.waits[w].thread < |s.pcs|
    case Answered(taken) => taken ==> s.queue != []
    case _ => Serving(pc).Some? ==> Serving(pc).value in s.waits
  }

  /** Whether thread `t` can do action `a` next: a free mutex where it acquires
      one, a fresh name where an operation starts. */
  predicate Enabled(s: State, t: nat, a: Action) {
    t < |s.pcs| && Defined(s, s.pcs[t]) &&
    var pc := s.pcs[t];
    match pc
    case Idle =>
      (match a
       case StartQueue(_) => true
       case StartSplice(_) => true
       case StartWait(w, _) => w !in s.waits
       case StartRegister(k) => k !in s.issued
       case _ => false)
    case Offer(c) => if c.Waiter? then a.Go? else a.Say?
    case OfferLock(w) => a.Go? && s.waits[w].owner.None?
    case Asleep(w, _) => a.Wake? || (a.TimeOut? && s.waits[w].timed)
    case Relock(w, _) => a.Go? && s.waits[w].owner.None?
    case RegisterBody(_) => if s.queue == [] then a.Go? else a.Say?
    case _ => a.Go? && (WantsQueue(pc) ==> s.qOwner.None?)
  }

  function Goto(s: State, t: nat, pc: Pc): State
    requires t < |s.pcs|
  {
    s.(pcs := s.pcs[t := pc])
  }

  function Record(s: State, to: Consumer, event: Event): State {
    s.(delivered := s.delivered + [Delivery(to, event)])
  }

  /** notify_all on the condition variable of `call`. */
  function Notify(s: State, call: nat): State
    requires call in s.waits && s.waits[call].thread < |s.pcs|
  {
    var waiter := s.waits[call].thread;
    if s.pcs[waiter].Asleep? && s.pcs[waiter].call == call
    then Goto(s, waiter, Asleep(call, true)) else s
  }

  function StartOperation(s: State, t: nat, a: Action): State
    requires t < |s.pcs| && s.pcs[t].Idle? && Enabled(s, t, a)
  {
    match a
    case StartQueue(e) => Goto(s, t, QueueLock(e))
    case StartSplice(es) => Goto(s, t, SpliceLock(es))
    case StartWait(w, timed) =>
      Goto(s, t, FirstLock(w)).(waits := s.waits[w := Wait(t, timed, None, false, false, None, None)])
    case StartRegister(k) => Goto(s, t, RegisterLock(k)).(issued := s.issued + {k})
  }

  /** The top of the loop in try_unqueue, and the reset behind the loop. */
  function DrainStep(s: State, t: nat): State
    requires t < |s.pcs|
  {
    if s.queue != [] && s.index < |s.consumers| then
      var c := s.consumers[s.index];
      Goto(s, t, Offer(c)).(index := s.index + 1, called := s.called + [c])
    else if s.index != 0 && s.index == |s.consumers| then
      Goto(s, t, Unlock).(consumers := [], index := 0)
    else
      Goto(s, t, Unlock)
  }

  /** A consumer is called. The closure of a waiter first tries to turn its weak
      reference into a strong one. */
  function OfferStep(s: State, t: nat, a: Action): State
    requires t < |s.pcs| && s.pcs[t].Offer? && Enabled(s, t, a)
  {
    match s.pcs[t].to
    case Waiter(w) => if s.waits[w].live then Goto(s, t, OfferLock(w)) else Goto(s, t, Answered(false))
    case Callback(k) =>
      if a.yes then Record(Goto(s, t, Answered(true)), Callback(k), s.queue[0]) else Goto(s, t, Answered(false))
  }

  function OfferBodyStep(s: State, t: nat, w: nat): State
    requires t < |s.pcs| && Defined(s, s.pcs[t]) && s.pcs[t] == OfferBody(w)
  {
    var d := s.waits[w];
    if d.awaits then
      Record(Goto(Notify(s, w), t, Answered(true)), Waiter(w), s.queue[0])
        .(waits := s.waits[w := d.(slot := Some(s.queue[0]), awaits := false, owner := None)])
    else
      Goto(s, t, Answered(false)).(waits := s.waits[w := d.(owner := None)])
  }

  /** The waiter takes the front event itself, leaving the critical section. */
  function TakeFront(s: State, t: nat, w: nat): State
    requires t < |s.pcs| && w in s.waits && s.queue != []
  {
    Record(Goto(s, t, Return(w)), Waiter(w), s.queue[0])
      .(queue := s.queue[1..], qOwner := None,
        waits := s.waits[w := s.waits[w].(slot := Some(s.queue[0]), owner := None)])
  }

  function SecondCheckStep(s: State, t: nat, w: nat): State
    requires t < |s.pcs| && w in s.waits
  {
    if s.queue != [] then TakeFront(s, t, w)
    else
      Goto(s, t, TestWait(w))
        .(qOwner := None, consumers := s.consumers + [Waiter(w)], registered := s.registered + [Waiter(w)])
  }

  /** wait_event(callback): a direct call when an event is there, registration otherwise. */
  function RegisterStep(s: State, t: nat, k: nat, a: Action): State
    requires t < |s.pcs| && (s.queue != [] ==> a.Say?)
  {
    var left := Goto(s, t, Idle).(qOwner := None, registered := s.registered + [Callback(k)]);
    if s.queue == [] then left.(consumers := s.consumers + [Callback(k)])
    else
      var direct := left.(called := s.called + [Callback(k)]);
      if a.yes then Record(direct, Callback(k), s.queue[0]).(queue := s.queue[1..]) else direct
  }

  /** The state after thread `t` does action `a`. */
  function Next(s: State, t: nat, a: Action): State
    requires Enabled(s, t, a)
  {
    match s.pcs[t]
    case Idle => StartOperation(s, t, a)
    case QueueLock(e) => Goto(s, t, QueuePush(e)).(qOwner := Some(t))
    case QueuePush(e) => Goto(s, t, Drain).(queue := s.queue + [e], order := s.order + [e])
    case SpliceLock(es) => Goto(s, t, SplicePush(es)).(qOwner := Some(t))
    case SplicePush(es) =>
      var n := if |s.delivered| <= |s.order| then |s.delivered| else |s.order|;
      Goto(s, t, Drain).(queue := es + s.queue, order := s.order[..n] + es + s.order[n..])
    case Drain => DrainStep(s, t)
    case Offer(_) => OfferStep(s, t, a)
    case OfferLock(w) => Goto(s, t, OfferBody(w)).(waits := s.waits[w := s.waits[w].(owner := Some(t))])
    case OfferBody(w) => OfferBodyStep(s, t, w)
    case Answered(taken) => Goto(s, t, Drain).(queue := if taken then s.queue[1..] else s.queue)
    case Unlock => Goto(s, t, Idle).(qOwner := None)
    case FirstLock(w) => Goto(s, t, FirstCheck(w)).(qOwner := Some(t))
    case FirstCheck(w) => if s.queue != [] then TakeFront(s, t, w) else Goto(s, t, MakeData(w)).(qOwner := None)
    case MakeData(w) =>
      Goto(s, t, SecondLock(w)).(waits := s.waits[w := s.waits[w].(awaits := true, live := true, owner := Some(t))])
    case SecondLock(w) => Goto(s, t, SecondCheck(w)).(qOwner := Some(t))
    case SecondCheck(w) => SecondCheckStep(s, t, w)
    case TestWait(w) =>
      if s.waits[w].awaits
      then Goto(s, t, Asleep(w, false)).(waits := s.waits[w := s.waits[w].(owner := None)])
      else Goto(s, t, Finish(w))
    case Asleep(w, _) => Goto(s, t, Relock(w, a.TimeOut?))
    case Relock(w, timedOut) =>
      Goto(s, t, if timedOut then Finish(w) else TestWait(w)).(waits := s.waits[w := s.waits[w].(owner := Some(t))])
    case Finish(w) =>
      var d := s.waits[w];
      Goto(s, t, Return(w)).(waits := s.waits[w := d.(awaits := d.awaits && !d.timed, owner := None)])
    case Return(w) =>
      var d := s.waits[w];
      Goto(s, t, Idle).(waits := s.waits[w := d.(live := false, result := Some(d.slot))])
    case RegisterLock(k) => Goto(s, t, RegisterBody(k)).(qOwner := Some(t))
    case RegisterBody(k) => RegisterStep(s, t, k, a)
  }

  /** One step of a run: who moves, and how. */
  datatype Move = Move(thread: nat, action: Action)

  /** The state after the moves, if each is enabled in turn. */
  function Exec(s: State, moves: seq<Move>): Option<State>
    decreases |moves|
  {
    if moves == [] then Some(s)
    else if Enabled(s, moves[0].thread, moves[0].action)
    then Exec(Next(s, moves[0].thread, moves[0].action), moves[1..])
    else None
  }
}
