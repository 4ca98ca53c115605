/** Every run is serial: under any interleaving, the operations on the queue
    might as well have happened one at a time. */
module WaitSerial {
  import opened Wrappers
  import opened QueueSpec
  import opened WaitProtocol
  import opened WaitInvariant
  import opened WaitSteps
  import opened WaitSections
  import opened WaitTheorems

  /** An operation at one stroke: queue and splice with the answers of the
      pending consumers, a returning wait_event that takes the front event, a
      consumer that is registered, and a callback that is called directly. */
  datatype Op =
    | QueueOne(event: Event, answers: seq<bool>)
    | QueueFirst(events: seq<Event>, answers: seq<bool>)
    | Take(call: nat)
    | Register(to: Consumer)
    | CallDirectly(to: Consumer, yes: bool)

  predicate Applies(v: View, op: Op) {
    match op
    case QueueOne(_, answers) => |answers| == |v.pending|
    case QueueFirst(_, answers) => |answers| == |v.pending|
    case Take(_) => v.queue != []
    case Register(_) => v.queue == []
    case CallDirectly(_, _) => v.queue != [] && v.pending == []
  }

  function Do(v: View, op: Op): View
    requires Applies(v, op)
  {
    match op
    case QueueOne(e, answers) => AllServed(v.(queue := v.queue + [e]), answers)
    case QueueFirst(es, answers) => AllServed(v.(queue := es + v.queue), answers)
    case Take(w) => v.(queue := v.queue[1..], delivered := v.delivered + [Delivery(Waiter(w), v.queue[0])])
    case Register(c) => v.(pending := v.pending + [c])
    case CallDirectly(c, yes) => AllServed(v.(pending := [c]), [yes])
  }

  function DoAll(v: View, ops: seq<Op>): Option<View>
    decreases |ops|
  {
    if ops == [] then Some(v)
    else if Applies(v, ops[0]) then DoAll(Do(v, ops[0]), ops[1..])
    else None
  }

  function EventsOf(op: Op): seq<Event> {
    match op
    case QueueOne(e, _) => [e]
    case QueueFirst(es, _) => es
    case _ => []
  }

  /** The events that the operations put into the queue. */
  function AllEvents(ops: seq<Op>): seq<Event> {
    if ops == [] then [] else EventsOf(ops[0]) + AllEvents(ops[1..])
  }

  // ------------------------------------------------ what one step is worth

  /** Somebody is inside a section of try_unqueue. */
  predicate Midway(s: State) {
    s.qOwner.Some? && s.qOwner.value < |s.pcs| && InSection(s.pcs[s.qOwner.value])
  }

  /** Where the operations have come to: the one that is midway counts as done,
      with the answers still to come. */
  function Resume(s: State, answers: seq<bool>): View
    requires s.index <= |s.consumers| && |answers| == |ViewOf(s).pending|
  {
    if Midway(s) then AllServed(ViewOf(s), answers) else ViewOf(s)
  }

  /** A step does nothing to the operations, or it is one of them. */
  predicate Worth(s: State, before: seq<bool>, op: Option<Op>, n: State, answers: seq<bool>, pushed: seq<Event>) {
    && s.index <= |s.consumers| && |before| == |ViewOf(s).pending|
    && n.index <= |n.consumers| && |answers| == |ViewOf(n).pending|
    && pushed + Pushes(OwnerPc(n)) == Pushes(OwnerPc(s)) + (if op.Some? then EventsOf(op.value) else [])
    && match op
       case None => Resume(s, before) == Resume(n, answers)
       case Some(o) => Applies(Resume(s, before), o) && Do(Resume(s, before), o) == Resume(n, answers)
  }

  /** The part of the invariant that matters here. */
  ghost predicate Recorded(s: State) {
    QueueLocks(s.pcs, s.qOwner) && Consumers(s)
  }

  lemma FreeSteps(s: State, t: nat, a: Action)
    requires QueueLocks(s.pcs, s.qOwner) && Enabled(s, t, a) && s.qOwner.None?
    ensures var n := Next(s, t, a);
      && n.queue == s.queue && n.consumers == s.consumers && n.index == s.index
      && n.called == s.called && n.delivered == s.delivered
      && Pushes(s.pcs[t]) == []
      && (n.qOwner.None? || (n.qOwner == Some(t) && t < |n.pcs|))
      && (n.qOwner.Some? ==>
            match s.pcs[t]
            case QueueLock(e) => n.pcs[t] == QueuePush(e)
            case SpliceLock(es) => n.pcs[t] == SplicePush(es)
            case _ => n.pcs[t].FirstCheck? || n.pcs[t].SecondCheck? || n.pcs[t].RegisterBody?)
  {}

  /** The view of a state in which nobody is midway. */
  function FreeView(s: State): View
    requires s.index <= |s.consumers|
  {
    View(s.queue, s.consumers[s.index..], s.called, s.delivered)
  }

  lemma OpenView(s: State)
    requires Recorded(s) && !Midway(s)
    ensures ViewOf(s) == FreeView(s) && Pushes(OwnerPc(s)) == [] && Settled(s)
  {}

  lemma SameView(s: State, n: State)
    requires s.index <= |s.consumers| && OwnerPc(s) == OwnerPc(n)
    requires n.queue == s.queue && n.consumers == s.consumers && n.index == s.index
    requires n.called == s.called && n.delivered == s.delivered
    ensures ViewOf(s) == ViewOf(n)
  {}

  lemma PushView(s: State)
    requires s.index <= |s.consumers| && Midway(s) && (OwnerPc(s).QueuePush? || OwnerPc(s).SplicePush?)
    ensures ViewOf(s) == FreeView(s).(queue := if OwnerPc(s).QueuePush? then s.queue + [OwnerPc(s).event]
                                               else OwnerPc(s).events + s.queue)
  {}

  lemma FreeStepWorth(s: State, t: nat, a: Action, answers: seq<bool>) returns (before: seq<bool>, op: Option<Op>)
    requires Recorded(s) && Enabled(s, t, a) && Recorded(Next(s, t, a)) && s.qOwner.None?
    requires var n := Next(s, t, a); n.index <= |n.consumers| && |answers| == |ViewOf(n).pending|
    ensures Worth(s, before, op, Next(s, t, a), answers, Pushes(s.pcs[t]))
  {
    var n := Next(s, t, a);
    FreeSteps(s, t, a);
    OpenView(s);
    before := answers;
    if Midway(n) {
      PushView(n);
      op := Some(EnterOp(OwnerPc(n), answers));
      EnterDoes(FreeView(s), OwnerPc(n), ViewOf(n), answers);
    } else {
      OpenView(n);
      op := None;
    }
  }

  function EnterOp(pc: Pc, answers: seq<bool>): Op
    requires pc.QueuePush? || pc.SplicePush?
  {
    if pc.QueuePush? then QueueOne(pc.event, answers) else QueueFirst(pc.events, answers)
  }

  lemma EnterDoes(v: View, pc: Pc, w: View, answers: seq<bool>)
    requires (pc.QueuePush? || pc.SplicePush?) && |answers| == |v.pending|
    requires w == v.(queue := if pc.QueuePush? then v.queue + [pc.event] else pc.events + v.queue)
    ensures var op := EnterOp(pc, answers);
      Applies(v, op) && Do(v, op) == AllServed(w, answers) && EventsOf(op) == Pushes(pc)
  {}

  lemma OtherStepWorth(s: State, t: nat, a: Action, owner: nat, answers: seq<bool>)
    requires QueueLocks(s.pcs, s.qOwner) && s.index <= |s.consumers|
    requires Enabled(s, t, a) && s.qOwner == Some(owner) && owner != t
    requires var n := Next(s, t, a); n.index <= |n.consumers| && |answers| == |ViewOf(n).pending|
    ensures Worth(s, answers, None, Next(s, t, a), answers, Pushes(s.pcs[t]))
  {
    OthersStayOut(s, t, a, owner);
    SameView(s, Next(s, t, a));
    assert !HoldsQueue(s.pcs[t]);
  }

  /** The sections that take a single step. */
  lemma ShortStep(s: State, t: nat, a: Action) returns (op: Option<Op>)
    requires Recorded(s) && Settled(s)
    requires Enabled(s, t, a) && s.qOwner == Some(t) && !InSection(s.pcs[t])
    ensures var n := Next(s, t, a);
      && n.qOwner.None? && n.index <= |n.consumers| && Pushes(s.pcs[t]) == []
      && (op.None? ==> FreeView(n) == FreeView(s))
      && (op.Some? ==>
            && EventsOf(op.value) == []
            && Applies(FreeView(s), op.value) && Do(FreeView(s), op.value) == FreeView(n))
  {
    assert HoldsQueue(s.pcs[t]);
    match s.pcs[t]
    case FirstCheck(w) => op := if s.queue != [] then Some(Take(w)) else None;
    case SecondCheck(w) => op := Some(if s.queue != [] then Take(w) else Register(Waiter(w)));
    case RegisterBody(k) =>
      RegisterIsOneServe(s, t, a);
      op := Some(if s.queue != [] then CallDirectly(Callback(k), a.yes) else Register(Callback(k)));
  }

  lemma ShortStepWorth(s: State, t: nat, a: Action, answers: seq<bool>) returns (before: seq<bool>, op: Option<Op>)
    requires Recorded(s) && Enabled(s, t, a) && Recorded(Next(s, t, a)) && s.qOwner == Some(t) && !InSection(s.pcs[t])
    requires var n := Next(s, t, a); n.index <= |n.consumers| && |answers| == |ViewOf(n).pending|
    ensures Worth(s, before, op, Next(s, t, a), answers, Pushes(s.pcs[t]))
  {
    OpenView(s);
    op := ShortStep(s, t, a);
    OpenView(Next(s, t, a));
    before := seq(|ViewOf(s).pending|, _ => false);
  }

  lemma SectionStepWorth(s: State, t: nat, a: Action, answers: seq<bool>) returns (before: seq<bool>)
    requires Recorded(s) && Enabled(s, t, a) && s.qOwner == Some(t) && InSection(s.pcs[t])
    requires var n := Next(s, t, a); n.index <= |n.consumers| && |answers| == |ViewOf(n).pending|
    ensures Worth(s, before, None, Next(s, t, a), answers, Pushes(s.pcs[t]))
  {
    var n := Next(s, t, a);
    if s.pcs[t].Unlock? {
      before := UnlockView(s, t);
    } else {
      StaysInside(s, t, a);
      before := OwnerServes(s, a, t, answers);
    }
  }

  lemma StaysInside(s: State, t: nat, a: Action)
    requires Enabled(s, t, a) && s.qOwner == Some(t) && InSection(s.pcs[t]) && !s.pcs[t].Unlock?
    ensures var n := Next(s, t, a);
      n.qOwner == Some(t) && t < |n.pcs| && InSection(n.pcs[t]) && Pushes(n.pcs[t]) == []
  {}

  lemma StepWorth(s: State, m: Move, answers: seq<bool>) returns (before: seq<bool>, op: Option<Op>)
    requires Inv(s) && Enabled(s, m.thread, m.action)
    requires var n := Next(s, m.thread, m.action); n.index <= |n.consumers| && |answers| == |ViewOf(n).pending|
    ensures Worth(s, before, op, Next(s, m.thread, m.action), answers, Pushes(s.pcs[m.thread]))
  {
    StepKeepsInv(s, m.thread, m.action);
    if s.qOwner.None? {
      before, op := FreeStepWorth(s, m.thread, m.action, answers);
    } else if s.qOwner != Some(m.thread) {
      before, op := answers, None;
      OtherStepWorth(s, m.thread, m.action, s.qOwner.value, answers);
    } else if InSection(s.pcs[m.thread]) {
      op := None;
      before := SectionStepWorth(s, m.thread, m.action, answers);
    } else {
      before, op := ShortStepWorth(s, m.thread, m.action, answers);
    }
  }

  // ------------------------------------------------------------------ whole runs

  function Prepend(op: Option<Op>, ops: seq<Op>): seq<Op> {
    if op.Some? then [op.value] + ops else ops
  }

  lemma PrependDoes(v: View, op: Option<Op>, w: View, ops: seq<Op>)
    requires if op.Some? then Applies(v, op.value) && Do(v, op.value) == w else v == w
    ensures DoAll(v, Prepend(op, ops)) == DoAll(w, ops)
    ensures AllEvents(Prepend(op, ops)) == (if op.Some? then EventsOf(op.value) else []) + AllEvents(ops)
  {
    if op.Some? { assert ([op.value] + ops)[1..] == ops; }
  }

  lemma Regroup(pushed: seq<Event>, after: seq<Event>, owner: seq<Event>, mine: seq<Event>, rest: seq<Event>)
    requires pushed + after == owner + mine
    ensures pushed + (after + rest) == owner + (mine + rest)
  {
    assert pushed + (after + rest) == (pushed + after) + rest;
    assert (owner + mine) + rest == owner + (mine + rest);
  }

  lemma {:induction false} RunWorth(s: State, moves: seq<Move>) returns (before: seq<bool>, ops: seq<Op>)
    requires Inv(s) && Exec(s, moves).Some? && Exec(s, moves).value.qOwner.None?
    ensures s.index <= |s.consumers| && |before| == |ViewOf(s).pending|
    ensures Exec(s, moves).value.index <= |Exec(s, moves).value.consumers|
    ensures DoAll(Resume(s, before), ops) == Some(ViewOf(Exec(s, moves).value))
    ensures Entered(s, moves) == Pushes(OwnerPc(s)) + AllEvents(ops)
    decreases |moves|
  {
    if moves == [] {
      before, ops := seq(|ViewOf(s).pending|, _ => false), [];
    } else {
      var m := moves[0];
      StepKeepsInv(s, m.thread, m.action);
      var answers, rest := RunWorth(Next(s, m.thread, m.action), moves[1..]);
      var op;
      before, op := StepWorth(s, m, answers);
      ops := Prepend(op, rest);
      var n := Next(s, m.thread, m.action);
      PrependDoes(Resume(s, before), op, Resume(n, answers), rest);
      Regroup(Pushes(s.pcs[m.thread]), Pushes(OwnerPc(n)), Pushes(OwnerPc(s)),
              if op.Some? then EventsOf(op.value) else [], AllEvents(rest));
    }
  }

  /** Serializability: whenever the queue mutex is free, the deque, the pending
      consumers, the calls made and the deliveries are those of whole operations
      done one after the other, and these queue the events that the run queues,
      in its order. */
  lemma RunsAreSerial(threads: nat, moves: seq<Move>, s: State)
    requires Reached(threads, moves, s) && s.qOwner.None?
    ensures s.index <= |s.consumers|
    ensures exists ops ::
      && DoAll(View([], [], [], []), ops) == Some(View(s.queue, s.consumers[s.index..], s.called, s.delivered))
      && AllEvents(ops) == Entered(Init(threads), moves)
  {
    InitInv(threads);
    var _, ops := RunWorth(Init(threads), moves);
    assert ViewOf(Init(threads)) == View([], [], [], []);
    assert AllEvents(ops) == Entered(Init(threads), moves);
  }
}
