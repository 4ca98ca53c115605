/** A section under the queue mutex ends, and to everybody else it is one
    uninterrupted call of Serve. */
module WaitSections {
  import opened Wrappers
  import opened QueueSpec
  import opened WaitProtocol
  import opened WaitInvariant
  import opened WaitSteps

  /** Threads other than its owner leave everything the queue mutex guards alone. */
  lemma OthersStayOut(s: State, t: nat, a: Action, owner: nat)
    requires QueueLocks(s.pcs, s.qOwner) && Enabled(s, t, a) && s.qOwner == Some(owner) && owner != t
    ensures var n := Next(s, t, a);
      && n.qOwner == s.qOwner && |n.pcs| == |s.pcs| && owner < |s.pcs| && n.pcs[owner] == s.pcs[owner]
      && n.queue == s.queue && n.consumers == s.consumers && n.index == s.index
      && n.called == s.called && n.delivered == s.delivered
  {}

  /** An upper bound on the steps its owner takes before it gives up the queue
      mutex. */
  function Rank(pc: Pc, pending: nat): nat {
    match pc
    case QueuePush(_) => 5 * pending + 2
    case SplicePush(_) => 5 * pending + 2
    case Drain => 5 * pending + 1
    case Offer(_) => 5 * pending + 5
    case OfferLock(_) => 5 * pending + 4
    case OfferBody(_) => 5 * pending + 3
    case Answered(_) => 5 * pending + 2
    case _ => 0
  }

  function StepsLeft(s: State): nat
    requires s.index <= |s.consumers|
  {
    Rank(OwnerPc(s), |s.consumers| - s.index)
  }

  lemma DrainProgresses(s: State, t: nat, a: Action)
    requires Consumers(s) && Enabled(s, t, a) && s.qOwner == Some(t) && s.pcs[t].Drain?
    ensures var n := Next(s, t, a);
      && n.index <= |n.consumers|
      && (n.qOwner.None? || (n.qOwner == Some(t) && StepsLeft(n) < StepsLeft(s)))
  {}

  lemma WorkProgresses(s: State, t: nat, a: Action)
    requires s.index <= |s.consumers| && Enabled(s, t, a) && s.qOwner == Some(t)
    requires HoldsQueue(s.pcs[t]) && !s.pcs[t].Drain?
    ensures var n := Next(s, t, a);
      && n.index <= |n.consumers|
      && (n.qOwner.None? || (n.qOwner == Some(t) && StepsLeft(n) < StepsLeft(s)))
  {}

  lemma OwnerProgresses(s: State, t: nat, a: Action)
    requires QueueLocks(s.pcs, s.qOwner) && Consumers(s) && Enabled(s, t, a) && s.qOwner == Some(t)
    ensures var n := Next(s, t, a);
      && n.index <= |n.consumers|
      && (n.qOwner.None? || (n.qOwner == Some(t) && StepsLeft(n) < StepsLeft(s)))
  {
    if s.pcs[t].Drain? {
      DrainProgresses(s, t, a);
    } else {
      WorkProgresses(s, t, a);
    }
  }

  /** Thread `t` owns the queue mutex before and after every one of the moves. */
  predicate Owns(s: State, moves: seq<Move>, t: nat)
    requires Exec(s, moves).Some?
    decreases |moves|
  {
    s.qOwner == Some(t) &&
    (moves == [] || Owns(Next(s, moves[0].thread, moves[0].action), moves[1..], t))
  }

  function MovesOf(moves: seq<Move>, t: nat): nat {
    if moves == [] then 0 else (if moves[0].thread == t then 1 else 0) + MovesOf(moves[1..], t)
  }

  /** However the others interleave, the owner leaves its section after a
      number of its own steps that is fixed when it enters. */
  lemma {:induction false} SectionEnds(s: State, moves: seq<Move>, t: nat)
    requires Inv(s) && Exec(s, moves).Some? && Owns(s, moves, t)
    ensures MovesOf(moves, t) <= StepsLeft(s)
    decreases |moves|
  {
    if moves != [] {
      var m := moves[0];
      StepKeepsInv(s, m.thread, m.action);
      if m.thread == t { OwnerProgresses(s, t, m.action); } else { OthersStayOut(s, m.thread, m.action, t); }
      SectionEnds(Next(s, m.thread, m.action), moves[1..], t);
    }
  }

  // ----------------------------------------------------------------- atomicity

  /** What the section of the owner still has to serve, and what it has done:
      a consumer that is being called counts as still to be called. */
  datatype View = View(queue: seq<Event>, pending: seq<Consumer>, called: seq<Consumer>, delivered: seq<Delivery>)

  function ViewOf(s: State): View
    requires s.index <= |s.consumers|
  {
    var pc := OwnerPc(s);
    var pending := s.consumers[s.index..];
    match pc
    case QueuePush(e) => View(s.queue + [e], pending, s.called, s.delivered)
    case SplicePush(es) => View(es + s.queue, pending, s.called, s.delivered)
    case _ =>
      if Offered(pc).Some? && s.called != []
      then View(s.queue, [Offered(pc).value] + pending, s.called[..|s.called| - 1], s.delivered)
      else View(Undelivered(s.queue, pc), pending, s.called, s.delivered)
  }

  /** The view after everything has been served. */
  function AllServed(v: View, answers: seq<bool>): View
    requires |answers| == |v.pending|
  {
    var r := Serve(v.queue, v.pending, answers);
    View(r.queue, r.pending, v.called + r.called, v.delivered + r.accepted)
  }

  lemma ServeOne(v: View, c: Consumer, rest: seq<Consumer>, yes: bool, answers: seq<bool>)
    requires v.queue != [] && v.pending == [c] + rest && |answers| == |rest|
    ensures AllServed(v, [yes] + answers) ==
            AllServed(View(if yes then v.queue[1..] else v.queue, rest, v.called + [c],
                        v.delivered + if yes then [Delivery(c, v.queue[0])] else []), answers)
  {
    assert v.pending[1..] == rest && ([yes] + answers)[1..] == answers;
  }

  /** Calling the next consumer, and leaving the loop, only turn the view's page. */
  lemma DrainKeepsView(s: State, t: nat, a: Action)
    requires QueueLocks(s.pcs, s.qOwner) && Consumers(s) && Enabled(s, t, a) && s.pcs[t].Drain?
    ensures var n := Next(s, t, a); n.index <= |n.consumers| && ViewOf(n) == ViewOf(s)
  {
    var n := Next(s, t, a);
    assert s.qOwner == Some(t) && n.qOwner == Some(t);
    if s.queue != [] && s.index < |s.consumers| {
      assert n.called[..|n.called| - 1] == s.called;
      assert s.consumers[s.index..] == [s.consumers[s.index]] + n.consumers[n.index..];
    }
  }

  lemma WorkKeepsView(s: State, t: nat, a: Action)
    requires QueueLocks(s.pcs, s.qOwner) && Consumers(s) && Enabled(s, t, a)
    requires s.pcs[t].QueuePush? || s.pcs[t].SplicePush? || s.pcs[t].Answered? || s.pcs[t].OfferLock? || s.pcs[t].Offer?
    requires !Next(s, t, a).pcs[t].Answered?
    ensures var n := Next(s, t, a); n.index <= |n.consumers| && ViewOf(n) == ViewOf(s)
  {
    var n := Next(s, t, a);
    assert s.qOwner == Some(t) && n.qOwner == Some(t);
  }

  /** An answer takes the consumer, and with a yes the event, off the view. */
  lemma AnswerTurnsView(s: State, t: nat, a: Action)
    requires QueueLocks(s.pcs, s.qOwner) && Consumers(s) && Enabled(s, t, a) && (s.pcs[t].Offer? || s.pcs[t].OfferBody?)
    requires Next(s, t, a).pcs[t].Answered?
    ensures var n := Next(s, t, a);
      var c := Offered(s.pcs[t]).value;
      var yes := n.pcs[t].taken;
      && n.index <= |n.consumers| && s.queue != [] && s.called != [] && c == s.called[|s.called| - 1]
      && ViewOf(s) == View(s.queue, [c] + s.consumers[s.index..], s.called[..|s.called| - 1], s.delivered)
      && ViewOf(n) == View(if yes then s.queue[1..] else s.queue, s.consumers[s.index..], s.called,
                           s.delivered + if yes then [Delivery(c, s.queue[0])] else [])
  {
    var n := Next(s, t, a);
    assert s.qOwner == Some(t) && n.qOwner == Some(t);
  }

  lemma AnswerServes(s: State, a: Action, t: nat, answers: seq<bool>) returns (before: seq<bool>)
    requires QueueLocks(s.pcs, s.qOwner) && Consumers(s) && Enabled(s, t, a) && (s.pcs[t].Offer? || s.pcs[t].OfferBody?)
    requires var n := Next(s, t, a); n.pcs[t].Answered? && n.index <= |n.consumers| && |answers| == |ViewOf(n).pending|
    ensures |before| == |ViewOf(s).pending| && AllServed(ViewOf(s), before) == AllServed(ViewOf(Next(s, t, a)), answers)
  {
    AnswerTurnsView(s, t, a);
    var c := Offered(s.pcs[t]).value;
    var yes := Next(s, t, a).pcs[t].taken;
    assert s.called == s.called[..|s.called| - 1] + [c];
    before := [yes] + answers;
    ServeOne(ViewOf(s), c, s.consumers[s.index..], yes, answers);
  }

  /** One step of the owner is one turn of Serve, or none. */
  lemma OwnerServes(s: State, a: Action, t: nat, answers: seq<bool>) returns (before: seq<bool>)
    requires QueueLocks(s.pcs, s.qOwner) && Consumers(s) && Enabled(s, t, a)
    requires Draining(s.pcs[t]) || s.pcs[t].QueuePush? || s.pcs[t].SplicePush?
    requires var n := Next(s, t, a); n.index <= |n.consumers| && |answers| == |ViewOf(n).pending|
    ensures |before| == |ViewOf(s).pending| && AllServed(ViewOf(s), before) == AllServed(ViewOf(Next(s, t, a)), answers)
  {
    before := answers;
    var n := Next(s, t, a);
    if n.pcs[t].Answered? {
      before := AnswerServes(s, a, t, answers);
    } else if s.pcs[t].Drain? {
      DrainKeepsView(s, t, a);
    } else {
      WorkKeepsView(s, t, a);
    }
  }

  /** The counters of a thread that is inside try_unqueue's section. */
  predicate InSection(pc: Pc) {
    Draining(pc) || pc.QueuePush? || pc.SplicePush? || pc.Unlock?
  }

  lemma OwnerStays(s: State, t: nat, a: Action)
    requires Enabled(s, t, a) && s.qOwner == Some(t) && InSection(s.pcs[t]) && Next(s, t, a).qOwner == Some(t)
    ensures var n := Next(s, t, a); !s.pcs[t].Unlock? && t < |n.pcs| && InSection(n.pcs[t])
  {}

  lemma UnlockView(s: State, t: nat) returns (answers: seq<bool>)
    requires QueueLocks(s.pcs, s.qOwner) && Consumers(s) && t < |s.pcs| && s.pcs[t].Unlock?
    ensures |answers| == |ViewOf(s).pending|
    ensures AllServed(ViewOf(s), answers) == View(s.queue, s.consumers[s.index..], s.called, s.delivered)
  {
    assert s.qOwner == Some(t);
    answers := seq(|ViewOf(s).pending|, _ => false);
  }

  /** What a step anywhere means for the section of the owner `t`. */
  lemma StepServes(s: State, m: Move, t: nat, answers: seq<bool>) returns (before: seq<bool>)
    requires Inv(s) && Enabled(s, m.thread, m.action) && t < |s.pcs| && s.qOwner == Some(t) && InSection(s.pcs[t])
    requires var n := Next(s, m.thread, m.action);
      n.qOwner == Some(t) && n.index <= |n.consumers| && |answers| == |ViewOf(n).pending|
    ensures |before| == |ViewOf(s).pending|
    ensures AllServed(ViewOf(s), before) == AllServed(ViewOf(Next(s, m.thread, m.action)), answers)
  {
    if m.thread == t {
      OwnerStays(s, t, m.action);
      before := OwnerServes(s, m.action, t, answers);
    } else {
      OthersStayOut(s, m.thread, m.action, t);
      before := answers;
    }
  }

  lemma StepStaysInSection(s: State, m: Move, t: nat)
    requires Inv(s) && Enabled(s, m.thread, m.action) && t < |s.pcs| && s.qOwner == Some(t) && InSection(s.pcs[t])
    requires Next(s, m.thread, m.action).qOwner == Some(t)
    ensures var n := Next(s, m.thread, m.action); Inv(n) && t < |n.pcs| && InSection(n.pcs[t])
  {
    StepKeepsInv(s, m.thread, m.action);
    if m.thread == t {
      OwnerStays(s, t, m.action);
    } else {
      OthersStayOut(s, m.thread, m.action, t);
    }
  }

  /** The section of an operation that queues or splices: entered at the push,
      left at Unlock. */
  lemma {:induction false} SectionServes(s: State, moves: seq<Move>, t: nat) returns (answers: seq<bool>)
    requires Inv(s) && Exec(s, moves).Some? && Owns(s, moves, t) && t < |s.pcs| && InSection(s.pcs[t])
    requires var end := Exec(s, moves).value; t < |end.pcs| && end.pcs[t].Unlock?
    ensures var end := Exec(s, moves).value;
      && end.index <= |end.consumers| && |answers| == |ViewOf(s).pending|
      && AllServed(ViewOf(s), answers) == View(end.queue, end.consumers[end.index..], end.called, end.delivered)
    decreases |moves|
  {
    if moves == [] {
      answers := UnlockView(s, t);
    } else {
      StepStaysInSection(s, moves[0], t);
      answers := SectionServes(Next(s, moves[0].thread, moves[0].action), moves[1..], t);
      answers := StepServes(s, moves[0], t, answers);
    }
  }

  /** Refinement: from its push to its unlock, queue(e) does to the deque, the
      consumers and the records what Serve does at one stroke, whatever the
      waiters and the other threads do in the meantime. */
  lemma QueueIsAtomic(threads: nat, before: seq<Move>, s: State, moves: seq<Move>, t: nat)
    returns (answers: seq<bool>)
    requires Exec(Init(threads), before) == Some(s)
    requires Exec(s, moves).Some? && Owns(s, moves, t) && t < |s.pcs| && s.pcs[t].QueuePush?
    requires var end := Exec(s, moves).value; t < |end.pcs| && end.pcs[t].Unlock?
    ensures s.index <= |s.consumers| && |answers| == |s.consumers| - s.index
    ensures var end := Exec(s, moves).value;
      var r := Serve(s.queue + [s.pcs[t].event], s.consumers[s.index..], answers);
      && end.index <= |end.consumers|
      && end.queue == r.queue && end.consumers[end.index..] == r.pending
      && end.called == s.called + r.called && end.delivered == s.delivered + r.accepted
  {
    InitInv(threads);
    RunKeepsInv(Init(threads), before);
    answers := SectionServes(s, moves, t);
  }

  /** Refinement of the splice at the end of handle. */
  lemma SpliceIsAtomic(threads: nat, before: seq<Move>, s: State, moves: seq<Move>, t: nat)
    returns (answers: seq<bool>)
    requires Exec(Init(threads), before) == Some(s)
    requires Exec(s, moves).Some? && Owns(s, moves, t) && t < |s.pcs| && s.pcs[t].SplicePush?
    requires var end := Exec(s, moves).value; t < |end.pcs| && end.pcs[t].Unlock?
    ensures s.index <= |s.consumers| && |answers| == |s.consumers| - s.index
    ensures var end := Exec(s, moves).value;
      var r := Serve(s.pcs[t].events + s.queue, s.consumers[s.index..], answers);
      && end.index <= |end.consumers|
      && end.queue == r.queue && end.consumers[end.index..] == r.pending
      && end.called == s.called + r.called && end.delivered == s.delivered + r.accepted
  {
    InitInv(threads);
    RunKeepsInv(Init(threads), before);
    answers := SectionServes(s, moves, t);
  }

  /** Refinement of wait_event(callback): its direct call is what Serve
      does for it alone, no other consumer being pending. */
  lemma RegisterServes(threads: nat, before: seq<Move>, s: State, t: nat, a: Action)
    requires Exec(Init(threads), before) == Some(s)
    requires Enabled(s, t, a) && s.pcs[t].RegisterBody?
    ensures s.index <= |s.consumers|
    ensures var n := Next(s, t, a);
      var c := Callback(s.pcs[t].ticket);
      var pending := s.consumers[s.index..];
      && n.index <= |n.consumers|
      && if s.queue == [] then
           && n.queue == [] && n.consumers[n.index..] == pending + [c]
           && n.called == s.called && n.delivered == s.delivered
         else
           && pending == [] && a.Say?
           && var r := Serve(s.queue, [c], [a.yes]);
           && n.queue == r.queue && n.consumers[n.index..] == r.pending
           && n.called == s.called + r.called && n.delivered == s.delivered + r.accepted
  {
    InitInv(threads);
    RunKeepsInv(Init(threads), before);
    RegisterIsOneServe(s, t, a);
  }

  lemma RegisterIsOneServe(s: State, t: nat, a: Action)
    requires QueueLocks(s.pcs, s.qOwner) && Consumers(s) && Enabled(s, t, a) && s.pcs[t].RegisterBody?
    ensures var n := Next(s, t, a);
      var c := Callback(s.pcs[t].ticket);
      var pending := s.consumers[s.index..];
      && n.index <= |n.consumers|
      && if s.queue == [] then
           && n.queue == [] && n.consumers[n.index..] == pending + [c]
           && n.called == s.called && n.delivered == s.delivered
         else
           && pending == [] && a.Say?
           && var r := Serve(s.queue, [c], [a.yes]);
           && n.queue == r.queue && n.consumers[n.index..] == r.pending
           && n.called == s.called + r.called && n.delivered == s.delivered + r.accepted
  {
    assert s.qOwner == Some(t) && Settled(s);
    if s.queue != [] {
      ServeCallback(s.queue, Callback(s.pcs[t].ticket), a.yes);
    }
  }

  lemma ServeCallback(queue: seq<Event>, c: Consumer, yes: bool)
    requires queue != []
    ensures var r := Serve(queue, [c], [yes]);
      && r.queue == (if yes then queue[1..] else queue) && r.pending == [] && r.called == [c]
      && r.accepted == if yes then [Delivery(c, queue[0])] else []
  {
    assert [c][1..] == [];
  }
}
