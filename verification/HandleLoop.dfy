/** handle as the event manager runs it, on the stored id queue of the event. */
module HandleLoop {
  import opened Wrappers
  import opened EventIds
  import opened IdQueue
  import opened HandleTrace
  import opened HandlerSpec
  import opened QueueSpec
  import Q = EventQueue

  class Event {
    const ids: IdQueue
    var current: EventId
    var afterwards: Option<seq<nat>>  // the handle_afterwards component
    ghost var seen: seq<EventId>      // the current id at each dispatch, in order

    ghost predicate Valid()
      reads this, Parts()
    {
      ids.Valid()
    }

    ghost function Parts(): set<object>
      reads ids, ids.queued
    {
      {ids, ids.queued, ids.queued.items}
    }

    ghost function Sum(): Summary
      reads this, Parts()
    {
      Summary(ids.Live(), seen, afterwards)
    }

    constructor (original: EventId)
      requires IsValid(original)
      ensures Valid() && fresh(Parts())
      ensures ids.Live() == [original] && current == NoEvent && afterwards == None && seen == []
    {
      ids := new IdQueue(original);
      current := NoEvent;
      afterwards := None;
      seen := [];
    }

    /** afterwards(e) */
    method Afterwards(e: nat)
      modifies this`afterwards
      ensures afterwards == Registers(old(afterwards), [e])
    {
      if afterwards.None? {
        afterwards := Some([]);
      }
      afterwards := Some(afterwards.value + [e]);
    }

    /** handle_as(id), where the handlers connected to id do `ops` */
    method HandleAs(id: EventId, ops: seq<Op>)
      requires Valid()
      modifies this, Parts()
      ensures Valid() && ids.queued == old(ids.queued) && fresh(Parts() - old(Parts()))
      ensures Sum() == AfterOp(old(Sum()), Nested(id, ops)) && current == old(current)
      decreases ops, 2
    {
      NestedOps(Sum(), id, ops);
      var saved := current;
      current := id;
      seen := seen + [current];
      RunHandlers(ops);
      current := saved;
    }

    method RunHandler(op: Op)
      requires Valid()
      modifies this, Parts()
      ensures Valid() && ids.queued == old(ids.queued) && fresh(Parts() - old(Parts()))
      ensures Sum() == AfterOp(old(Sum()), op) && current == old(current)
      decreases op, 3
    {
      match op
      case QueueId(id, strategy, position) =>
        var _ := ids.QueueAs(id, strategy, position);
        assert seen == old(seen) + [];
      case QueueIds(more, strategy, position) =>
        var _ := ids.QueueRangeAs(more, strategy, position);
        assert seen == old(seen) + [];
      case Nested(id, inner) => HandleAs(id, inner);
      case After(e) =>
        Afterwards(e);
        assert seen == old(seen) + [];
    }

    method RunHandlers(ops: seq<Op>)
      requires Valid()
      modifies this, Parts()
      ensures Valid() && ids.queued == old(ids.queued) && fresh(Parts() - old(Parts()))
      ensures Sum() == AfterOps(old(Sum()), ops) && current == old(current)
      decreases ops, 1
    {
      if ops == [] {
        assert seen == old(seen) + [];
      } else {
        OpsInTurn(Sum(), ops);
        RunHandler(ops[0]);
        RunHandlers(ops[1..]);
      }
    }
  }

  /** What the event owes to the dispatches in `log`, from `start` on. */
  ghost predicate Accounts(s: Summary, log: seq<Entry>, start: Summary, behave: Behaviour) {
    && s.seen == start.seen + Seen(log, |log|, behave)
    && s.after == Registers(start.after, Registered(log, |log|, behave))
  }

  function Left(log: seq<Entry>, behave: Behaviour): seq<EventId>
    requires log != []
  {
    EffectAt(log, |log| - 1, behave).live
  }

  lemma AccountsGrow(s: Summary, log: seq<Entry>, start: Summary, behave: Behaviour, site: Site)
    requires Accounts(s, log, start, behave)
    ensures var longer := log + [Entry(site, s.live)];
      var ops := behave(|log|, site);
      Accounts(AfterOp(s, Nested(SignalOf(site), ops)), longer, start, behave) &&
      AfterOp(s, Nested(SignalOf(site), ops)).live == Left(longer, behave)
  {
    var e := Entry(site, s.live);
    var longer := log + [e];
    var r := RunOps(behave(|log|, site), s.live);
    RecordsOfPrefix(log, e, |log|, behave);
    assert EffectAt(longer, |log|, behave) == r;
    assert Seen(longer, |log| + 1, behave) == Seen(log, |log|, behave) + [SignalOf(site)] + r.seen;
    assert start.seen + Seen(log, |log|, behave) + ([SignalOf(site)] + r.seen) ==
           start.seen + Seen(longer, |log| + 1, behave);
    RegistersInTurn(start.after, Registered(log, |log|, behave), r.after);
  }

  /** One dispatch of handle, the n-th. */
  method DispatchAt(e: Event, site: Site, n: nat, behave: Behaviour, ghost log: seq<Entry>, ghost start: Summary)
    returns (ghost longer: seq<Entry>)
    requires e.Valid() && Accounts(e.Sum(), log, start, behave) && n == |log|
    requires if log == [] then site == Begin && e.ids.Live() == start.live
             else Log(log, start.live, behave) && Adjacent(log[|log| - 1].site, site) &&
                  Follows(Left(log, behave), Entry(site, e.ids.Live()))
    modifies e, e.Parts()
    ensures e.Valid() && e.ids.queued == old(e.ids.queued) && fresh(e.Parts() - old(e.Parts()))
    ensures e.current == old(e.current)
    ensures longer == log + [Entry(site, old(e.ids.Live()))] && Log(longer, start.live, behave)
    ensures Accounts(e.Sum(), longer, start, behave) && e.ids.Live() == Left(longer, behave)
  {
    ghost var entry := Entry(site, e.ids.Live());
    AccountsGrow(e.Sum(), log, start, behave, site);
    if log != [] { LogGrows(log, start.live, behave, entry); }
    longer := log + [entry];
    e.HandleAs(SignalOf(site), behave(n, site));
  }

  /** The state of the loops in handle, `next` being its local next_id. */
  ghost predicate Ongoing(s: Summary, log: seq<Entry>, next: EventId, start: Summary, behave: Behaviour) {
    && Log(log, start.live, behave) && Accounts(s, log, start, behave)
    && log[|log| - 1].site != Finished
    && (log[|log| - 1].site == Finishing ==> IsValid(next))
    && InHand(s.live, next) == Left(log, behave)
    && (!IsValid(next) ==> s.live == [])
  }

  ghost predicate Looping(e: Event, log: seq<Entry>, next: EventId, start: Summary, behave: Behaviour)
    reads e, e.Parts()
  {
    e.Valid() && Ongoing(e.Sum(), log, next, start, behave)
  }

  /** Finishing has been dispatched and has queued nothing. */
  ghost predicate RoundsOver(e: Event, log: seq<Entry>, start: Summary, behave: Behaviour)
    reads e, e.Parts()
  {
    && e.Valid() && Log(log, start.live, behave) && Accounts(e.Sum(), log, start, behave)
    && log[|log| - 1].site == Finishing && Left(log, behave) == e.ids.Live() == []
  }

  function InHand(live: seq<EventId>, next: EventId): seq<EventId> {
    if IsValid(next) then [next] + live else live
  }

  lemma PopGoesOn(s: Summary, log: seq<Entry>, next: EventId, live: seq<EventId>, start: Summary, behave: Behaviour)
    requires Log(log, start.live, behave) && Accounts(s, log, start, behave) && s.live == Left(log, behave)
    requires log[|log| - 1].site != Finished
    requires if s.live == [] then next == NoEvent && live == [] else IsValid(next) && s.live == [next] + live
    ensures Accounts(s.(live := live), log, start, behave) && InHand(live, next) == s.live
    ensures IsValid(next) || log[|log| - 1].site != Finishing ==> Ongoing(s.(live := live), log, next, start, behave)
    ensures !IsValid(next) ==> s.live == live == []
  {}

  /** One dispatch in the loops of handle, and pop_next_queued_id behind it. */
  method DispatchAndPop(e: Event, site: Site, n: nat, behave: Behaviour, ghost log: seq<Entry>, ghost start: Summary)
    returns (next: EventId, ghost longer: seq<Entry>)
    requires e.Valid() && Accounts(e.Sum(), log, start, behave) && n == |log| && site != Finished
    requires if log == [] then site == Begin && e.ids.Live() == start.live
             else Log(log, start.live, behave) && Adjacent(log[|log| - 1].site, site) &&
                  Follows(Left(log, behave), Entry(site, e.ids.Live()))
    modifies e, e.Parts()
    ensures if IsValid(next) || site != Finishing then Looping(e, longer, next, start, behave)
            else RoundsOver(e, longer, start, behave)
    ensures |longer| == n + 1 && InHand(e.ids.Live(), next) == RunOps(behave(n, site), old(e.ids.Live())).live
    ensures e.ids.queued == old(e.ids.queued) && fresh(e.Parts() - old(e.Parts())) && e.current == old(e.current)
  {
    longer := DispatchAt(e, site, n, behave, log, start);
    ghost var s := e.Sum();
    next := e.ids.Pop();
    assert e.Sum() == s.(live := e.ids.Live());
    PopGoesOn(s, longer, next, e.ids.Live(), start, behave);
  }

  /** The inner loop: dispatches ids until none is queued. */
  method HandleQueued(e: Event, first: EventId, n: nat, behave: Behaviour, ghost log: seq<Entry>, ghost start: Summary,
                      ghost rank: EventId -> nat, ghost bound: nat, ghost budget: nat -> nat)
    returns (m: nat, ghost longer: seq<Entry>)
    requires Looping(e, log, first, start, behave) && n == |log|
    requires Ranked(behave, rank, bound) && Budgeted(behave, budget)
    modifies e, e.Parts()
    ensures Looping(e, longer, NoEvent, start, behave) && m == |longer| && budget(m) <= budget(n)
    ensures e.ids.queued == old(e.ids.queued) && fresh(e.Parts() - old(e.Parts())) && e.current == old(e.current)
  {
    var next := first;
    longer, m := log, n;
    while IsValid(next)
      invariant Looping(e, longer, next, start, behave) && m == |longer| && budget(m) <= budget(n)
      invariant e.ids.queued == old(e.ids.queued) && fresh(e.Parts() - old(e.Parts())) && e.current == old(e.current)
      decreases Weight(InHand(e.ids.Live(), next), rank, bound)
    {
      next, longer := HandleOne(e, next, m, behave, longer, start, rank, bound);
      m := m + 1;
    }
  }

  /** The body of the inner loop: the queue gets lighter. */
  method HandleOne(e: Event, id: EventId, n: nat, behave: Behaviour, ghost log: seq<Entry>, ghost start: Summary,
                   ghost rank: EventId -> nat, ghost bound: nat)
    returns (next: EventId, ghost longer: seq<Entry>)
    requires IsValid(id) && Looping(e, log, id, start, behave) && n == |log| && Ranked(behave, rank, bound)
    modifies e, e.Parts()
    ensures Looping(e, longer, next, start, behave) && |longer| == n + 1
    ensures Weight(InHand(e.ids.Live(), next), rank, bound) < Weight(InHand(old(e.ids.Live()), id), rank, bound)
    ensures e.ids.queued == old(e.ids.queued) && fresh(e.Parts() - old(e.Parts())) && e.current == old(e.current)
  {
    DispatchIsLighter(id, e.ids.Live(), behave(n, Ordinary(id)), rank, bound);
    next, longer := DispatchAndPop(e, Ordinary(id), n, behave, log, start);
  }

  /** One round of the outer loop: the queued ids, then finishing. */
  method HandleRound(e: Event, first: EventId, n: nat, behave: Behaviour, ghost log: seq<Entry>, ghost start: Summary,
                     ghost rank: EventId -> nat, ghost bound: nat, ghost budget: nat -> nat)
    returns (next: EventId, m: nat, ghost longer: seq<Entry>)
    requires Looping(e, log, first, start, behave) && n == |log|
    requires Ranked(behave, rank, bound) && Budgeted(behave, budget)
    modifies e, e.Parts()
    ensures e.ids.queued == old(e.ids.queued) && fresh(e.Parts() - old(e.Parts())) && e.current == old(e.current)
    ensures m == |longer|
    ensures if IsValid(next) then Looping(e, longer, next, start, behave) && budget(m) < budget(n)
            else RoundsOver(e, longer, start, behave)
  {
    m, longer := HandleQueued(e, first, n, behave, log, start, rank, bound, budget);
    FinishingSpends(behave, budget, m);
    ReadyToFinish(e.Sum(), longer, start, behave);
    next, longer := DispatchAndPop(e, Finishing, m, behave, longer, start);
    m := m + 1;
  }

  /** A finishing handler that leaves an id in the queue has spent some budget. */
  lemma FinishingSpends(behave: Behaviour, budget: nat -> nat, n: nat)
    requires Budgeted(behave, budget)
    ensures budget(n + 1) <= budget(n)
    ensures RunOps(behave(n, Finishing), []).live != [] ==> budget(n + 1) < budget(n)
  {
    OpsFill(behave(n, Finishing), []);
  }

  lemma ReadyToFinish(s: Summary, log: seq<Entry>, start: Summary, behave: Behaviour)
    requires Ongoing(s, log, NoEvent, start, behave)
    ensures log != [] && s.live == [] && Log(log, start.live, behave) && Accounts(s, log, start, behave)
    ensures Adjacent(log[|log| - 1].site, Finishing) && Follows(Left(log, behave), Entry(Finishing, s.live))
  {}

  /** handle(e): dispatches until the live queue is empty, and hands the events
      registered for afterwards to the manager's queue. `behave` is what the
      handlers do, `answers` what the pending consumers say to spliced events.
      SeenAll tells what the clause about `seen` means: each dispatch raises the
      signal of the id it is for. */
  method Handle(e: Event, queue: Q.EventQueue, behave: Behaviour, answers: seq<bool>,
                ghost rank: EventId -> nat, ghost bound: nat, ghost budget: nat -> nat)
    returns (called: seq<Consumer>, accepted: seq<Delivery>, ghost log: seq<Entry>)
    requires e.Valid() && queue.Valid() && |answers| == |queue.Pending()|
    requires Ranked(behave, rank, bound) && Budgeted(behave, budget)
    requires queue !in e.Parts()
    modifies e, e.Parts(), queue
    ensures e.Valid() && queue.Valid() && e.current == old(e.current)
    ensures CompleteLog(log, old(e.ids.Live()), behave)
    ensures e.ids.Live() == Left(log, behave)
    ensures e.seen == old(e.seen) + Seen(log, |log|, behave)
    ensures e.afterwards == None
    ensures var after := Registers(old(e.afterwards), Registered(log, |log|, behave));
      Served(queue.queue, queue.Pending(), called, accepted) ==
      if after.None? then Served(old(queue.queue), old(queue.Pending()), [], [])
      else Serve(after.value + old(queue.queue), old(queue.Pending()), answers)
  {
    log := DispatchAll(e, behave, rank, bound, budget);
    called, accepted := SpliceAfterwards(e, queue, answers);
  }

  /** The end of handle. */
  method SpliceAfterwards(e: Event, queue: Q.EventQueue, answers: seq<bool>)
    returns (called: seq<Consumer>, accepted: seq<Delivery>)
    requires queue.Valid() && |answers| == |queue.Pending()|
    modifies e`afterwards, queue
    ensures queue.Valid() && e.afterwards == None
    ensures Served(queue.queue, queue.Pending(), called, accepted) ==
      if old(e.afterwards).None? then Served(old(queue.queue), old(queue.Pending()), [], [])
      else Serve(old(e.afterwards).value + old(queue.queue), old(queue.Pending()), answers)
  {
    called, accepted := [], [];
    if e.afterwards.Some? {
      called, accepted := queue.Splice(e.afterwards.value, answers);
      e.afterwards := None;
    }
  }

  /** The part of handle in front of the splice. */
  method DispatchAll(e: Event, behave: Behaviour,
                     ghost rank: EventId -> nat, ghost bound: nat, ghost budget: nat -> nat)
    returns (ghost log: seq<Entry>)
    requires e.Valid() && Ranked(behave, rank, bound) && Budgeted(behave, budget)
    modifies e, e.Parts()
    ensures e.Valid() && e.ids.queued == old(e.ids.queued) && fresh(e.Parts() - old(e.Parts()))
    ensures e.current == old(e.current)
    ensures CompleteLog(log, old(e.ids.Live()), behave) && e.ids.Live() == Left(log, behave)
    ensures Accounts(e.Sum(), log, old(e.Sum()), behave)
  {
    ghost var start := e.Sum();
    var next;
    next, log := DispatchAndPop(e, Begin, 0, behave, [], start);
    var n := 1;
    var again := true;
    while again
      invariant n == |log| && e.current == old(e.current)
      invariant e.ids.queued == old(e.ids.queued) && fresh(e.Parts() - old(e.Parts()))
      invariant if again then Looping(e, log, next, start, behave) else RoundsOver(e, log, start, behave)
      decreases again, if again then budget(n) else 0
    {
      next, n, log := HandleRound(e, next, n, behave, log, start, rank, bound, budget);
      again := IsValid(next);
    }
    log := DispatchAt(e, Finished, n, behave, log, start);
  }

  /** handle itself breaks the promise of an empty id queue: one finished handler
      that queues an id is enough. */
  method QueueOutlivesHandle(original: EventId, id: EventId) returns (e: Event)
    requires IsValid(original) && IsValid(id)
    ensures fresh(e) && e.Valid() && e.ids.Live() == [id]
  {
    e := new Event(original);
    var queue := new Q.EventQueue();
    ghost var rank := (x: EventId) => 0;
    ghost var budget := (n: nat) => 0;
    assert Ranked(LateQueuer(id), rank, 0);
    assert Budgeted(LateQueuer(id), budget);
    ghost var log;
    var called, accepted;
    called, accepted, log := Handle(e, queue, LateQueuer(id), [], rank, 0, budget);
    QueueCanOutliveHandle(original, id);
    OneLog(log, LateLog(original), [original], LateQueuer(id));
  }
}
