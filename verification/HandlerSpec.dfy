/** What the handlers of one dispatch do to an event, and how much work that
    leaves for handle. */
module HandlerSpec {
  import opened Wrappers
  import opened EventIds
  import opened IdQueueSpec
  import opened HandleTrace

  /** What the handlers called by one dispatch do, in order. A nested handle_as
      carries what its own handlers do. */
  datatype Op =
    | QueueId(id: EventId, strategy: Strategy, position: Position)
    | QueueIds(ids: seq<EventId>, strategy: Strategy, position: Position)
    | Nested(id: EventId, ops: seq<Op>)
    | After(event: nat)

  /** The live queue afterwards, the ids of the nested dispatches in order, and
      the events registered with afterwards(). */
  datatype Effect = Effect(live: seq<EventId>, seen: seq<EventId>, after: seq<nat>)

  function RunOp(op: Op, live: seq<EventId>): Effect
    decreases op
  {
    match op
    case QueueId(id, strategy, position) => Effect(QueueOne(live, id, strategy, position).live, [], [])
    case QueueIds(ids, strategy, position) => Effect(QueueRange(live, ids, strategy, position).live, [], [])
    case Nested(id, ops) =>
      var inner := RunOps(ops, live);
      inner.(seen := [id] + inner.seen)
    case After(event) => Effect(live, [], [event])
  }

  function RunOps(ops: seq<Op>, live: seq<EventId>): Effect
    decreases ops
  {
    if ops == [] then Effect(live, [], [])
    else
      var one := RunOp(ops[0], live);
      var rest := RunOps(ops[1..], one.live);
      Effect(rest.live, one.seen + rest.seen, one.after + rest.after)
  }

  /** The parts of an event that handlers change: the live queue, the current id
      at each dispatch so far, and the handle_afterwards component. */
  datatype Summary = Summary(live: seq<EventId>, seen: seq<EventId>, after: Option<seq<nat>>)

  function Registers(after: Option<seq<nat>>, events: seq<nat>): Option<seq<nat>> {
    if events == [] then after else Some((if after.Some? then after.value else []) + events)
  }

  function AfterOps(s: Summary, ops: seq<Op>): Summary {
    var r := RunOps(ops, s.live);
    Summary(r.live, s.seen + r.seen, Registers(s.after, r.after))
  }

  function AfterOp(s: Summary, op: Op): Summary {
    var r := RunOp(op, s.live);
    Summary(r.live, s.seen + r.seen, Registers(s.after, r.after))
  }

  lemma RegistersInTurn(after: Option<seq<nat>>, a: seq<nat>, b: seq<nat>)
    ensures Registers(Registers(after, a), b) == Registers(after, a + b)
  {
    if a == [] {
      assert a + b == b;
    } else if b == [] {
      assert a + b == a;
    } else {
      var was := if after.Some? then after.value else [];
      assert was + a + b == was + (a + b);
    }
  }

  lemma OpsInTurn(s: Summary, ops: seq<Op>)
    requires ops != []
    ensures AfterOps(AfterOp(s, ops[0]), ops[1..]) == AfterOps(s, ops)
  {
    var one := RunOp(ops[0], s.live);
    var rest := RunOps(ops[1..], one.live);
    assert s.seen + one.seen + rest.seen == s.seen + (one.seen + rest.seen);
    RegistersInTurn(s.after, one.after, rest.after);
  }

  lemma NestedOps(s: Summary, id: EventId, ops: seq<Op>)
    ensures AfterOps(s.(seen := s.seen + [id]), ops) == AfterOp(s, Nested(id, ops))
  {
    var inner := RunOps(ops, s.live);
    assert s.seen + [id] + inner.seen == s.seen + ([id] + inner.seen);
  }

  /** The handlers' doing at each dispatch that handle makes: it may differ from
      one dispatch to the next. */
  type Behaviour = (nat, Site) -> seq<Op>

  function EffectAt(log: seq<Entry>, i: nat, behave: Behaviour): Effect
    requires i < |log|
  {
    RunOps(behave(i, log[i].site), log[i].live)
  }

  /** A dispatch starts from what its predecessor left: an ordinary one from the
      queue behind the id it dispatches, finishing and finished from nothing. */
  predicate Follows(left: seq<EventId>, e: Entry) {
    match e.site
    case Begin => false
    case Ordinary(id) => left == [id] + e.live
    case Finishing => left == [] && e.live == []
    case Finished => left == [] && e.live == []
  }

  /** The dispatches handle makes up to some moment. */
  ghost predicate Log(log: seq<Entry>, live: seq<EventId>, behave: Behaviour) {
    && log != [] && log[0] == Entry(Begin, live)
    && (forall i | 0 <= i < |log| - 1 ::
          Adjacent(log[i].site, log[i + 1].site) && Follows(EffectAt(log, i, behave).live, log[i + 1]))
  }

  ghost predicate CompleteLog(log: seq<Entry>, live: seq<EventId>, behave: Behaviour) {
    Log(log, live, behave) && log[|log| - 1].site == Finished
  }

  function Seen(log: seq<Entry>, n: nat, behave: Behaviour): seq<EventId>
    requires n <= |log|
  {
    if n == 0 then []
    else Seen(log, n - 1, behave) + [SignalOf(log[n - 1].site)] + EffectAt(log, n - 1, behave).seen
  }

  /** The events registered by the first n dispatches. */
  function Registered(log: seq<Entry>, n: nat, behave: Behaviour): seq<nat>
    requires n <= |log|
  {
    if n == 0 then [] else Registered(log, n - 1, behave) + EffectAt(log, n - 1, behave).after
  }

  /** The i-th dispatch of handle raises the signal of the id it is for: a queued
      id that very id. Only the handlers' own nested dispatches stand between. */
  lemma {:induction false} SeenAt(log: seq<Entry>, i: nat, n: nat, behave: Behaviour)
    requires i < n <= |log|
    ensures |Seen(log, i, behave)| < |Seen(log, n, behave)|
    ensures RaisedAs(log[i].site, Seen(log, n, behave)[|Seen(log, i, behave)|])
  {
    if i < n - 1 { SeenAt(log, i, n - 1, behave); }
  }

  /** Where the i-th dispatch of a handle stands among all that the event has seen. */
  ghost predicate AllRaised(seen: seq<EventId>, before: nat, log: seq<Entry>, behave: Behaviour) {
    forall i | 0 <= i < |log| ::
      var k := before + |Seen(log, i, behave)|;
      k < |seen| && RaisedAs(log[i].site, seen[k])
  }

  lemma SeenAll(seen: seq<EventId>, before: seq<EventId>, log: seq<Entry>, behave: Behaviour)
    requires seen == before + Seen(log, |log|, behave)
    ensures AllRaised(seen, |before|, log, behave)
  {
    forall i | 0 <= i < |log|
      ensures var k := |before| + |Seen(log, i, behave)|; k < |seen| && RaisedAs(log[i].site, seen[k])
    {
      SeenAt(log, i, |log|, behave);
    }
  }

  lemma LogGrows(log: seq<Entry>, live: seq<EventId>, behave: Behaviour, e: Entry)
    requires Log(log, live, behave)
    requires Adjacent(log[|log| - 1].site, e.site) && Follows(EffectAt(log, |log| - 1, behave).live, e)
    ensures Log(log + [e], live, behave)
  {
    var longer := log + [e];
    forall i | 0 <= i < |longer| - 1
      ensures Adjacent(longer[i].site, longer[i + 1].site) && Follows(EffectAt(longer, i, behave).live, longer[i + 1])
    {
      if i < |log| - 1 { assert Follows(EffectAt(log, i, behave).live, log[i + 1]); }
      assert EffectAt(longer, i, behave) == EffectAt(log, i, behave);
    }
  }

  lemma {:induction false} RecordsOfPrefix(log: seq<Entry>, e: Entry, n: nat, behave: Behaviour)
    requires n <= |log|
    ensures Seen(log + [e], n, behave) == Seen(log, n, behave)
    ensures Registered(log + [e], n, behave) == Registered(log, n, behave)
  {
    if n > 0 {
      RecordsOfPrefix(log, e, n - 1, behave);
      assert (log + [e])[n - 1] == log[n - 1];
    }
  }

  /** Logs of the same handlers agree as far as both go. */
  lemma {:induction false} LogsAgree(a: seq<Entry>, b: seq<Entry>, live: seq<EventId>, behave: Behaviour, n: nat)
    requires CompleteLog(a, live, behave) && CompleteLog(b, live, behave) && n <= |a| && n <= |b|
    ensures a[..n] == b[..n]
  {
    if n > 1 {
      LogsAgree(a, b, live, behave, n - 1);
      assert a[n - 2] == a[..n - 1][n - 2] == b[..n - 1][n - 2] == b[n - 2];
      assert Adjacent(a[n - 2].site, a[n - 1].site) && Follows(EffectAt(a, n - 2, behave).live, a[n - 1]);
      assert Adjacent(b[n - 2].site, b[n - 1].site) && Follows(EffectAt(b, n - 2, behave).live, b[n - 1]);
      var left := EffectAt(a, n - 2, behave).live;
      assert left == EffectAt(b, n - 2, behave).live;
      if left != [] {
        assert a[n - 1].live == left[1..] && b[n - 1].live == left[1..];
      }
      assert a[n - 1] == b[n - 1];
      assert a[..n] == a[..n - 1] + [a[n - 1]] && b[..n] == b[..n - 1] + [b[n - 1]];
    }
  }

  /** The handlers decide the dispatches: there is only one complete log. */
  lemma OneLog(a: seq<Entry>, b: seq<Entry>, live: seq<EventId>, behave: Behaviour)
    requires CompleteLog(a, live, behave) && CompleteLog(b, live, behave)
    ensures a == b
  {
    if |a| <= |b| {
      LogsEndTogether(a, b, live, behave);
    } else {
      LogsEndTogether(b, a, live, behave);
    }
  }

  lemma LogsEndTogether(a: seq<Entry>, b: seq<Entry>, live: seq<EventId>, behave: Behaviour)
    requires CompleteLog(a, live, behave) && CompleteLog(b, live, behave) && |a| <= |b|
    ensures a == b
  {
    var n := |a|;
    LogsAgree(a, b, live, behave, n);
    assert b[n - 1] == b[..n][n - 1] == a[..n][n - 1];
    if n < |b| { FinishesOnce(b, live, behave, n - 1); }
  }

  lemma FinishesOnce(log: seq<Entry>, live: seq<EventId>, behave: Behaviour, i: nat)
    requires Log(log, live, behave) && i < |log| - 1
    ensures log[i].site != Finished
  {
    assert Adjacent(log[i].site, log[i + 1].site);
  }

  // ------------------------------------------------------------- termination

  /** All ids that the handlers try to queue, nested dispatches included. */
  function AddedBy(op: Op): seq<EventId>
    decreases op
  {
    match op
    case QueueId(id, _, _) => [id]
    case QueueIds(ids, _, _) => ids
    case Nested(_, ops) => Added(ops)
    case After(_) => []
  }

  function Added(ops: seq<Op>): seq<EventId>
    decreases ops
  {
    if ops == [] then [] else AddedBy(ops[0]) + Added(ops[1..])
  }

  /** The work an id of rank r stands for, if its handlers queue at most `bound`
      ids, all of lower rank. */
  function Unit(r: nat, bound: nat): nat {
    if r == 0 then 1 else 1 + bound * Unit(r - 1, bound)
  }

  function Weight(ids: seq<EventId>, rank: EventId -> nat, bound: nat): nat {
    if ids == [] then 0 else Unit(rank(ids[0]), bound) + Weight(ids[1..], rank, bound)
  }

  /** Handlers of an id queue at most `bound` ids, all of lower rank. */
  ghost predicate Ranked(behave: Behaviour, rank: EventId -> nat, bound: nat) {
    forall n: nat, id: EventId :: IsValid(id) ==> LowerRanked(Added(behave(n, Ordinary(id))), rank(id), rank, bound)
  }

  predicate LowerRanked(ids: seq<EventId>, r: nat, rank: EventId -> nat, bound: nat) {
    |ids| <= bound && forall x | x in ids :: rank(x) < r
  }

  /** Finishing handlers have a finite budget of additions: `budget(n)` is what
      is left of it before dispatch n. */
  ghost predicate Budgeted(behave: Behaviour, budget: nat -> nat) {
    forall n: nat :: budget(n + 1) <= budget(n) && (Added(behave(n, Finishing)) != [] ==> budget(n + 1) < budget(n))
  }

  lemma {:induction false} WeightConcat(a: seq<EventId>, b: seq<EventId>, rank: EventId -> nat, bound: nat)
    ensures Weight(a + b, rank, bound) == Weight(a, rank, bound) + Weight(b, rank, bound)
  {
    if a == [] {
      assert a + b == b;
    } else {
      WeightConcat(a[1..], b, rank, bound);
      assert (a + b)[1..] == a[1..] + b;
    }
  }

  lemma {:induction false} WeightFilter(ids: seq<EventId>, keep: EventId -> bool, rank: EventId -> nat, bound: nat)
    ensures Weight(Filter(ids, keep), rank, bound) <= Weight(ids, rank, bound)
  {
    if ids != [] {
      WeightFilter(ids[1..], keep, rank, bound);
      if keep(ids[0]) { WeightConcat([ids[0]], Filter(ids[1..], keep), rank, bound); }
    }
  }

  /** Queueing ids adds at most their own weight. */
  lemma WeightOfRange(live: seq<EventId>, ids: seq<EventId>, strategy: Strategy, position: Position,
                      rank: EventId -> nat, bound: nat)
    requires AllValid(live)
    ensures Weight(QueueRange(live, ids, strategy, position).live, rank, bound) <=
            Weight(live, rank, bound) + Weight(ids, rank, bound)
  {
    RangeForm(live, ids, strategy, position);
    var kept, added := Kept(live, ids, strategy), Entering(live, ids, strategy);
    WeightFilter(live, id => id !in ids, rank, bound);
    WeightFilter(ids, id => Enters(live, id, strategy), rank, bound);
    WeightConcat(kept, added, rank, bound);
    WeightConcat(added, kept, rank, bound);
  }

  lemma OneIsRange(live: seq<EventId>, id: EventId, strategy: Strategy, position: Position)
    ensures QueueOne(live, id, strategy, position) == QueueRange(live, [id], strategy, position)
  {
    var p := Prepare(live, [], id, strategy);
    assert [id][1..] == [];
    assert PrepareAll(p.live, p.add, [id][1..], strategy) == Range(p.live, p.add, []);
  }

  lemma {:induction false} WeightOfOp(op: Op, live: seq<EventId>, rank: EventId -> nat, bound: nat)
    requires AllValid(live)
    ensures AllValid(RunOp(op, live).live)
    ensures Weight(RunOp(op, live).live, rank, bound) <= Weight(live, rank, bound) + Weight(AddedBy(op), rank, bound)
    ensures AddedBy(op) == [] && live == [] ==> RunOp(op, live).live == []
    decreases op
  {
    match op
    case QueueId(id, strategy, position) =>
      OneIsRange(live, id, strategy, position);
      WeightOfRange(live, [id], strategy, position, rank, bound);
      RangeKeepsValid(live, [id], strategy, position);
    case QueueIds(ids, strategy, position) =>
      WeightOfRange(live, ids, strategy, position, rank, bound);
      RangeKeepsValid(live, ids, strategy, position);
    case Nested(_, ops) => WeightOfOps(ops, live, rank, bound);
    case After(_) =>
  }

  lemma {:induction false} WeightOfOps(ops: seq<Op>, live: seq<EventId>, rank: EventId -> nat, bound: nat)
    requires AllValid(live)
    ensures AllValid(RunOps(ops, live).live)
    ensures Weight(RunOps(ops, live).live, rank, bound) <= Weight(live, rank, bound) + Weight(Added(ops), rank, bound)
    ensures Added(ops) == [] && live == [] ==> RunOps(ops, live).live == []
    decreases ops
  {
    if ops != [] {
      WeightOfOp(ops[0], live, rank, bound);
      WeightOfOps(ops[1..], RunOp(ops[0], live).live, rank, bound);
      WeightConcat(AddedBy(ops[0]), Added(ops[1..]), rank, bound);
    }
  }

  lemma TimesGrows(a: nat, b: nat, c: nat)
    requires a <= b
    ensures a * c <= b * c
  {}

  lemma OneMore(n: nat, c: nat)
    ensures (1 + n) * c == c + n * c
  {}

  lemma {:induction false} UnitGrows(r: nat, s: nat, bound: nat)
    requires r <= s && bound > 0
    ensures Unit(r, bound) <= Unit(s, bound)
    decreases s - r
  {
    if r < s {
      UnitGrows(r, s - 1, bound);
      TimesGrows(1, bound, Unit(s - 1, bound));
    }
  }

  lemma {:induction false} WeightOfLower(ids: seq<EventId>, r: nat, rank: EventId -> nat, bound: nat)
    requires r > 0 && bound > 0 && forall x | x in ids :: rank(x) < r
    ensures Weight(ids, rank, bound) <= |ids| * Unit(r - 1, bound)
  {
    var c := Unit(r - 1, bound);
    if ids != [] {
      UnitGrows(rank(ids[0]), r - 1, bound);
      WeightOfLower(ids[1..], r, rank, bound);
      OneMore(|ids[1..]|, c);
    }
  }

  /** Dispatching an id of a ranked behaviour makes the queue lighter than it
      was with the id in it. */
  lemma DispatchIsLighter(id: EventId, live: seq<EventId>, ops: seq<Op>, rank: EventId -> nat, bound: nat)
    requires AllValid(live) && LowerRanked(Added(ops), rank(id), rank, bound)
    ensures Weight(RunOps(ops, live).live, rank, bound) < Weight([id] + live, rank, bound)
  {
    var added := Added(ops);
    assert Weight(added, rank, bound) < Unit(rank(id), bound) by {
      if added != [] {
        assert rank(added[0]) < rank(id);
        WeightOfLower(added, rank(id), rank, bound);
        TimesGrows(|added|, bound, Unit(rank(id) - 1, bound));
      }
    }
    WeightOfOps(ops, live, rank, bound);
    assert ([id] + live)[1..] == live;
  }

  // -------------------------------------------------- what is left on return

  lemma {:induction false} OpFills(op: Op, live: seq<EventId>)
    requires AllValid(live)
    ensures AllValid(RunOp(op, live).live)
    ensures RunOp(op, live).live == [] <==> live == [] && forall id | id in AddedBy(op) :: !IsValid(id)
    decreases op
  {
    match op
    case QueueId(id, strategy, position) =>
      OneIsRange(live, id, strategy, position);
      RangeFills(live, [id], strategy, position);
      RangeKeepsValid(live, [id], strategy, position);
    case QueueIds(ids, strategy, position) =>
      RangeFills(live, ids, strategy, position);
      RangeKeepsValid(live, ids, strategy, position);
    case Nested(_, ops) => OpsFill(ops, live);
    case After(_) =>
  }

  lemma {:induction false} OpsFill(ops: seq<Op>, live: seq<EventId>)
    requires AllValid(live)
    ensures AllValid(RunOps(ops, live).live)
    ensures RunOps(ops, live).live == [] <==> live == [] && forall id | id in Added(ops) :: !IsValid(id)
    decreases ops
  {
    if ops != [] {
      OpFills(ops[0], live);
      OpsFill(ops[1..], RunOp(ops[0], live).live);
    }
  }

  /** The header promises an empty id queue when handle returns. Among handlers
      that queue, nest and register, that is so exactly when those of finished do
      not try to queue a valid id. */
  lemma EmptyOnReturnExactly(log: seq<Entry>, live: seq<EventId>, behave: Behaviour)
    requires CompleteLog(log, live, behave)
    ensures EffectAt(log, |log| - 1, behave).live == [] <==>
            forall id | id in Added(behave(|log| - 1, Finished)) :: !IsValid(id)
  {
    var n := |log| - 1;
    assert Follows(EffectAt(log, n - 1, behave).live, log[n - 1 + 1]);
    OpsFill(behave(n, Finished), log[n].live);
  }

  /** Handlers that do nothing, except that finished queues `id`. */
  function LateQueuer(id: EventId): Behaviour {
    (n: nat, site: Site) => if site.Finished? then [QueueId(id, Discard, AtBack)] else []
  }

  /** The dispatches of handle for a new event under those handlers. */
  function LateLog(original: EventId): seq<Entry> {
    [Entry(Begin, [original]), Entry(Ordinary(original), []), Entry(Finishing, []), Entry(Finished, [])]
  }

  lemma LateEffect(id: EventId)
    requires IsValid(id)
    ensures RunOps([QueueId(id, Discard, AtBack)], []).live == [id]
  {
    assert RunOp(QueueId(id, Discard, AtBack), []).live == [id];
  }

  lemma LateEffects(original: EventId, id: EventId, i: nat)
    requires IsValid(id) && i < 4
    ensures EffectAt(LateLog(original), i, LateQueuer(id)).live == if i == 3 then [id] else LateLog(original)[i].live
  {
    var e := LateLog(original)[i];
    if i == 3 {
      LateEffect(id);
      assert LateQueuer(id)(i, e.site) == [QueueId(id, Discard, AtBack)];
    } else {
      assert !e.site.Finished? && LateQueuer(id)(i, e.site) == [];
    }
  }

  /** They are complete, and leave the late id in the queue. */
  lemma QueueCanOutliveHandle(original: EventId, id: EventId)
    requires IsValid(original) && IsValid(id)
    ensures CompleteLog(LateLog(original), [original], LateQueuer(id))
    ensures EffectAt(LateLog(original), 3, LateQueuer(id)).live == [id]
  {
    var log := LateLog(original);
    forall i | 0 <= i < 3
      ensures Adjacent(log[i].site, log[i + 1].site)
      ensures Follows(EffectAt(log, i, LateQueuer(id)).live, log[i + 1])
    {
      LateEffects(original, id, i);
      assert [original] + [] == [original];
    }
    LateEffects(original, id, 3);
  }
}
