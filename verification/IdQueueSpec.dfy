/** The id queue of an event as a plain sequence: what queue_as does for one id
    and for a range of ids. */
module IdQueueSpec {
  import opened EventIds

  datatype Strategy = Discard | Replace | Duplicate
  datatype Position = AtBack | AtFront
  datatype Result = Discarded | Queued | Replaced | Invalid

  function Filter(ids: seq<EventId>, keep: EventId -> bool): seq<EventId> {
    if ids == [] then []
    else if keep(ids[0]) then [ids[0]] + Filter(ids[1..], keep)
    else Filter(ids[1..], keep)
  }

  function Without(ids: seq<EventId>, id: EventId): seq<EventId> {
    Filter(ids, x => x != id)
  }

  /** The live queue, the ids to be added and the answer after one id has been
      prepared. */
  datatype Prepared = Prepared(live: seq<EventId>, add: seq<EventId>, result: Result)

  function Prepare(live: seq<EventId>, add: seq<EventId>, id: EventId, strategy: Strategy): Prepared {
    if !IsValid(id) then Prepared(live, add, Invalid)
    else if strategy == Discard && id in live then Prepared(live, add, Discarded)
    else if strategy == Replace && id in live then Prepared(Without(live, id), add + [id], Replaced)
    else Prepared(live, add + [id], Queued)
  }

  datatype Range = Range(live: seq<EventId>, add: seq<EventId>, results: seq<Result>)

  function PrepareAll(live: seq<EventId>, add: seq<EventId>, ids: seq<EventId>, strategy: Strategy): Range
    decreases |ids|
  {
    if ids == [] then Range(live, add, [])
    else
      var p := Prepare(live, add, ids[0], strategy);
      var rest := PrepareAll(p.live, p.add, ids[1..], strategy);
      rest.(results := [p.result] + rest.results)
  }

  function WithAnswers(results: seq<Result>, r: Range): Range {
    r.(results := results + r.results)
  }

  lemma PrepareFirst(live: seq<EventId>, add: seq<EventId>, ids: seq<EventId>, strategy: Strategy, results: seq<Result>)
    requires ids != []
    ensures var p := Prepare(live, add, ids[0], strategy);
      WithAnswers(results, PrepareAll(live, add, ids, strategy)) ==
      WithAnswers(results + [p.result], PrepareAll(p.live, p.add, ids[1..], strategy))
  {
    var p := Prepare(live, add, ids[0], strategy);
    var rest := PrepareAll(p.live, p.add, ids[1..], strategy);
    assert results + ([p.result] + rest.results) == results + [p.result] + rest.results;
  }

  function Place(live: seq<EventId>, add: seq<EventId>, position: Position): seq<EventId> {
    if position == AtFront then add + live else live + add
  }

  datatype Outcome = Outcome(live: seq<EventId>, results: seq<Result>)

  /** The form of queue_as that takes one id. */
  function QueueOne(live: seq<EventId>, id: EventId, strategy: Strategy, position: Position): Outcome {
    var p := Prepare(live, [], id, strategy);
    Outcome(Place(p.live, p.add, position), [p.result])
  }

  /** The form of queue_as that takes a range. */
  function QueueRange(live: seq<EventId>, ids: seq<EventId>, strategy: Strategy, position: Position): Outcome {
    var r := PrepareAll(live, [], ids, strategy);
    Outcome(Place(r.live, r.add, position), r.results)
  }

  /** The calls that read or change the id queue, and what they return. */
  datatype Call =
    | Pop
    | IsQueued(matches: EventId -> bool)
    | Single(id: EventId, strategy: Strategy, position: Position)
    | Many(ids: seq<EventId>, strategy: Strategy, position: Position)
    | Unqueue(matches: EventId -> bool)

  datatype Reply = Popped(id: EventId) | Found(found: bool) | Answers(results: seq<Result>)

  function Apply(live: seq<EventId>, call: Call): (seq<EventId>, Reply) {
    match call
    case Pop => if live == [] then ([], Popped(NoEvent)) else (live[1..], Popped(live[0]))
    case IsQueued(matches) => (live, Found(exists id | id in live :: matches(id)))
    case Single(id, strategy, position) =>
      var r := QueueOne(live, id, strategy, position);
      (r.live, Answers(r.results))
    case Many(ids, strategy, position) =>
      var r := QueueRange(live, ids, strategy, position);
      (r.live, Answers(r.results))
    case Unqueue(matches) =>
      (Filter(live, id => !matches(id)), Found(exists id | id in live :: matches(id)))
  }

  /** The replies to a sequence of calls. */
  function Replies(live: seq<EventId>, calls: seq<Call>): seq<Reply>
    decreases |calls|
  {
    if |calls| == 0 then []
    else
      var (after, reply) := Apply(live, calls[0]);
      [reply] + Replies(after, calls[1..])
  }

  /** The id a call takes off the queue for good. */
  function TakenBy(live: seq<EventId>, call: Call): set<EventId> {
    if call.Pop? && live != [] then {live[0]} else {}
  }

  /** No unqueue names an id that an earlier pop has returned; `popped` are the
      ids popped before. */
  ghost predicate Careful(live: seq<EventId>, popped: set<EventId>, calls: seq<Call>)
    decreases |calls|
  {
    |calls| == 0 ||
    ((calls[0].Unqueue? ==> forall id | id in popped :: !calls[0].matches(id)) &&
     Careful(Apply(live, calls[0]).0, popped + TakenBy(live, calls[0]), calls[1..]))
  }

  lemma FirstReply(live: seq<EventId>, calls: seq<Call>, sofar: seq<Reply>)
    requires calls != []
    ensures var (after, reply) := Apply(live, calls[0]);
      sofar + Replies(live, calls) == (sofar + [reply]) + Replies(after, calls[1..])
  {}

  // ------------------------------------------------------------- closed forms

  lemma {:induction false} FilterMembers(ids: seq<EventId>, keep: EventId -> bool, id: EventId)
    ensures id in Filter(ids, keep) <==> id in ids && keep(id)
    ensures |Filter(ids, keep)| <= |ids|
  {
    if ids != [] {
      FilterMembers(ids[1..], keep, id);
    }
  }

  lemma {:induction false} FilterLength(ids: seq<EventId>, keep: EventId -> bool)
    ensures |Filter(ids, keep)| <= |ids|
    ensures |Filter(ids, keep)| == |ids| <==> forall id | id in ids :: keep(id)
  {
    if ids != [] {
      FilterLength(ids[1..], keep);
      assert forall id | id in ids :: id == ids[0] || id in ids[1..];
    }
  }

  lemma {:induction false} FilterConcat(a: seq<EventId>, b: seq<EventId>, keep: EventId -> bool)
    ensures Filter(a + b, keep) == Filter(a, keep) + Filter(b, keep)
  {
    if a == [] {
      assert a + b == b;
    } else {
      FilterConcat(a[1..], b, keep);
      assert (a + b)[1..] == a[1..] + b && (a + b)[0] == a[0];
      assert [a[0]] + (Filter(a[1..], keep) + Filter(b, keep)) == [a[0]] + Filter(a[1..], keep) + Filter(b, keep);
    }
  }

  lemma FilterOne(id: EventId, keep: EventId -> bool)
    ensures Filter([id], keep) == if keep(id) then [id] else []
  {
    assert [id][1..] == [];
    assert Filter([id][1..], keep) == [];
  }

  lemma {:induction false} FilterCongruence(ids: seq<EventId>, p: EventId -> bool, q: EventId -> bool)
    requires forall id | id in ids :: p(id) == q(id)
    ensures Filter(ids, p) == Filter(ids, q)
  {
    if ids != [] {
      FilterCongruence(ids[1..], p, q);
    }
  }

  lemma {:induction false} FilterAll(ids: seq<EventId>, keep: EventId -> bool)
    requires forall id | id in ids :: keep(id)
    ensures Filter(ids, keep) == ids
  {
    if ids != [] {
      FilterAll(ids[1..], keep);
    }
  }

  lemma {:induction false} FilterTwice(ids: seq<EventId>, p: EventId -> bool, q: EventId -> bool, r: EventId -> bool)
    requires forall id | id in ids :: r(id) <==> p(id) && q(id)
    ensures Filter(Filter(ids, p), q) == Filter(ids, r)
  {
    if ids != [] {
      FilterTwice(ids[1..], p, q, r);
    }
  }

  /** The ids of a range that get into the queue. */
  predicate Enters(live: seq<EventId>, id: EventId, strategy: Strategy) {
    IsValid(id) && (strategy == Discard ==> id !in live)
  }

  function Entering(live: seq<EventId>, ids: seq<EventId>, strategy: Strategy): seq<EventId> {
    Filter(ids, id => Enters(live, id, strategy))
  }

  lemma EnteringHead(live: seq<EventId>, ids: seq<EventId>, strategy: Strategy)
    requires ids != []
    ensures Entering(live, ids, strategy) ==
            (if Enters(live, ids[0], strategy) then [ids[0]] else []) + Entering(live, ids[1..], strategy)
  {}

  /** The answer for `ids[i]` told from the queue before the call. */
  function Answer(live: seq<EventId>, ids: seq<EventId>, i: nat, strategy: Strategy): Result
    requires i < |ids|
  {
    if !IsValid(ids[i]) then Invalid
    else if strategy == Discard && ids[i] in live then Discarded
    else if strategy == Replace && ids[i] in live && ids[i] !in ids[..i] then Replaced
    else Queued
  }

  /** Discard adds the valid ids the old queue does not hold; duplicate and
      replace add all valid ids of the range, in its order. */
  lemma {:induction false} RangeAdds(live: seq<EventId>, add: seq<EventId>, ids: seq<EventId>, strategy: Strategy)
    ensures PrepareAll(live, add, ids, strategy).add == add + Entering(live, ids, strategy)
    decreases |ids|
  {
    if ids != [] {
      var p := Prepare(live, add, ids[0], strategy);
      RangeAdds(p.live, p.add, ids[1..], strategy);
      FilterCongruence(ids[1..], id => Enters(p.live, id, strategy), id => Enters(live, id, strategy));
      assert p.add == if Enters(live, ids[0], strategy) then add + [ids[0]] else add;
    }
  }

  /** Only replace touches the old queue: it removes every id of the range. */
  lemma {:induction false} RangeKeeps(live: seq<EventId>, add: seq<EventId>, ids: seq<EventId>, strategy: Strategy)
    requires AllValid(live)
    ensures PrepareAll(live, add, ids, strategy).live ==
            if strategy == Replace then Filter(live, id => id !in ids) else live
    decreases |ids|
  {
    if ids == [] {
      FilterAll(live, id => id !in ids);
    } else {
      var p := Prepare(live, add, ids[0], strategy);
      WithoutKeepsValid(live, ids[0]);
      RangeKeeps(p.live, p.add, ids[1..], strategy);
      if p.result == Replaced {
        FilterTwice(live, x => x != ids[0], id => id !in ids[1..], id => id !in ids);
      } else if strategy == Replace {
        FilterCongruence(live, id => id !in ids[1..], id => id !in ids);
      }
    }
  }

  lemma WithoutKeepsValid(live: seq<EventId>, id: EventId)
    requires AllValid(live)
    ensures AllValid(Without(live, id)) && id !in Without(live, id)
    ensures forall x | x != id :: x in Without(live, id) <==> x in live
  {
    forall x ensures x in Without(live, id) <==> x in live && x != id {
      FilterMembers(live, y => y != id, x);
    }
  }

  /** An id answers `replaced` where it stands first in the range, if the old
      queue held it; `discarded` wherever it stands, if the old queue held it. */
  lemma {:induction false} RangeAnswers(live: seq<EventId>, add: seq<EventId>, ids: seq<EventId>, strategy: Strategy,
                                        i: nat)
    requires AllValid(live) && i < |ids|
    ensures |PrepareAll(live, add, ids, strategy).results| == |ids|
    ensures PrepareAll(live, add, ids, strategy).results[i] == Answer(live, ids, i, strategy)
    decreases |ids|
  {
    var p := Prepare(live, add, ids[0], strategy);
    WithoutKeepsValid(live, ids[0]);
    if i == 0 {
      if |ids| > 1 { RangeAnswers(p.live, p.add, ids[1..], strategy, 0); }
    } else {
      RangeAnswers(p.live, p.add, ids[1..], strategy, i - 1);
      assert ids[..i] == [ids[0]] + ids[1..][..i - 1];
    }
  }

  /** The range form at one stroke. */
  lemma RangeForm(live: seq<EventId>, ids: seq<EventId>, strategy: Strategy, position: Position)
    requires AllValid(live)
    ensures var r := QueueRange(live, ids, strategy, position);
      && r.live == Place(Kept(live, ids, strategy), Entering(live, ids, strategy), position)
      && |r.results| == |ids|
      && forall i | 0 <= i < |ids| :: r.results[i] == Answer(live, ids, i, strategy)
  {
    RangeAdds(live, [], ids, strategy);
    RangeKeeps(live, [], ids, strategy);
    if ids != [] { RangeAnswers(live, [], ids, strategy, 0); }
    forall i | 0 <= i < |ids| ensures PrepareAll(live, [], ids, strategy).results[i] == Answer(live, ids, i, strategy) {
      RangeAnswers(live, [], ids, strategy, i);
    }
  }

  function Kept(live: seq<EventId>, ids: seq<EventId>, strategy: Strategy): seq<EventId> {
    if strategy == Replace then Filter(live, id => id !in ids) else live
  }

  /** No queue operation lets the invalid id in. */
  lemma RangeKeepsValid(live: seq<EventId>, ids: seq<EventId>, strategy: Strategy, position: Position)
    requires AllValid(live)
    ensures AllValid(QueueRange(live, ids, strategy, position).live)
  {
    RangeForm(live, ids, strategy, position);
    var enters := id => Enters(live, id, strategy);
    forall x | x in QueueRange(live, ids, strategy, position).live ensures IsValid(x) {
      FilterMembers(ids, enters, x);
      FilterMembers(live, id => id !in ids, x);
    }
  }

  /** A range call never empties a queue, and leaves an empty one empty only if
      it has no valid id to offer. */
  lemma RangeFills(live: seq<EventId>, ids: seq<EventId>, strategy: Strategy, position: Position)
    requires AllValid(live)
    ensures QueueRange(live, ids, strategy, position).live == []
            <==> live == [] && forall id | id in ids :: !IsValid(id)
  {
    var enters := id => Enters(live, id, strategy);
    RangeForm(live, ids, strategy, position);
    var r := QueueRange(live, ids, strategy, position).live;
    if live != [] {
      FilterMembers(ids, enters, live[0]);
      FilterMembers(live, id => id !in ids, live[0]);
      assert live[0] in r;
    } else {
      forall id ensures id in r <==> id in ids && IsValid(id) {
        FilterMembers(ids, enters, id);
        FilterMembers(live, x => x !in ids, id);
      }
      assert r != [] ==> r[0] in r;
    }
  }

  // ---------------------------------------- a range against repeated single calls

  /** Single calls for the ids in turn, each at the back. */
  function FoldBack(live: seq<EventId>, ids: seq<EventId>, strategy: Strategy): Outcome
    decreases |ids|
  {
    if ids == [] then Outcome(live, [])
    else
      var one := QueueOne(live, ids[0], strategy, AtBack);
      var rest := FoldBack(one.live, ids[1..], strategy);
      Outcome(rest.live, one.results + rest.results)
  }

  /** Single calls in reverse, each at the front; the answers stand in the order
      of the ids. */
  function FoldFront(live: seq<EventId>, ids: seq<EventId>, strategy: Strategy): Outcome
    decreases |ids|
  {
    if ids == [] then Outcome(live, [])
    else
      var rest := FoldFront(live, ids[1..], strategy);
      var one := QueueOne(rest.live, ids[0], strategy, AtFront);
      Outcome(one.live, one.results + rest.results)
  }

  function Singles(live: seq<EventId>, ids: seq<EventId>, strategy: Strategy, position: Position): Outcome {
    if position == AtFront then FoldFront(live, ids, strategy) else FoldBack(live, ids, strategy)
  }

  /** No id that gets into the queue stands twice in the range. */
  ghost predicate OnceEach(live: seq<EventId>, ids: seq<EventId>, strategy: Strategy) {
    strategy == Duplicate ||
    forall i, j | 0 <= i < j < |ids| :: ids[i] == ids[j] ==> !Enters(live, ids[i], strategy)
  }

  lemma OneAtBack(live: seq<EventId>, ids: seq<EventId>, strategy: Strategy)
    requires AllValid(live) && ids != [] && OnceEach(live, ids, strategy)
    ensures var one := QueueOne(live, ids[0], strategy, AtBack).live;
      && AllValid(one) && OnceEach(one, ids[1..], strategy)
      && Entering(one, ids[1..], strategy) == Entering(live, ids[1..], strategy)
  {
    var one := QueueOne(live, ids[0], strategy, AtBack).live;
    WithoutKeepsValid(live, ids[0]);
    assert forall j | 0 <= j < |ids[1..]| :: ids[1..][j] == ids[j + 1];
    FilterCongruence(ids[1..], id => Enters(one, id, strategy), id => Enters(live, id, strategy));
  }

  lemma KeptAfterOne(live: seq<EventId>, ids: seq<EventId>, strategy: Strategy)
    requires AllValid(live) && ids != [] && OnceEach(live, ids, strategy)
    ensures Kept(QueueOne(live, ids[0], strategy, AtBack).live, ids[1..], strategy) ==
            Kept(live, ids, strategy) + if Enters(live, ids[0], strategy) then [ids[0]] else []
  {
    var id0, tail := ids[0], ids[1..];
    if strategy == Replace {
      var keep := id => id !in tail;
      if IsValid(id0) {
        assert id0 !in tail by { assert forall j | 0 <= j < |tail| :: tail[j] == ids[j + 1]; }
        var left := if id0 in live then Without(live, id0) else live;
        FilterConcat(left, [id0], keep);
        assert Filter([id0], keep) == [id0];
        assert [] + [id0] == [id0];
        if id0 in live {
          FilterTwice(live, x => x != id0, keep, id => id !in ids);
        } else {
          FilterCongruence(live, keep, id => id !in ids);
        }
      } else {
        FilterCongruence(live, keep, id => id !in ids);
        assert live + [] == live;
      }
    }
  }

  lemma {:induction false} FoldBackLive(live: seq<EventId>, ids: seq<EventId>, strategy: Strategy)
    requires AllValid(live) && OnceEach(live, ids, strategy)
    ensures FoldBack(live, ids, strategy).live == Kept(live, ids, strategy) + Entering(live, ids, strategy)
    decreases |ids|
  {
    if ids == [] {
      FilterAll(live, id => id !in ids);
    } else {
      OneAtBack(live, ids, strategy);
      FoldBackLive(QueueOne(live, ids[0], strategy, AtBack).live, ids[1..], strategy);
      BackStep(live, ids, strategy);
    }
  }

  lemma BackStep(live: seq<EventId>, ids: seq<EventId>, strategy: Strategy)
    requires AllValid(live) && ids != [] && OnceEach(live, ids, strategy)
    ensures var one := QueueOne(live, ids[0], strategy, AtBack).live;
      Kept(one, ids[1..], strategy) + Entering(one, ids[1..], strategy) ==
      Kept(live, ids, strategy) + Entering(live, ids, strategy)
  {
    var head := if Enters(live, ids[0], strategy) then [ids[0]] else [];
    OneAtBack(live, ids, strategy);
    KeptAfterOne(live, ids, strategy);
    EnteringHead(live, ids, strategy);
    ConcatAgain(Kept(live, ids, strategy), head, Entering(live, ids[1..], strategy));
  }

  lemma ConcatAgain(a: seq<EventId>, b: seq<EventId>, c: seq<EventId>)
    ensures a + b + c == a + (b + c)
  {}

  lemma {:induction false} FoldBackAnswers(live: seq<EventId>, ids: seq<EventId>, strategy: Strategy)
    requires AllValid(live) && OnceEach(live, ids, strategy)
    ensures var r := FoldBack(live, ids, strategy);
      |r.results| == |ids| && forall i | 0 <= i < |ids| :: r.results[i] == Answer(live, ids, i, strategy)
    decreases |ids|
  {
    if ids != [] {
      var one := QueueOne(live, ids[0], strategy, AtBack).live;
      OneAtBack(live, ids, strategy);
      FoldBackAnswers(one, ids[1..], strategy);
      AnswersAfterOne(live, ids, strategy);
      var r := FoldBack(live, ids, strategy);
      forall i | 0 <= i < |ids| ensures r.results[i] == Answer(live, ids, i, strategy) {
        if i > 0 { assert r.results[i] == FoldBack(one, ids[1..], strategy).results[i - 1]; }
      }
    }
  }

  lemma AnswersAfterOne(live: seq<EventId>, ids: seq<EventId>, strategy: Strategy)
    requires AllValid(live) && ids != [] && OnceEach(live, ids, strategy)
    ensures var one := QueueOne(live, ids[0], strategy, AtBack).live;
      forall i | 1 <= i < |ids| :: Answer(one, ids[1..], i - 1, strategy) == Answer(live, ids, i, strategy)
  {
    var one := QueueOne(live, ids[0], strategy, AtBack).live;
    WithoutKeepsValid(live, ids[0]);
    forall i | 1 <= i < |ids| ensures Answer(one, ids[1..], i - 1, strategy) == Answer(live, ids, i, strategy) {
      assert ids[..i] == [ids[0]] + ids[1..][..i - 1];
    }
  }

  lemma OneAtFront(live: seq<EventId>, id: EventId, strategy: Strategy)
    ensures QueueOne(live, id, strategy, AtFront).live ==
            (if IsValid(id) && (strategy == Discard ==> id !in live) then [id] else []) +
            (if strategy == Replace && IsValid(id) && id in live then Without(live, id) else live)
  {}

  lemma {:induction false} FoldFrontLive(live: seq<EventId>, ids: seq<EventId>, strategy: Strategy)
    requires AllValid(live) && OnceEach(live, ids, strategy)
    ensures FoldFront(live, ids, strategy).live == Entering(live, ids, strategy) + Kept(live, ids, strategy)
    decreases |ids|
  {
    if ids == [] {
      FilterAll(live, id => id !in ids);
    } else {
      var rest := FoldFront(live, ids[1..], strategy).live;
      OnceEachTail(live, ids, strategy);
      FoldFrontLive(live, ids[1..], strategy);
      OneOnRest(live, ids, strategy, rest);
      assert FoldFront(live, ids, strategy).live == QueueOne(rest, ids[0], strategy, AtFront).live;
    }
  }

  /** The last of the calls at the front, the one for the first id. */
  lemma OneOnRest(live: seq<EventId>, ids: seq<EventId>, strategy: Strategy, rest: seq<EventId>)
    requires AllValid(live) && ids != [] && OnceEach(live, ids, strategy)
    requires rest == Entering(live, ids[1..], strategy) + Kept(live, ids[1..], strategy)
    ensures QueueOne(rest, ids[0], strategy, AtFront).live == Entering(live, ids, strategy) + Kept(live, ids, strategy)
  {
    var head := if Enters(live, ids[0], strategy) then [ids[0]] else [];
    InFront(live, ids, strategy);
    EnteringHead(live, ids, strategy);
    if strategy == Replace {
      ReplaceInFront(live, ids);
    }
    FrontStep(rest, ids[0], strategy, head, Entering(live, ids[1..], strategy), Kept(live, ids, strategy));
  }

  lemma FrontStep(rest: seq<EventId>, id: EventId, strategy: Strategy,
                  head: seq<EventId>, tail: seq<EventId>, kept: seq<EventId>)
    requires head == if IsValid(id) && (strategy == Discard ==> id !in rest) then [id] else []
    requires (if strategy == Replace && IsValid(id) && id in rest then Without(rest, id) else rest) == tail + kept
    ensures QueueOne(rest, id, strategy, AtFront).live == head + tail + kept
  {
    OneAtFront(rest, id, strategy);
    assert head + (tail + kept) == head + tail + kept;
  }

  lemma OnceEachTail(live: seq<EventId>, ids: seq<EventId>, strategy: Strategy)
    requires ids != [] && OnceEach(live, ids, strategy)
    ensures OnceEach(live, ids[1..], strategy)
    ensures strategy != Duplicate && Enters(live, ids[0], strategy) ==> ids[0] !in ids[1..]
  {
    assert forall j | 0 <= j < |ids[1..]| :: ids[1..][j] == ids[j + 1];
  }

  /** Putting the first id in front replaces what the old queue held of it. */
  lemma ReplaceInFront(live: seq<EventId>, ids: seq<EventId>)
    requires AllValid(live) && ids != [] && OnceEach(live, ids, Replace)
    ensures var rest := Entering(live, ids[1..], Replace) + Kept(live, ids[1..], Replace);
      if IsValid(ids[0]) then Without(rest, ids[0]) == Entering(live, ids[1..], Replace) + Kept(live, ids, Replace)
      else Kept(live, ids[1..], Replace) == Kept(live, ids, Replace)
    ensures var rest := Entering(live, ids[1..], Replace) + Kept(live, ids[1..], Replace);
      ids[0] !in rest ==> Without(rest, ids[0]) == rest
  {
    var id0, tail := ids[0], ids[1..];
    var enters := id => Enters(live, id, Replace);
    var others := x => x != id0;
    var rest := Entering(live, tail, Replace) + Kept(live, tail, Replace);
    OnceEachTail(live, ids, Replace);
    if IsValid(id0) {
      FilterConcat(Entering(live, tail, Replace), Kept(live, tail, Replace), others);
      FilterTwice(tail, enters, others, enters);
      FilterTwice(live, id => id !in tail, others, id => id !in ids);
    } else {
      FilterCongruence(live, id => id !in tail, id => id !in ids);
    }
    if id0 !in rest { FilterAll(rest, others); }
  }

  /** Whether the first id of the range is in the queue is not changed by the
      calls for the others. */
  lemma InFront(live: seq<EventId>, ids: seq<EventId>, strategy: Strategy)
    requires AllValid(live) && OnceEach(live, ids, strategy) && ids != []
    ensures strategy != Duplicate && IsValid(ids[0]) ==>
            (ids[0] in Entering(live, ids[1..], strategy) + Kept(live, ids[1..], strategy) <==> ids[0] in live)
  {
    OnceEachTail(live, ids, strategy);
    FilterMembers(ids[1..], id => Enters(live, id, strategy), ids[0]);
    FilterMembers(live, id => id !in ids[1..], ids[0]);
  }

  lemma {:induction false} FoldFrontAnswers(live: seq<EventId>, ids: seq<EventId>, strategy: Strategy)
    requires AllValid(live) && OnceEach(live, ids, strategy)
    ensures var r := FoldFront(live, ids, strategy);
      |r.results| == |ids| && forall i | 0 <= i < |ids| :: r.results[i] == Answer(live, ids, i, strategy)
    decreases |ids|
  {
    if ids != [] {
      var tail := ids[1..];
      assert OnceEach(live, tail, strategy) by { assert forall j | 0 <= j < |tail| :: tail[j] == ids[j + 1]; }
      FoldFrontAnswers(live, tail, strategy);
      FoldFrontLive(live, tail, strategy);
      InFront(live, ids, strategy);
      var r := FoldFront(live, ids, strategy);
      forall i | 0 <= i < |ids| ensures r.results[i] == Answer(live, ids, i, strategy) {
        if i > 0 {
          assert r.results[i] == FoldFront(live, tail, strategy).results[i - 1];
          assert ids[..i] == [ids[0]] + tail[..i - 1];
        }
      }
    }
  }

  /** A range call equals single calls, answers included, when no id that gets
      into the queue stands twice in the range; for duplicate always. */
  lemma RangeIsSingles(live: seq<EventId>, ids: seq<EventId>, strategy: Strategy, position: Position)
    requires AllValid(live) && OnceEach(live, ids, strategy)
    ensures QueueRange(live, ids, strategy, position) == Singles(live, ids, strategy, position)
  {
    RangeForm(live, ids, strategy, position);
    if position == AtFront {
      FoldFrontLive(live, ids, strategy);
      FoldFrontAnswers(live, ids, strategy);
    } else {
      FoldBackLive(live, ids, strategy);
      FoldBackAnswers(live, ids, strategy);
    }
    assert QueueRange(live, ids, strategy, position).results == Singles(live, ids, strategy, position).results;
  }

  // -------------------------------------------- the condition cannot be weakened

  lemma {:induction false} FilterCount(ids: seq<EventId>, keep: EventId -> bool, x: EventId)
    ensures multiset(Filter(ids, keep))[x] == if keep(x) then multiset(ids)[x] else 0
  {
    if ids != [] {
      FilterCount(ids[1..], keep, x);
      assert ids == [ids[0]] + ids[1..];
    }
  }

  lemma OneCount(live: seq<EventId>, id: EventId, strategy: Strategy, position: Position, x: EventId)
    requires strategy != Duplicate
    ensures var n := multiset(QueueOne(live, id, strategy, position).live)[x];
      if id != x || !IsValid(id) then n == multiset(live)[x]
      else if strategy == Replace || x !in live then n == 1 else n == multiset(live)[x]
  {
    FilterCount(live, y => y != id, x);
  }

  /** Single calls never bring an id into the queue a second time. */
  lemma {:induction false} FoldBackCount(live: seq<EventId>, ids: seq<EventId>, strategy: Strategy, x: EventId)
    requires strategy != Duplicate && IsValid(x)
    requires multiset(live)[x] <= 1 || (strategy == Replace && x in ids)
    ensures multiset(FoldBack(live, ids, strategy).live)[x] <= 1
    decreases |ids|
  {
    if ids != [] {
      OneCount(live, ids[0], strategy, AtBack, x);
      FoldBackCount(QueueOne(live, ids[0], strategy, AtBack).live, ids[1..], strategy, x);
    }
  }

  lemma {:induction false} FoldFrontCount(live: seq<EventId>, ids: seq<EventId>, strategy: Strategy, x: EventId)
    requires strategy != Duplicate && IsValid(x)
    requires multiset(live)[x] <= 1 || (strategy == Replace && x in ids)
    ensures multiset(FoldFront(live, ids, strategy).live)[x] <= 1
    decreases |ids|
  {
    if ids != [] {
      OneCount(FoldFront(live, ids[1..], strategy).live, ids[0], strategy, AtFront, x);
      if ids[0] != x || strategy == Discard {
        FoldFrontCount(live, ids[1..], strategy, x);
      }
    }
  }

  lemma TwiceCounts(ids: seq<EventId>, i: nat, j: nat)
    requires i < j < |ids| && ids[i] == ids[j]
    ensures multiset(ids)[ids[i]] >= 2
  {
    assert ids[..j][i] == ids[i];
    assert ids == ids[..j] + ids[j..];
    assert ids[j..][0] == ids[j];
  }

  lemma RangeCount(live: seq<EventId>, ids: seq<EventId>, strategy: Strategy, position: Position, i: nat, j: nat)
    requires AllValid(live) && i < j < |ids| && ids[i] == ids[j] && Enters(live, ids[i], strategy)
    ensures multiset(QueueRange(live, ids, strategy, position).live)[ids[i]] >= 2
  {
    var added := Entering(live, ids, strategy);
    assert multiset(added)[ids[i]] >= 2 by {
      FilterCount(ids, id => Enters(live, id, strategy), ids[i]);
      TwiceCounts(ids, i, j);
    }
    RangeForm(live, ids, strategy, position);
  }

  /** The documented equivalence of a range call with single calls holds
      exactly when no id that gets into the queue stands twice in the range. */
  lemma RangeIsSinglesExactly(live: seq<EventId>, ids: seq<EventId>, strategy: Strategy, position: Position)
    requires AllValid(live)
    ensures QueueRange(live, ids, strategy, position).live == Singles(live, ids, strategy, position).live
            <==> OnceEach(live, ids, strategy)
  {
    if OnceEach(live, ids, strategy) {
      RangeIsSingles(live, ids, strategy, position);
    } else {
      var i, j :| 0 <= i < j < |ids| && ids[i] == ids[j] && Enters(live, ids[i], strategy);
      RangeCount(live, ids, strategy, position, i, j);
      if position == AtFront {
        FoldFrontCount(live, ids, strategy, ids[i]);
      } else {
        FoldBackCount(live, ids, strategy, ids[i]);
      }
    }
  }

  // -------------------------------------------------------------------- unqueue

  /** What unqueue leaves: it removes matching ids from the consumed part of
      the vector as well, but does not move the cursor. */
  function Unqueued(consumed: seq<EventId>, live: seq<EventId>, matches: EventId -> bool): seq<EventId> {
    Filter(consumed + live, id => !matches(id))
  }

  /** unqueue does what it promises: behind the cursor stands the live queue
      without the matching ids. */
  predicate KeepsPromise(consumed: seq<EventId>, live: seq<EventId>, matches: EventId -> bool) {
    var after := Unqueued(consumed, live, matches);
    |consumed| <= |after| && after[|consumed|..] == Filter(live, id => !matches(id))
  }

  /** It does so exactly when no id that is still stored in front of the cursor
      matches. */
  lemma UnqueueExactly(consumed: seq<EventId>, live: seq<EventId>, matches: EventId -> bool)
    ensures KeepsPromise(consumed, live, matches) <==> forall id | id in consumed :: !matches(id)
  {
    var keep := id => !matches(id);
    FilterConcat(consumed, live, keep);
    FilterLength(consumed, keep);
    var after := Unqueued(consumed, live, matches);
    if forall id | id in consumed :: !matches(id) {
      assert after[|consumed|..] == Filter(live, keep);
    } else if |consumed| <= |after| {
      assert |after[|consumed|..]| < |Filter(live, keep)|;
    }
  }

  /** Which of the popped ids are still stored depends on the capacity. For a
      caller who knows only what has been popped, unqueue is safe exactly when no
      popped id matches. */
  lemma UnqueueSafeExactly(popped: set<EventId>, live: seq<EventId>, matches: EventId -> bool)
    ensures (forall consumed | StoredFrom(consumed, popped) :: KeepsPromise(consumed, live, matches))
            <==> forall id | id in popped :: !matches(id)
  {
    forall consumed | StoredFrom(consumed, popped)
      ensures KeepsPromise(consumed, live, matches) <==> forall id | id in consumed :: !matches(id)
    {
      UnqueueExactly(consumed, live, matches);
    }
    forall id | id in popped ensures StoredFrom([id], popped) && id in [id] {}
  }

  ghost predicate StoredFrom(consumed: seq<EventId>, popped: set<EventId>) {
    forall id | id in consumed :: id in popped
  }

  /** The failing family is not empty: after `a` has been popped off [a, b],
      removing `a` loses `b`. */
  lemma UnqueueCanLoseIds(a: EventId, b: EventId, matches: EventId -> bool)
    requires matches(a) && !matches(b)
    ensures Unqueued([a], [b], matches) == [b] && !KeepsPromise([a], [b], matches)
  {
    var keep := id => !matches(id);
    FilterOne(a, keep);
    FilterOne(b, keep);
    FilterConcat([a], [b], keep);
    assert [b][1..] == [];
  }
}
