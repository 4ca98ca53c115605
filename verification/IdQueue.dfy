/** The id queue of an event as it is stored: a growing vector whose first
    `next` elements have been consumed. */
module IdQueue {
  import opened Wrappers
  import opened EventIds
  import opened IdQueueSpec

  /** std::vector: `size` elements in a buffer whose length is the capacity. */
  class IdVector {
    var items: array<EventId>
    var size: nat

    ghost predicate Valid()
      reads this
    {
      size <= items.Length
    }

    ghost function Contents(): (s: seq<EventId>)
      requires Valid()
      reads this, items
      ensures |s| == size
    {
      items[..size]
    }

    constructor ()
      ensures Valid() && Contents() == [] && fresh(items)
    {
      items := new EventId[0];
      size := 0;
    }

    /** Makes room for `extra` more elements, moving to a larger buffer of any
        size if the capacity does not suffice. */
    method Reserve(extra: nat)
      requires Valid()
      modifies this
      ensures Valid() && size == old(size) && Contents() == old(Contents())
      ensures size + extra <= items.Length && (items == old(items) || fresh(items))
      ensures items == old(items) <==> size + extra <= old(items.Length)
    {
      if items.Length - size < extra {
        var capacity :| size + extra <= capacity;
        var larger := new EventId[capacity];
        var i := 0;
        while i < size
          invariant 0 <= i <= size
          invariant larger[..i] == items[..i]
          modifies larger
        {
          larger[i] := items[i];
          i := i + 1;
        }
        items := larger;
      }
    }

    method PushBack(id: EventId)
      requires Valid()
      modifies this, items
      ensures Valid() && Contents() == old(Contents()) + [id]
      ensures items == old(items) || fresh(items)
    {
      Reserve(1);
      items[size] := id;
      size := size + 1;
    }

    /** resize to more elements; the new ones are default-constructed. */
    method Grow(newSize: nat)
      requires Valid() && size <= newSize
      modifies this, items
      ensures Valid() && size == newSize && Contents()[..old(size)] == old(Contents())
      ensures items == old(items) || fresh(items)
    {
      Reserve(newSize - size);
      ghost var was := Contents();
      var i := size;
      while i < newSize
        invariant size <= i <= newSize <= items.Length && items[..size] == was
        modifies items
      {
        items[i] := NoEvent;
        i := i + 1;
      }
      size := newSize;
    }

    /** insert(end(), first, last) of the elements of another vector */
    method Append(other: IdVector)
      requires Valid() && other.Valid() && other != this && other.items != items
      modifies this, items
      ensures Valid() && Contents() == old(Contents()) + other.Contents()
      ensures items == old(items) || fresh(items)
      ensures items == old(items) <==> old(size) + other.size <= old(items.Length)
    {
      Reserve(other.size);
      var i := 0;
      while i < other.size
        invariant 0 <= i <= other.size
        invariant items != other.items && items[..size] == old(Contents())
        invariant items[size..size + i] == other.items[..i]
        modifies items
      {
        items[size + i] := other.items[i];
        i := i + 1;
      }
      size := size + other.size;
    }

    /** std::remove_if on [from, end): the elements to keep move up in order.
        Returns the new end; nothing is erased yet. */
    method RemoveIf(from: nat, matches: EventId -> bool) returns (newEnd: nat)
      requires Valid() && from <= size
      modifies items
      ensures Valid() && from <= newEnd <= size
      ensures items[..from] == old(items[..from])
      ensures items[from..newEnd] == Filter(old(items[from..size]), x => !matches(x))
    {
      ghost var was := items[from..size];
      ghost var keep := x => !matches(x);
      newEnd := from;
      var i := from;
      while i < size
        invariant from <= newEnd <= i <= size
        invariant forall k | 0 <= k < from :: items[k] == old(items[k])
        invariant forall k | i <= k < size :: items[k] == was[k - from]
        invariant items[from..newEnd] == Filter(was[..i - from], keep)
      {
        var x := items[i];
        FilterConcat(was[..i - from], [x], keep);
        assert was[..i + 1 - from] == was[..i - from] + [x];
        assert Filter([x], keep) == if keep(x) then [x] else [];
        if !matches(x) {
          ghost var sofar := items[from..newEnd];
          items[newEnd] := x;
          newEnd := newEnd + 1;
          assert items[from..newEnd] == sofar + [x];
        }
        i := i + 1;
      }
      assert was[..i - from] == was;
    }

    /** std::copy of [from, end) to the beginning of the same vector */
    method CopyDown(from: nat)
      requires Valid() && from <= size
      modifies items
      ensures items[..size - from] == old(items[from..size])
    {
      ghost var was := items[from..size];
      var i := from;
      while i < size
        invariant from <= i <= size
        invariant forall k | 0 <= k < i - from :: items[k] == was[k]
        invariant forall k | i <= k < size :: items[k] == was[k - from]
        modifies items
      {
        items[i - from] := items[i];
        i := i + 1;
      }
    }

    /** std::copy of another vector over the elements from `at` on */
    method Overwrite(at: nat, other: IdVector)
      requires Valid() && other.Valid() && other.items != items && at + other.size <= size
      modifies items
      ensures items[..at] == old(items[..at])
      ensures items[at..at + other.size] == other.Contents()
      ensures items[at + other.size..] == old(items[at + other.size..])
    {
      ghost var front, back := items[..at], items[at + other.size..];
      var i := 0;
      while i < other.size
        invariant 0 <= i <= other.size && items[..at] == front && items[at + other.size..] == back
        invariant items[at..at + i] == other.items[..i]
        modifies items
      {
        items[at + i] := other.items[i];
        i := i + 1;
        assert items[at..at + i] == items[at..at + i - 1] + [items[at + i - 1]];
      }
    }

    /** std::find_if on [from, end) */
    method FindIf(from: nat, matches: EventId -> bool) returns (found: bool)
      requires Valid() && from <= size
      ensures found <==> exists id :: id in Contents()[from..] && matches(id)
    {
      var i := from;
      while i < size && !matches(items[i])
        invariant from <= i <= size
        invariant forall k | from <= k < i :: !matches(items[k])
      {
        i := i + 1;
      }
      found := i < size;
      if found {
        assert Contents()[from..][i - from] == items[i];
      }
    }
  }

  lemma SameSequence(a: seq<EventId>, b: seq<EventId>)
    requires |a| == |b| && forall k | 0 <= k < |a| :: a[k] == b[k]
    ensures a == b
  {}

  class IdQueue {
    var queued: IdVector
    var next: nat

    ghost predicate Valid()
      reads this, queued, queued.items
    {
      queued.Valid() && next <= queued.size && AllValid(Live())
    }

    /** The ids that are still to be handled. */
    ghost function Live(): seq<EventId>
      reads this, queued, queued.items
    {
      if queued.Valid() && next <= queued.size then queued.Contents()[next..] else []
    }

    /** The ids that have been popped, as far as the vector still stores them. */
    ghost function Consumed(): seq<EventId>
      reads this, queued, queued.items
    {
      if queued.Valid() && next <= queued.size then queued.Contents()[..next] else []
    }

    /** The objects an operation may change. */
    ghost function Parts(): set<object>
      reads this, queued
    {
      {this, queued, queued.items}
    }

    constructor (original: EventId)
      requires IsValid(original)
      ensures Valid() && Live() == [original] && Consumed() == [] && fresh(Parts())
    {
      queued := new IdVector();
      next := 0;
      new;
      queued.PushBack(original);
    }

    /** The constructor as callers meet it: an invalid id raises
        invalid_event_id, and there is no event. */
    static method Make(original: EventId) returns (q: Option<IdQueue>)
      ensures q.Some? <==> original != NoEvent
      ensures q.Some? ==>
        && fresh(q.value) && fresh(q.value.Parts())
        && q.value.Valid() && q.value.Live() == [original] && q.value.Consumed() == []
    {
      if !IsValid(original) {
        return None;
      }
      var made := new IdQueue(original);
      q := Some(made);
    }

    method Pop() returns (id: EventId)
      requires Valid()
      modifies this
      ensures Valid() && queued == old(queued)
      ensures if old(Live()) == [] then id == NoEvent && Live() == []
              else old(Live()) == [id] + Live()
      ensures id != NoEvent <==> old(Live()) != []
      ensures Consumed() == old(Consumed()) + if id != NoEvent then [id] else []
    {
      ghost var live := Live();
      id := NoEvent;
      if next < queued.size {
        id := queued.items[next];
        assert id == live[0] && live[0] in live && IsValid(id);
        next := next + 1;
        assert live == [id] + Live();
      }
    }

    method IsQueuedAs(matches: EventId -> bool) returns (found: bool)
      requires Valid()
      ensures found <==> exists id :: id in Live() && matches(id)
    {
      found := queued.FindIf(next, matches);
    }

    /** prepare_append_queue: checks one id, drops what it replaces, and notes it
        in `add`. */
    method PrepareAppend(add: IdVector, id: EventId, strategy: Strategy) returns (result: Result)
      requires Valid() && add.Valid() && add != queued && add.items != queued.items
      modifies queued, queued.items, add, add.items
      ensures Valid() && add.Valid() && queued.items == old(queued.items)
      ensures add.items == old(add.items) || fresh(add.items)
      ensures Prepared(Live(), add.Contents(), result) == Prepare(old(Live()), old(add.Contents()), id, strategy)
      ensures Consumed() == old(Consumed())
    {
      if !IsValid(id) {
        return Invalid;
      }
      if strategy == Discard {
        var found := queued.FindIf(next, x => x == id);
        if found {
          return Discarded;
        }
        add.PushBack(id);
        return Queued;
      }
      var removed := false;
      if strategy == Replace {
        removed := RemoveLive(id);
      }
      add.PushBack(id);
      result := if removed then Replaced else Queued;
    }

    /** Erases an id from the live part; says whether it was there. */
    method RemoveLive(id: EventId) returns (removed: bool)
      requires Valid()
      modifies queued, queued.items
      ensures Valid() && queued.items == old(queued.items)
      ensures removed <==> id in old(Live())
      ensures Live() == if removed then Without(old(Live()), id) else old(Live())
      ensures Consumed() == old(Consumed())
    {
      ghost var live, consumed := Live(), Consumed();
      assert consumed == queued.items[..next];
      FilterLength(live, x => x != id);
      WithoutKeepsValid(live, id);
      FilterCongruence(live, x => x != id, x => !(y => y == id)(x));
      var newEnd := queued.RemoveIf(next, x => x == id);
      assert queued.items[next..newEnd] == Without(live, id);
      removed := newEnd != queued.size;
      if removed {
        queued.size := newEnd;
      } else {
        FilterAll(live, x => x != id);
      }
      assert Consumed() == queued.items[..next];
    }

    /** At the front, and the gap is large enough: fill its end. */
    method FillGap(add: IdVector)
      requires Valid() && add.Valid() && add.size <= next && add.items != queued.items
      requires AllValid(add.Contents())
      modifies this, queued.items
      ensures Valid() && queued == old(queued) && queued.items == old(queued.items)
      ensures Live() == add.Contents() + old(Live())
      ensures Consumed() <= old(Consumed())
    {
      ghost var ids, live, consumed := add.Contents(), Live(), Consumed();
      var start := next - add.size;
      assert consumed[..start] == queued.items[..start];
      assert live == queued.items[next..queued.size];
      queued.Overwrite(start, add);
      next := start;
      assert Consumed() == queued.items[..start];
      assert Live() == queued.items[start..queued.size] == ids + live;
    }

    /** At the front, and the gap is too small: copy the live ids behind the new
        ones and swap the vectors. */
    method Rebuild(add: IdVector)
      requires Valid() && add.Valid() && add != queued && add.items != queued.items
      requires AllValid(add.Contents())
      modifies this, queued, add, add.items
      ensures Valid() && queued == old(queued) && queued.items != old(queued.items)
      ensures queued.items == old(add.items) || fresh(queued.items)
      ensures Live() == old(add.Contents()) + old(Live()) && Consumed() == []
    {
      ghost var ids, live := add.Contents(), Live();
      var prev := add.size;
      add.Grow(add.size + queued.size - next);
      assert forall k | 0 <= k < prev :: add.items[k] == add.Contents()[..prev][k] == ids[k];
      CopyBehind(add, prev, ids, live);
      queued.items, add.items := add.items, queued.items;
      queued.size, add.size := add.size, queued.size;
      next := 0;
      assert Live() == queued.Contents();
    }

    /** Copies the live ids into `add`, from `prev` on. */
    method CopyBehind(add: IdVector, prev: nat, ghost ids: seq<EventId>, ghost live: seq<EventId>)
      requires Valid() && live == Live() && add != queued && add.items != queued.items
      requires prev == |ids| && add.size == prev + |live| && add.Valid()
      requires forall k | 0 <= k < prev :: add.items[k] == ids[k]
      modifies add.items
      ensures add.Contents() == ids + live
    {
      var i := next;
      while i < queued.size
        invariant next <= i <= queued.size
        invariant forall k | 0 <= k < prev :: add.items[k] == ids[k]
        invariant forall k | prev <= k < prev + i - next :: add.items[k] == live[k - prev]
        modifies add.items
      {
        assert live[i - next] == queued.items[i];
        add.items[prev + i - next] := queued.items[i];
        i := i + 1;
      }
      SameSequence(add.Contents(), ids + live);
    }

    /** At the back, and the capacity does not suffice: move the live ids to the
        beginning first. */
    method Compact()
      requires Valid()
      modifies this, queued, queued.items
      ensures Valid() && queued == old(queued) && queued.items == old(queued.items)
      ensures Live() == old(Live()) && next == 0 && Consumed() == []
    {
      ghost var live := Live();
      queued.CopyDown(next);
      queued.size := queued.size - next;
      next := 0;
      assert Live() == queued.items[..queued.size] == live;
    }

    /** append_to_queue_unchecked: at the back, it moves to another buffer exactly
        if the capacity cannot hold the live and the new ids. */
    method AppendUnchecked(add: IdVector, position: Position)
      requires Valid() && add.Valid() && add != queued && add.items != queued.items
      requires AllValid(add.Contents())
      modifies this, queued, queued.items, add, add.items
      ensures Valid() && queued == old(queued)
      ensures queued.items == old(queued.items) || queued.items == old(add.items) || fresh(queued.items)
      ensures Live() == Place(old(Live()), old(add.Contents()), position)
      ensures Consumed() <= old(Consumed())
      ensures position == AtBack ==>
        (queued.items == old(queued.items) <==> |old(Live())| + old(add.size) <= old(queued.items.Length))
    {
      if add.size == 0 {
        return;
      }
      if position == AtFront {
        if add.size <= next {
          FillGap(add);
        } else {
          Rebuild(add);
        }
      } else {
        if 0 < next && queued.items.Length - queued.size < add.size {
          Compact();
        }
        AppendBehind(add);
      }
    }

    /** The insertion at the end of the vector. */
    method AppendBehind(add: IdVector)
      requires Valid() && add.Valid() && add != queued && add.items != queued.items
      requires AllValid(add.Contents())
      modifies queued, queued.items
      ensures Valid() && (queued.items == old(queued.items) || fresh(queued.items))
      ensures Live() == old(Live()) + add.Contents() && Consumed() == old(Consumed())
      ensures queued.items == old(queued.items) <==> old(queued.size) + add.size <= old(queued.items.Length)
    {
      ghost var live, consumed := Live(), Consumed();
      assert queued.Contents() == consumed + live;
      queued.Append(add);
      assert queued.Contents() == consumed + (live + add.Contents());
    }

    /** queue_as for one id */
    method QueueAs(id: EventId, strategy: Strategy, position: Position) returns (result: Result)
      requires Valid()
      modifies Parts()
      ensures Valid() && queued == old(queued) && (queued.items == old(queued.items) || fresh(queued.items))
      ensures Outcome(Live(), [result]) == QueueOne(old(Live()), id, strategy, position)
      ensures Consumed() <= old(Consumed())
    {
      var add := new IdVector();
      result := PrepareAppend(add, id, strategy);
      if add.size != 0 {
        AppendUnchecked(add, position);
      }
    }

    /** The loop over a range: `results` are the answers passed to the callback. */
    method PrepareRange(add: IdVector, ids: seq<EventId>, strategy: Strategy) returns (results: seq<Result>)
      requires Valid() && add.Valid() && add != queued && add.items != queued.items
      modifies queued, queued.items, add, add.items
      ensures Valid() && add.Valid() && queued.items == old(queued.items)
      ensures add.items == old(add.items) || fresh(add.items)
      ensures Range(Live(), add.Contents(), results) == PrepareAll(old(Live()), old(add.Contents()), ids, strategy)
      ensures Consumed() == old(Consumed())
    {
      ghost var whole := PrepareAll(Live(), add.Contents(), ids, strategy);
      results := [];
      var i := 0;
      while i < |ids|
        invariant 0 <= i <= |ids|
        invariant Valid() && add.Valid() && queued.items == old(queued.items)
        invariant add.items == old(add.items) || fresh(add.items)
        invariant Consumed() == old(Consumed())
        invariant WithAnswers(results, PrepareAll(Live(), add.Contents(), ids[i..], strategy)) == whole
      {
        PrepareFirst(Live(), add.Contents(), ids[i..], strategy, results);
        assert ids[i..][1..] == ids[i + 1..];
        var result := PrepareAppend(add, ids[i], strategy);
        results := results + [result];
        i := i + 1;
      }
    }

    /** queue_as for a range */
    method QueueRangeAs(ids: seq<EventId>, strategy: Strategy, position: Position) returns (results: seq<Result>)
      requires Valid()
      modifies Parts()
      ensures Valid() && queued == old(queued) && (queued.items == old(queued.items) || fresh(queued.items))
      ensures Outcome(Live(), results) == QueueRange(old(Live()), ids, strategy, position)
      ensures Consumed() <= old(Consumed())
    {
      var add := new IdVector();
      ghost var live := Live();
      results := PrepareRange(add, ids, strategy);
      RangeAdds(live, [], ids, strategy);
      forall x | x in add.Contents() ensures IsValid(x) {
        FilterMembers(ids, id => Enters(live, id, strategy), x);
      }
      AppendUnchecked(add, position);
    }

    /** unqueue: removes matching ids from the whole vector, the consumed part
        included, and leaves the cursor where it was. */
    method Unqueue(matches: EventId -> bool) returns (found: bool)
      requires Valid()
      modifies queued, queued.items
      ensures queued.Valid() && queued.Contents() == Unqueued(old(Consumed()), old(Live()), matches)
      ensures found <==> exists id :: id in old(queued.Contents()) && matches(id)
      ensures (forall id | id in old(Consumed()) :: !matches(id)) ==>
        && Valid() && Live() == Filter(old(Live()), id => !matches(id))
        && (forall id | id in Live() :: !matches(id))
        && Consumed() == old(Consumed()) && queued.items == old(queued.items)
        && (found <==> exists id :: id in old(Live()) && matches(id))
    {
      ghost var consumed, live := Consumed(), Live();
      ghost var keep := id => !matches(id);
      assert queued.Contents() == consumed + live;
      FilterLength(consumed + live, keep);
      var newEnd := queued.RemoveIf(0, matches);
      found := newEnd != queued.size;
      if found {
        queued.size := newEnd;
      }
      assert queued.Contents() == Unqueued(consumed, live, matches);
      if forall id | id in consumed :: !matches(id) {
        FilterConcat(consumed, live, keep);
        FilterAll(consumed, keep);
        assert Consumed() == consumed && Live() == Filter(live, keep);
        forall id ensures id in Live() <==> id in live && keep(id) {
          FilterMembers(live, keep, id);
        }
      }
    }
  }

  method Answer(q: IdQueue, call: Call) returns (reply: Reply)
    requires q.Valid()
    requires call.Unqueue? ==> forall id | id in q.Consumed() :: !call.matches(id)
    modifies q.Parts()
    ensures q.Valid() && q.queued == old(q.queued) && (q.queued.items == old(q.queued.items) || fresh(q.queued.items))
    ensures (q.Live(), reply) == Apply(old(q.Live()), call)
    ensures if call.Pop? then q.Consumed() == old(q.Consumed()) + if old(q.Live()) == [] then [] else [old(q.Live())[0]]
            else q.Consumed() <= old(q.Consumed())
  {
    match call
    case Pop =>
      var id := q.Pop();
      reply := Popped(id);
    case IsQueued(matches) =>
      var found := q.IsQueuedAs(matches);
      reply := Found(found);
    case Single(id, strategy, position) =>
      var result := q.QueueAs(id, strategy, position);
      reply := Answers([result]);
    case Many(ids, strategy, position) =>
      var results := q.QueueRangeAs(ids, strategy, position);
      reply := Answers(results);
    case Unqueue(matches) =>
      var found := q.Unqueue(matches);
      reply := Found(found);
  }

  /** Refinement over whole runs: whatever the calls are, and whatever capacity
      and gaps the vector has gone through, a new event replies to them as the
      plain sequence does, as long as nobody unqueues an id that has been popped. */
  method Replay(original: EventId, calls: seq<Call>) returns (replies: Option<seq<Reply>>)
    requires Careful([original], {}, calls)
    ensures replies == if original != NoEvent then Some(Replies([original], calls)) else None
  {
    var q := IdQueue.Make(original);
    if q.None? {
      return None;
    }
    var sofar: seq<Reply> := [];
    ghost var popped: set<EventId> := {};
    for i := 0 to |calls|
      invariant fresh(q.value) && fresh(q.value.Parts()) && q.value.Valid()
      invariant sofar + Replies(q.value.Live(), calls[i..]) == Replies([original], calls)
      invariant Careful(q.value.Live(), popped, calls[i..]) && StoredFrom(q.value.Consumed(), popped)
    {
      FirstReply(q.value.Live(), calls[i..], sofar);
      assert calls[i..][0] == calls[i] && calls[i..][1..] == calls[i + 1..];
      popped := popped + TakenBy(q.value.Live(), calls[i]);
      var reply := Answer(q.value, calls[i]);
      sofar := sofar + [reply];
    }
    assert calls[|calls|..] == [] && sofar + [] == sofar;
    replies := Some(sofar);
  }

  /** The hypothesis is needed: `a` is popped and then unqueued, and `b`, which
      was queued behind it, is never handed out. */
  method CarelessUnqueue(a: EventId, b: EventId) returns (popped: EventId, next: EventId)
    requires IsValid(a) && IsValid(b) && a != b
    ensures popped == a && next == NoEvent
  {
    var q := new IdQueue(a);
    var _ := q.QueueAs(b, Discard, AtBack);
    popped := q.Pop();
    assert q.Consumed() == [a] && q.Live() == [b];
    var matches := (id: EventId) => id == a;
    UnqueueCanLoseIds(a, b, matches);
    var _ := q.Unqueue(matches);
    assert q.queued.Contents() == [b];
    next := q.Pop();
  }
}
