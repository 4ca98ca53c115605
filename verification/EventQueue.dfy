/** The event manager's deque and list of one-shot consumers, as one thread
    sees them while it holds the queue mutex. */
module EventQueue {
  import opened Wrappers
  import opened QueueSpec

  class EventQueue {
    var queue: seq<Event>
    var consumers: seq<Consumer>
    var index: nat  // consumers[..index] have been called

    constructor ()
      ensures Valid() && queue == [] && Pending() == []
    {
      queue, consumers, index := [], [], 0;
    }

    /** Holds whenever the queue mutex is free. */
    ghost predicate Valid()
      reads this
    {
      && (index < |consumers| || index == |consumers| == 0)
      && (queue == [] || Pending() == [])
    }

    ghost function Pending(): seq<Consumer>
      reads this
    {
      if index <= |consumers| then consumers[index..] else []
    }

    method TryUnqueue(answers: seq<bool>) returns (called: seq<Consumer>, accepted: seq<Delivery>)
      requires index < |consumers| || index == |consumers| == 0
      requires |answers| == |Pending()|
      modifies this
      ensures Valid()
      ensures Served(queue, Pending(), called, accepted) == Serve(old(queue), old(Pending()), answers)
    {
      ghost var start, whole := index, Serve(queue, Pending(), answers);
      called, accepted := [], [];
      while queue != [] && index < |consumers|
        invariant start <= index <= |consumers| == start + |answers|
        invariant consumers == old(consumers) && index == start + |called|
        invariant Continued(called, accepted, Serve(queue, consumers[index..], answers[|called|..])) == whole
        decreases |consumers| - index
      {
        ServeFirst(queue, consumers[index..], answers[|called|..], called, accepted);
        assert consumers[index..][1..] == consumers[index + 1..];
        assert answers[|called|..][1..] == answers[|called| + 1..];
        var c := consumers[index];
        index := index + 1;
        called := called + [c];
        if answers[|called| - 1] {
          accepted := accepted + [Delivery(c, queue[0])];
          queue := queue[1..];
        } else {
          assert accepted + [] == accepted;
        }
      }
      if index != 0 && index == |consumers| {
        index := 0;
        consumers := [];
      }
    }

    /** queue(e) */
    method Queue(e: Event, answers: seq<bool>) returns (called: seq<Consumer>, accepted: seq<Delivery>)
      requires Valid() && |answers| == |Pending()|
      modifies this
      ensures Valid()
      ensures Served(queue, Pending(), called, accepted) == Serve(old(queue) + [e], old(Pending()), answers)
    {
      queue := queue + [e];
      called, accepted := TryUnqueue(answers);
    }

    /** The end of handle: the events registered with afterwards() are copied to
        the front one by one, the last of them first. */
    method Splice(events: seq<Event>, answers: seq<bool>) returns (called: seq<Consumer>, accepted: seq<Delivery>)
      requires Valid() && |answers| == |Pending()|
      modifies this
      ensures Valid()
      ensures Served(queue, Pending(), called, accepted) == Serve(events + old(queue), old(Pending()), answers)
    {
      var i := |events|;
      while i > 0
        invariant 0 <= i <= |events| && consumers == old(consumers) && index == old(index)
        invariant queue == events[i..] + old(queue)
      {
        i := i - 1;
        queue := [events[i]] + queue;
      }
      assert queue == events + old(queue);
      called, accepted := TryUnqueue(answers);
    }

    /** wait_event(callback): `answer` is what the callback says if it is called
        at once. */
    method WaitCallback(c: Consumer, answer: bool) returns (called: seq<Consumer>, accepted: seq<Delivery>)
      requires Valid()
      modifies this
      ensures Valid()
      ensures old(queue) == [] ==>
        queue == [] && Pending() == old(Pending()) + [c] && called == [] && accepted == []
      ensures old(queue) != [] ==>
        Served(queue, Pending(), called, accepted) == Serve(old(queue), old(Pending()) + [c], [answer])
    {
      called, accepted := [], [];
      if queue != [] {
        called := [c];
        if answer {
          accepted := [Delivery(c, queue[0])];
          queue := queue[1..];
        }
      } else {
        consumers := consumers + [c];
      }
    }

    /** The check at the head of both returning forms of wait_event. */
    method TakeFront() returns (e: Option<Event>)
      requires Valid()
      modifies this
      ensures Valid() && Pending() == old(Pending())
      ensures if old(queue) == [] then e == None && queue == []
              else e == Some(old(queue)[0]) && queue == old(queue)[1..]
    {
      if queue == [] { return None; }
      e := Some(queue[0]);
      queue := queue[1..];
    }
  }
}
