/** What try_unqueue does to the deque and the pending consumers, as a function
    of the answers the consumers give. */
module QueueSpec {

  /** Events are told apart by identity; the library passes shared pointers. */
  type Event = nat

  /** An entry of queue_consumers: the closure made for a blocking or timed
      call of wait_event, or a callback handed to wait_event. Both are named by
      the call that registers them. */
  datatype Consumer = Waiter(call: nat) | Callback(ticket: nat)

  /** An event accepted by a consumer or returned straight from the deque. */
  datatype Delivery = Delivery(to: Consumer, event: Event)

  /** What is left of the deque and of the consumers, who was called, and what
      was accepted. */
  datatype Served = Served(queue: seq<Event>, pending: seq<Consumer>, called: seq<Consumer>, accepted: seq<Delivery>)

  /** The front event is offered to the first consumer, and so on: `answers[i]`
      is the answer `pending[i]` gives if it is called. */
  function Serve(queue: seq<Event>, pending: seq<Consumer>, answers: seq<bool>): Served
    requires |answers| == |pending|
    decreases |pending|
  {
    if queue == [] || pending == [] then Served(queue, pending, [], [])
    else
      var rest := Serve(if answers[0] then queue[1..] else queue, pending[1..], answers[1..]);
      rest.(called := [pending[0]] + rest.called,
            accepted := (if answers[0] then [Delivery(pending[0], queue[0])] else []) + rest.accepted)
  }

  /** The loop has come as far as `called` and `accepted`; `rest` is still to do. */
  function Continued(called: seq<Consumer>, accepted: seq<Delivery>, rest: Served): Served {
    Served(rest.queue, rest.pending, called + rest.called, accepted + rest.accepted)
  }

  lemma ServeFirst(queue: seq<Event>, pending: seq<Consumer>, answers: seq<bool>,
                   called: seq<Consumer>, accepted: seq<Delivery>)
    requires queue != [] && pending != [] && |answers| == |pending|
    ensures var given := if answers[0] then [Delivery(pending[0], queue[0])] else [];
      Continued(called, accepted, Serve(queue, pending, answers)) ==
      Continued(called + [pending[0]], accepted + given,
                Serve(if answers[0] then queue[1..] else queue, pending[1..], answers[1..]))
  {
    var given := if answers[0] then [Delivery(pending[0], queue[0])] else [];
    var rest := Serve(if answers[0] then queue[1..] else queue, pending[1..], answers[1..]);
    assert called + [pending[0]] + rest.called == called + ([pending[0]] + rest.called);
    assert accepted + given + rest.accepted == accepted + (given + rest.accepted);
  }

  function Accepts(answers: seq<bool>): nat {
    if answers == [] then 0 else (if answers[0] then 1 else 0) + Accepts(answers[1..])
  }

  function Events(ds: seq<Delivery>): (es: seq<Event>)
    ensures |es| == |ds|
  {
    seq(|ds|, i requires 0 <= i < |ds| => ds[i].event)
  }

  lemma EventsOfConcat(ds: seq<Delivery>, es: seq<Delivery>)
    ensures Events(ds + es) == Events(ds) + Events(es)
  {}

  /** No event is lost or reordered. */
  lemma {:induction false} ServeKeepsEvents(queue: seq<Event>, pending: seq<Consumer>, answers: seq<bool>)
    requires |answers| == |pending|
    ensures var r := Serve(queue, pending, answers); Events(r.accepted) + r.queue == queue
    decreases |pending|
  {
    if queue != [] && pending != [] {
      var left := if answers[0] then queue[1..] else queue;
      var given := if answers[0] then [Delivery(pending[0], queue[0])] else [];
      var rest := Serve(left, pending[1..], answers[1..]);
      ServeKeepsEvents(left, pending[1..], answers[1..]);
      calc {
        Events(given + rest.accepted) + rest.queue;
        { EventsOfConcat(given, rest.accepted); }
        Events(given) + Events(rest.accepted) + rest.queue;
        Events(given) + (Events(rest.accepted) + rest.queue);
        Events(given) + left;
        queue;
      }
    }
  }

  /** No consumer is skipped or called out of turn. */
  lemma {:induction false} ServeKeepsConsumers(queue: seq<Event>, pending: seq<Consumer>, answers: seq<bool>)
    requires |answers| == |pending|
    ensures var r := Serve(queue, pending, answers); r.called + r.pending == pending
    decreases |pending|
  {
    if queue != [] && pending != [] {
      ServeKeepsConsumers(if answers[0] then queue[1..] else queue, pending[1..], answers[1..]);
    }
  }

  /** The loop runs until one side is used up; every yes takes one event. */
  lemma {:induction false} ServeExhausts(queue: seq<Event>, pending: seq<Consumer>, answers: seq<bool>)
    requires |answers| == |pending|
    ensures var r := Serve(queue, pending, answers);
      && (r.queue == [] || r.pending == [])
      && |r.called| <= |pending|
      && |r.accepted| == Accepts(answers[..|r.called|])
    decreases |pending|
  {
    if queue != [] && pending != [] {
      var left := if answers[0] then queue[1..] else queue;
      ServeExhausts(left, pending[1..], answers[1..]);
      var n := |Serve(left, pending[1..], answers[1..]).called|;
      assert answers[..n + 1][1..] == answers[1..][..n];
    }
  }

  /** The number of consumers called is the only one that stops neither early
      nor late: every one of them finds an event, and then a side is used up. */
  lemma {:induction false} ServeIsExact(queue: seq<Event>, pending: seq<Consumer>, answers: seq<bool>, n: nat)
    requires |answers| == |pending| && n <= |pending|
    requires forall k | 0 <= k < n :: Accepts(answers[..k]) < |queue|
    requires n == |pending| || Accepts(answers[..n]) == |queue|
    ensures |Serve(queue, pending, answers).called| == n
    decreases |pending|
  {
    if n == 0 {
      assert answers[..0] == [];
    } else {
      assert Accepts(answers[..0]) < |queue|;
      var left := if answers[0] then queue[1..] else queue;
      forall k | 0 <= k < n - 1 ensures Accepts(answers[1..][..k]) < |left| {
        assert answers[..k + 1][1..] == answers[1..][..k];
        assert Accepts(answers[..k + 1]) < |queue|;
      }
      assert answers[..n][1..] == answers[1..][..n - 1];
      ServeIsExact(left, pending[1..], answers[1..], n - 1);
    }
  }

  /** An accepted event goes to the consumer whose turn it was. */
  lemma {:induction false} ServeMatches(queue: seq<Event>, pending: seq<Consumer>, answers: seq<bool>, k: nat)
    requires |answers| == |pending| && k < |answers| && answers[k]
    requires k < |Serve(queue, pending, answers).called|
    ensures Accepts(answers[..k]) < |queue|
    ensures Delivery(pending[k], queue[Accepts(answers[..k])]) in Serve(queue, pending, answers).accepted
    decreases |pending|
  {
    var left := if answers[0] then queue[1..] else queue;
    if k == 0 {
      assert answers[..0] == [];
    } else {
      ServeMatches(left, pending[1..], answers[1..], k - 1);
      assert answers[..k][1..] == answers[1..][..k - 1];
    }
  }
}
