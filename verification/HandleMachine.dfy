/** handle and handle_as as a stack machine. While a handler runs it may do
    anything a handler can do to the event, any number of times: queue ids,
    dispatch the event as another id, handle the whole event again, register
    events for afterwards, or return. */
module HandleMachine {
  import opened EventIds
  import opened IdQueueSpec
  import opened HandleTrace

  /** Where an activation of handle stands; `next` is its local next_id. */
  datatype Phase =
    | AtBegin
    | FirstPop
    | Loop(next: EventId)
    | NextPop
    | CheckPop
    | AtFinish
    | Splice

  /** An activation of handle with its dispatches so far, or one of handle_as
      with the id it put aside. */
  datatype Frame =
    | Handling(phase: Phase, trace: seq<Entry>)
    | Dispatching(id: EventId, saved: EventId)

  /** The event, and what has happened to it: `skipped` are ids that an unqueue
      let the cursor pass,  `popped` and `started` are the ids
      taken off the queue and the ids dispatched from the loop, `registered`
      the events passed to afterwards, `spliced` those handed to the manager,
      `completed` the dispatches of every activation of handle that has ended. */
  datatype State = State(
    live: seq<EventId>,
    current: EventId,
    afterwards: seq<nat>,
    stack: seq<Frame>,  // the innermost activation comes first
    skipped: seq<EventId>,
    popped: seq<EventId>,
    started: seq<EventId>,
    registered: seq<nat>,
    spliced: seq<nat>,
    completed: seq<seq<Entry>>)

  datatype Deed =
    | QueueIds(ids: seq<EventId>, strategy: Strategy, position: Position)
    | Unqueue(matches: EventId -> bool, lost: nat)
    | HandleAs(id: EventId)
    | Handle
    | Afterwards(event: nat)
    | LeaveHandler

  function Init(original: EventId): State {
    State([original], NoEvent, [], [], [], [], [], [], [], [])
  }

  /** handle_as: the current id is swapped, and put back on return. */
  function Dispatch(s: State, id: EventId): State {
    s.(current := id, stack := [Dispatching(id, s.current)] + s.stack)
  }

  /** A dispatch made by the innermost activation, which goes on at `phase`. */
  function DispatchFrom(s: State, site: Site, phase: Phase): State
    requires s.stack != [] && s.stack[0].Handling?
  {
    var frame := Handling(phase, s.stack[0].trace + [Entry(site, s.live)]);
    Dispatch(s.(stack := [frame] + s.stack[1..]), SignalOf(site))
  }

  function Goto(s: State, phase: Phase): State
    requires s.stack != [] && s.stack[0].Handling?
  {
    s.(stack := [s.stack[0].(phase := phase)] + s.stack[1..])
  }

  function PopTo(s: State): EventId {
    if s.live == [] then NoEvent else s.live[0]
  }

  function Popped(s: State): State {
    if s.live == [] then s else s.(live := s.live[1..], popped := s.popped + [s.live[0]])
  }

  /** The next step of the activation of handle on top of the stack. */
  function HandleStep(s: State): State
    requires s.stack != [] && s.stack[0].Handling?
  {
    match s.stack[0].phase
    case AtBegin => DispatchFrom(s, Begin, FirstPop)
    case FirstPop => Goto(Popped(s), Loop(PopTo(s)))
    case Loop(next) =>
      if IsValid(next) then DispatchFrom(s, Ordinary(next), NextPop).(started := s.started + [next])
      else DispatchFrom(s, Finishing, CheckPop)
    case NextPop => Goto(Popped(s), Loop(PopTo(s)))
    case CheckPop => Goto(Popped(s), if s.live == [] then AtFinish else Loop(PopTo(s)))
    case AtFinish => DispatchFrom(s, Finished, Splice)
    case Splice =>
      s.(stack := s.stack[1..], afterwards := [], spliced := s.spliced + s.afterwards,
         completed := s.completed + [s.stack[0].trace])
  }

  /** unqueue removes matching ids from the stored vector and leaves the cursor
      where it is, so that it passes one live id for every matching id stored in
      front of it. How many there are, `lost`, depends on the vector's capacity;
      none unless an id that the cursor has passed matches. */
  predicate CanLose(s: State, matches: EventId -> bool, lost: nat) {
    && lost <= |Filter(s.live, id => !matches(id))|
    && (lost > 0 ==> exists id | id in s.popped + s.skipped :: matches(id))
  }

  function AfterUnqueue(s: State, matches: EventId -> bool, lost: nat): State {
    if CanLose(s, matches, lost) then
      var left := Filter(s.live, id => !matches(id));
      s.(live := left[lost..], skipped := s.skipped + left[..lost])
    else s  // there is no such call
  }

  /** What a handler does, or the program outside of all handlers. */
  function HandlerStep(s: State, deed: Deed): State {
    match deed
    case QueueIds(ids, strategy, position) => s.(live := QueueRange(s.live, ids, strategy, position).live)
    case Unqueue(matches, lost) => AfterUnqueue(s, matches, lost)
    case HandleAs(id) => Dispatch(s, id)
    case Handle => s.(stack := [Handling(AtBegin, [])] + s.stack)
    case Afterwards(e) => s.(afterwards := s.afterwards + [e], registered := s.registered + [e])
    case LeaveHandler =>
      if s.stack != [] && s.stack[0].Dispatching? then s.(current := s.stack[0].saved, stack := s.stack[1..]) else s
  }

  function Step(s: State, deed: Deed): State {
    if s.stack != [] && s.stack[0].Handling? then HandleStep(s) else HandlerStep(s, deed)
  }

  function Run(s: State, deeds: seq<Deed>): State
    decreases |deeds|
  {
    if |deeds| == 0 then s else Run(Step(s, deeds[0]), deeds[1..])
  }

  // ------------------------------------------------------------- the invariant

  function Sites(trace: seq<Entry>): (t: seq<Site>)
    ensures |t| == |trace|
  {
    seq(|trace|, i requires 0 <= i < |trace| => trace[i].site)
  }

  /** Finishing and finished are dispatched with an empty queue only. */
  ghost predicate DrainedAtFinish(trace: seq<Entry>) {
    forall i | 0 <= i < |trace| :: trace[i].site.Finishing? || trace[i].site.Finished? ==> trace[i].live == []
  }

  ghost predicate Fits(frame: Frame) {
    frame.Handling? ==>
      && DrainedAtFinish(frame.trace)
      && (frame.phase.AtBegin? <==> frame.trace == [])
      && (frame.trace != [] ==> Walk(Sites(frame.trace)) && Last(frame.phase, frame.trace[|frame.trace| - 1].site))
  }

  /** The site an activation at `phase` has dispatched last. */
  predicate Last(phase: Phase, site: Site) {
    match phase
    case AtBegin => false
    case FirstPop => site == Begin
    case Loop(next) => site == Begin || site.Ordinary? || (site == Finishing && IsValid(next))
    case NextPop => site.Ordinary?
    case CheckPop => site == Finishing
    case AtFinish => site == Finishing
    case Splice => site == Finished
  }

  /** The id in hand between a pop and its dispatch. */
  function InHand(s: State): seq<EventId> {
    if s.stack != [] && s.stack[0].Handling? && s.stack[0].phase.Loop? && IsValid(s.stack[0].phase.next)
    then [s.stack[0].phase.next] else []
  }

  /** The innermost dispatch decides the current id, and the frames remember
      the ids to go back to. */
  predicate CurrentIs(stack: seq<Frame>, current: EventId) {
    if stack == [] then current == NoEvent
    else if stack[0].Handling? then CurrentIs(stack[1..], current)
    else current == stack[0].id && CurrentIs(stack[1..], stack[0].saved)
  }

  /** An activation that has popped nothing has found the queue empty. */
  predicate EmptyHand(s: State) {
    s.stack != [] && s.stack[0].Handling? && (s.stack[0].phase == Loop(NoEvent) || s.stack[0].phase.AtFinish?)
    ==> s.live == []
  }

  /** An activation below the innermost one waits for a dispatch of its own;
      whoever calls handle is a handler, or nobody. */
  ghost predicate Stacked(stack: seq<Frame>) {
    && (forall i | 1 <= i < |stack| && stack[i].Handling? :: Waiting(stack[i].phase))
    && (forall i | 0 <= i < |stack| - 1 && stack[i].Handling? :: stack[i + 1].Dispatching?)
  }

  /** A dispatch made by handle carries the id that it was made for. */
  ghost predicate Attached(stack: seq<Frame>) {
    forall i | 0 <= i < |stack| - 1 && stack[i].Dispatching? && stack[i + 1].Handling? ::
      var trace := stack[i + 1].trace;
      trace != [] && RaisedAs(trace[|trace| - 1].site, stack[i].id)
  }

  predicate Waiting(phase: Phase) {
    phase.FirstPop? || phase.NextPop? || phase.CheckPop? || phase.Splice?
  }

  ghost predicate Inv(s: State) {
    && AllValid(s.live) && EmptyHand(s) && CurrentIs(s.stack, s.current) && Stacked(s.stack) && Attached(s.stack)
    && (forall f | f in s.stack :: Fits(f))
    && s.popped == s.started + InHand(s)
    && s.registered == s.spliced + s.afterwards
    && (forall t | t in s.completed :: Complete(Sites(t)) && DrainedAtFinish(t))
  }

  lemma InitInv(original: EventId)
    requires IsValid(original)
    ensures Inv(Init(original))
  {}

  lemma WalkOn(trace: seq<Entry>, entry: Entry)
    requires if trace == [] then entry.site == Begin
             else Walk(Sites(trace)) && Adjacent(trace[|trace| - 1].site, entry.site)
    ensures Walk(Sites(trace + [entry]))
  {
    var t, u := Sites(trace), Sites(trace + [entry]);
    forall i | 0 <= i < |u| - 1 ensures Adjacent(u[i], u[i + 1]) {
      if i < |t| - 1 { assert Adjacent(t[i], t[i + 1]); }
    }
  }

  /** A dispatch from the innermost activation. */
  lemma DispatchFits(s: State, site: Site, phase: Phase)
    requires Inv(s) && s.stack != [] && s.stack[0].Handling? && Waiting(phase) && Last(phase, site)
    requires var trace := s.stack[0].trace;
      if trace == [] then site == Begin else Adjacent(trace[|trace| - 1].site, site)
    requires site.Finishing? || site.Finished? ==> s.live == []
    ensures var n := DispatchFrom(s, site, phase);
      Stacked(n.stack) && Attached(n.stack) && CurrentIs(n.stack, n.current) && forall f | f in n.stack :: Fits(f)
  {
    var n := DispatchFrom(s, site, phase);
    var frame := s.stack[0];
    assert Fits(frame);
    WalkOn(frame.trace, Entry(site, s.live));
    DispatchStacks(s, site, phase);
    assert Fits(n.stack[1]);
    forall f | f in n.stack ensures Fits(f) {
      if f != n.stack[0] && f != n.stack[1] { assert f in s.stack; }
    }
  }

  lemma DispatchStacks(s: State, site: Site, phase: Phase)
    requires s.stack != [] && s.stack[0].Handling? && Waiting(phase)
    requires Stacked(s.stack) && Attached(s.stack) && CurrentIs(s.stack, s.current)
    ensures var n := DispatchFrom(s, site, phase);
      Stacked(n.stack) && Attached(n.stack) && CurrentIs(n.stack, n.current)
  {
    var n := DispatchFrom(s, site, phase);
    assert n.stack[1].Handling? && n.stack[2..] == s.stack[1..] && n.stack[1..][1..] == s.stack[1..];
    forall i | 0 <= i < |n.stack| - 1 && n.stack[i].Dispatching? && n.stack[i + 1].Handling?
      ensures var trace := n.stack[i + 1].trace; trace != [] && RaisedAs(trace[|trace| - 1].site, n.stack[i].id)
    {
      if i > 0 { assert n.stack[i] == s.stack[i - 1] && n.stack[i + 1] == s.stack[i]; }
    }
  }

  lemma GotoFits(s: State, phase: Phase)
    requires Inv(s) && s.stack != [] && s.stack[0].Handling?
    requires !phase.AtBegin? && s.stack[0].trace != [] && Last(phase, s.stack[0].trace[|s.stack[0].trace| - 1].site)
    ensures var n := Goto(s, phase);
      Stacked(n.stack) && Attached(n.stack) && CurrentIs(n.stack, n.current) && forall f | f in n.stack :: Fits(f)
  {
    var n := Goto(s, phase);
    assert Fits(s.stack[0]);
    assert n.stack[1..] == s.stack[1..];
    forall f | f in n.stack ensures Fits(f) {
      if f != n.stack[0] { assert f in s.stack; }
    }
  }

  lemma HandleStepKeepsInv(s: State)
    requires Inv(s) && s.stack != [] && s.stack[0].Handling?
    ensures Inv(HandleStep(s))
  {
    var frame := s.stack[0];
    assert Fits(frame);
    match frame.phase
    case AtBegin => DispatchFits(s, Begin, FirstPop);
    case FirstPop => PopKeepsInv(s);
    case Loop(next) =>
      if IsValid(next) {
        DispatchFits(s, Ordinary(next), NextPop);
      } else {
        DispatchFits(s, Finishing, CheckPop);
      }
    case NextPop => PopKeepsInv(s);
    case CheckPop => PopKeepsInv(s);
    case AtFinish => DispatchFits(s, Finished, Splice);
    case Splice =>
      assert forall f | f in s.stack[1..] :: f in s.stack;
      assert Stacked(s.stack[1..]) && Attached(s.stack[1..]) by {
        assert forall i | 0 <= i < |s.stack[1..]| :: s.stack[1..][i] == s.stack[i + 1];
      }
  }

  lemma PopKeepsInv(s: State)
    requires Inv(s) && s.stack != [] && s.stack[0].Handling?
    requires s.stack[0].phase.FirstPop? || s.stack[0].phase.NextPop? || s.stack[0].phase.CheckPop?
    ensures Inv(HandleStep(s))
  {
    assert Fits(s.stack[0]);
    assert s.live != [] ==> s.live[0] in s.live;
    var phase := if s.stack[0].phase.CheckPop? && s.live == [] then AtFinish else Loop(PopTo(s));
    GotoFits(s, phase);
  }

  lemma UnqueueKeepsValid(s: State, matches: EventId -> bool, lost: nat)
    requires AllValid(s.live)
    ensures AllValid(AfterUnqueue(s, matches, lost).live)
  {
    var keep := id => !matches(id);
    forall id | id in Filter(s.live, keep) ensures IsValid(id) {
      FilterMembers(s.live, keep, id);
    }
  }

  lemma HandlerStepKeepsInv(s: State, deed: Deed)
    requires Inv(s) && (s.stack == [] || s.stack[0].Dispatching?)
    ensures Inv(HandlerStep(s, deed))
  {
    var n := HandlerStep(s, deed);
    match deed
    case QueueIds(ids, strategy, position) => RangeKeepsValid(s.live, ids, strategy, position);
    case Unqueue(matches, lost) => UnqueueKeepsValid(s, matches, lost);
    case HandleAs(_) => assert n.stack[1..] == s.stack;
    case Handle => assert n.stack[1..] == s.stack;
    case Afterwards(_) =>
    case LeaveHandler =>
      if s.stack != [] { LeaveKeepsInv(s, deed); }
  }

  lemma LeaveKeepsInv(s: State, deed: Deed)
    requires Inv(s) && s.stack != [] && s.stack[0].Dispatching? && deed.LeaveHandler?
    ensures Inv(HandlerStep(s, deed))
  {
    var n := HandlerStep(s, deed);
    assert n.stack == s.stack[1..];
    assert forall i | 0 <= i < |n.stack| :: n.stack[i] == s.stack[i + 1];
  }

  lemma {:induction false} RunKeepsInv(s: State, deeds: seq<Deed>)
    requires Inv(s)
    ensures Inv(Run(s, deeds))
    decreases |deeds|
  {
    if |deeds| > 0 {
      if s.stack != [] && s.stack[0].Handling? { HandleStepKeepsInv(s); } else { HandlerStepKeepsInv(s, deeds[0]); }
      RunKeepsInv(Step(s, deeds[0]), deeds[1..]);
    }
  }

  // --------------------------------------------------------------- the theorems

  /** Every activation of handle that ends, nested in a handler or not, has
      dispatched a sentence of begin (id* finishing)+ finished, and the live
      queue was empty at each of its dispatches of finishing and of finished. */
  lemma HandleDispatchesSentences(original: EventId, deeds: seq<Deed>, t: seq<Entry>)
    requires IsValid(original) && t in Run(Init(original), deeds).completed
    ensures exists groups :: Sentence(Sites(t), groups)
    ensures DrainedAtFinish(t)
  {
    InitInv(original);
    RunKeepsInv(Init(original), deeds);
    CompleteIsSentence(Sites(t));
  }

  /** Every id taken off the live queue is dispatched, once and in that order;
      at most the last one is still in hand. */
  lemma PoppedIdsAreDispatched(original: EventId, deeds: seq<Deed>)
    requires IsValid(original)
    ensures var s := Run(Init(original), deeds);
      s.popped == s.started + InHand(s) && |InHand(s)| <= 1
  {
    InitInv(original);
    RunKeepsInv(Init(original), deeds);
  }

  /** Every event passed to afterwards is handed to the manager once, in the
      order of registration, or still waits for the end of a handle. */
  lemma AfterwardsAreSplicedOnce(original: EventId, deeds: seq<Deed>)
    requires IsValid(original)
    ensures var s := Run(Init(original), deeds); s.registered == s.spliced + s.afterwards
  {
    InitInv(original);
    RunKeepsInv(Init(original), deeds);
  }

  /** The ids of the dispatches in progress, innermost first. */
  function InProgress(stack: seq<Frame>): seq<EventId> {
    if stack == [] then []
    else (if stack[0].Dispatching? then [stack[0].id] else []) + InProgress(stack[1..])
  }

  lemma {:induction false} CurrentIsInnermost(stack: seq<Frame>, current: EventId)
    requires CurrentIs(stack, current)
    ensures current == if InProgress(stack) == [] then NoEvent else InProgress(stack)[0]
  {
    if stack != [] && stack[0].Handling? {
      CurrentIsInnermost(stack[1..], current);
    }
  }

  /** The current id is restored: whenever the same dispatches are in progress
      again, the event has the same current id, the innermost one's. */
  lemma CurrentIsRestored(original: EventId, deeds: seq<Deed>, more: seq<Deed>)
    requires IsValid(original)
    requires InProgress(Run(Init(original), deeds).stack) == InProgress(Run(Run(Init(original), deeds), more).stack)
    ensures var s := Run(Init(original), deeds); s.current == Run(s, more).current
  {
    var s := Run(Init(original), deeds);
    InitInv(original);
    RunKeepsInv(Init(original), deeds);
    RunKeepsInv(s, more);
    CurrentIsInnermost(s.stack, s.current);
    CurrentIsInnermost(Run(s, more).stack, Run(s, more).current);
  }

  // ------------------------------------------------------- what is left on return

  ghost predicate QueueNothing(deeds: seq<Deed>) {
    forall i | 0 <= i < |deeds| && deeds[i].QueueIds? :: forall id | id in deeds[i].ids :: !IsValid(id)
  }

  lemma StepStaysEmpty(s: State, deed: Deed)
    requires s.live == [] && (deed.QueueIds? ==> forall id | id in deed.ids :: !IsValid(id))
    ensures Step(s, deed).live == []
  {
    match deed
    case QueueIds(ids, strategy, position) => RangeFills(s.live, ids, strategy, position);
    case _ =>
  }

  lemma {:induction false} RunStaysEmpty(s: State, deeds: seq<Deed>)
    requires s.live == [] && QueueNothing(deeds)
    ensures Run(s, deeds).live == []
    decreases |deeds|
  {
    if |deeds| > 0 {
      StepStaysEmpty(s, deeds[0]);
      assert forall i | 0 <= i < |deeds[1..]| :: deeds[1..][i] == deeds[i + 1];
      RunStaysEmpty(Step(s, deeds[0]), deeds[1..]);
    }
  }

  /** From the dispatch of finished on, the id queue is empty as long as no
      handler tries to queue a valid id, whatever else the handlers do. So it is
      empty when handle returns. */
  lemma EmptyUnlessQueued(original: EventId, deeds: seq<Deed>, more: seq<Deed>)
    requires IsValid(original) && QueueNothing(more)
    requires var s := Run(Init(original), deeds); s.stack != [] && s.stack[0].Handling? && s.stack[0].phase.AtFinish?
    ensures Run(Run(Init(original), deeds), more).live == []
  {
    InitInv(original);
    RunKeepsInv(Init(original), deeds);
    RunStaysEmpty(Run(Init(original), deeds), more);
  }

  // -------------------------------------------------- what the deeds come to

  /** Each dispatch that handle makes is made as the id it is for, a queued id as
      that very id. */
  lemma DispatchesCarryTheirIds(original: EventId, deeds: seq<Deed>, i: nat)
    requires IsValid(original)
    requires var stack := Run(Init(original), deeds).stack;
      i < |stack| - 1 && stack[i].Dispatching? && stack[i + 1].Handling?
    ensures var stack := Run(Init(original), deeds).stack;
      stack[i + 1].trace != [] && RaisedAs(stack[i + 1].trace[|stack[i + 1].trace| - 1].site, stack[i].id)
  {
    InitInv(original);
    RunKeepsInv(Init(original), deeds);
  }

  /** A pop takes the first live id, and no other; without one the loop ends. */
  lemma PopsTakeTheFirst(original: EventId, deeds: seq<Deed>, deed: Deed)
    requires IsValid(original)
    requires var s := Run(Init(original), deeds);
      && s.stack != [] && s.stack[0].Handling?
      && (s.stack[0].phase.FirstPop? || s.stack[0].phase.NextPop? || s.stack[0].phase.CheckPop?)
    ensures var s := Run(Init(original), deeds);
      var n := Step(s, deed);
      && n.stack != [] && n.stack[0].Handling?
      && (s.live == [] ==> n.live == [] && (n.stack[0].phase == Loop(NoEvent) || n.stack[0].phase.AtFinish?))
      && (s.live != [] ==> n.stack[0].phase.Loop? && s.live == [n.stack[0].phase.next] + n.live)
  {
    PopTakesTheFirst(Run(Init(original), deeds));
  }

  lemma PopTakesTheFirst(s: State)
    requires s.stack != [] && s.stack[0].Handling?
    requires s.stack[0].phase.FirstPop? || s.stack[0].phase.NextPop? || s.stack[0].phase.CheckPop?
    ensures var n := HandleStep(s);
      && n.stack != [] && n.stack[0].Handling?
      && (s.live == [] ==> n.live == [] && (n.stack[0].phase == Loop(NoEvent) || n.stack[0].phase.AtFinish?))
      && (s.live != [] ==> n.stack[0].phase.Loop? && s.live == [n.stack[0].phase.next] + n.live)
  {}

  /** When an activation of handle ends, all registered events have been handed
      over. */
  lemma NothingLeftAfterwards(original: EventId, deeds: seq<Deed>, deed: Deed)
    requires IsValid(original)
    requires var s := Run(Init(original), deeds); |Step(s, deed).stack| < |s.stack| && s.stack[0].Handling?
    ensures var n := Step(Run(Init(original), deeds), deed); n.afterwards == [] && n.spliced == n.registered
  {
    InitInv(original);
    RunKeepsInv(Init(original), deeds);
    HandleStepKeepsInv(Run(Init(original), deeds));
  }

  /** Whether the next deed is a handler's, or the program's outside of all handlers. */
  predicate Acts(s: State) {
    s.stack == [] || s.stack[0].Dispatching?
  }

  /** The events passed to afterwards, from the deeds. */
  function FollowUps(s: State, deeds: seq<Deed>): seq<nat>
    decreases |deeds|
  {
    if |deeds| == 0 then []
    else
      (if Acts(s) && deeds[0].Afterwards? then [deeds[0].event] else []) + FollowUps(Step(s, deeds[0]), deeds[1..])
  }

  /** The calls of handle made. */
  function Handles(s: State, deeds: seq<Deed>): nat
    decreases |deeds|
  {
    if |deeds| == 0 then 0
    else (if Acts(s) && deeds[0].Handle? then 1 else 0) + Handles(Step(s, deeds[0]), deeds[1..])
  }

  function Activations(stack: seq<Frame>): nat {
    if stack == [] then 0 else (if stack[0].Handling? then 1 else 0) + Activations(stack[1..])
  }

  lemma {:induction false} RunRegisters(s: State, deeds: seq<Deed>)
    ensures Run(s, deeds).registered == s.registered + FollowUps(s, deeds)
    decreases |deeds|
  {
    if |deeds| > 0 {
      RunRegisters(Step(s, deeds[0]), deeds[1..]);
    } else {
      assert s.registered + [] == s.registered;
    }
  }

  lemma StepCounts(s: State, deed: Deed)
    ensures var n := Step(s, deed);
      |n.completed| + Activations(n.stack) ==
      |s.completed| + Activations(s.stack) + if Acts(s) && deed.Handle? then 1 else 0
  {
    var n := Step(s, deed);
    if Acts(s) {
      assert n.stack != [] ==> n.stack == s.stack || n.stack[1..] == s.stack || n.stack == s.stack[1..];
    } else {
      HandleStepCounts(s);
    }
  }

  lemma HandleStepCounts(s: State)
    requires s.stack != [] && s.stack[0].Handling?
    ensures var n := HandleStep(s); |n.completed| + Activations(n.stack) == |s.completed| + Activations(s.stack)
  {
    var n := HandleStep(s);
    if |n.stack| > |s.stack| {
      assert n.stack[0].Dispatching? && n.stack[1].Handling? && n.stack[1..][1..] == s.stack[1..];
      assert Activations(n.stack) == Activations(n.stack[1..]);
    } else if |n.stack| == |s.stack| {
      assert n.stack[1..] == s.stack[1..];
    }
  }

  lemma {:induction false} RunCounts(s: State, deeds: seq<Deed>)
    ensures |Run(s, deeds).completed| + Activations(Run(s, deeds).stack) ==
            |s.completed| + Activations(s.stack) + Handles(s, deeds)
    decreases |deeds|
  {
    if |deeds| > 0 {
      StepCounts(s, deeds[0]);
      RunCounts(Step(s, deeds[0]), deeds[1..]);
    }
  }

  /** Nothing is forgotten: every event passed to afterwards is registered, in
      order, and every call of handle has ended with its trace or is in progress. */
  lemma CallsAreKept(original: EventId, deeds: seq<Deed>)
    ensures Run(Init(original), deeds).registered == FollowUps(Init(original), deeds)
    ensures |Run(Init(original), deeds).completed| + Activations(Run(Init(original), deeds).stack) ==
            Handles(Init(original), deeds)
  {
    RunRegisters(Init(original), deeds);
    RunCounts(Init(original), deeds);
  }

  /** What a handler's deed does to the event, in closed form. */
  lemma DeedsDo(s: State, deed: Deed)
    requires Inv(s) && Acts(s)
    ensures var n := Step(s, deed);
      && (deed.QueueIds? ==>
            var kept, added := Kept(s.live, deed.ids, deed.strategy), Entering(s.live, deed.ids, deed.strategy);
            n.live == if deed.position == AtFront then added + kept else kept + added)
      && (deed.Unqueue? && CanLose(s, deed.matches, deed.lost) ==>
            && |n.skipped| == |s.skipped| + deed.lost && s.skipped <= n.skipped
            && Filter(s.live, id => !deed.matches(id)) == n.skipped[|s.skipped|..] + n.live)
      && (!deed.QueueIds? && !deed.Unqueue? ==> n.live == s.live)
      && (deed.HandleAs? ==> n.current == deed.id && InProgress(n.stack) == [deed.id] + InProgress(s.stack))
      && (deed.LeaveHandler? && s.stack != [] ==> n.stack == s.stack[1..])
  {
    match deed
    case QueueIds(ids, strategy, position) => RangeForm(s.live, ids, strategy, position);
    case HandleAs(_) => assert Step(s, deed).stack[1..] == s.stack;
    case _ =>
  }

  // ----------------------------------------------------------------- progress

  /** The steps left if handlers do nothing but return. */
  function Remaining(stack: seq<Frame>): nat {
    if stack == [] then 0
    else (if stack[0].Dispatching? then 1 else PhaseSteps(stack[0].phase)) + Remaining(stack[1..])
  }

  function PhaseSteps(phase: Phase): nat {
    match phase
    case AtBegin => 9
    case FirstPop => 7
    case Loop(next) => if IsValid(next) then 9 else 6
    case NextPop => 7
    case CheckPop => 4
    case AtFinish => 3
    case Splice => 1
  }

  lemma DispatchRemains(s: State, site: Site, phase: Phase)
    requires s.stack != [] && s.stack[0].Handling?
    ensures Remaining(DispatchFrom(s, site, phase).stack) == 1 + PhaseSteps(phase) + Remaining(s.stack[1..])
  {
    var stack := DispatchFrom(s, site, phase).stack;
    assert stack[1..][0].Handling? && stack[1..][1..] == s.stack[1..];
    assert Remaining(stack) == 1 + Remaining(stack[1..]);
  }

  lemma PopRemains(s: State, phase: Phase)
    requires s.stack != [] && s.stack[0].Handling?
    ensures var n := Goto(Popped(s), phase);
      && Remaining(n.stack) == PhaseSteps(phase) + Remaining(s.stack[1..])
      && |n.live| == if s.live == [] then 0 else |s.live| - 1
  {
    assert Goto(Popped(s), phase).stack[1..] == s.stack[1..];
  }

  lemma ReturningGoesOn(s: State)
    requires AllValid(s.live) && s.stack != []
    ensures var n := Step(s, LeaveHandler);
      6 * |n.live| + Remaining(n.stack) < 6 * |s.live| + Remaining(s.stack)
  {
    if s.stack[0].Handling? {
      assert s.live != [] ==> s.live[0] in s.live;
      match s.stack[0].phase
      case AtBegin => DispatchRemains(s, Begin, FirstPop);
      case FirstPop => PopRemains(s, Loop(PopTo(s)));
      case Loop(next) =>
        if IsValid(next) {
          DispatchRemains(s, Ordinary(next), NextPop);
        } else {
          DispatchRemains(s, Finishing, CheckPop);
        }
      case NextPop => PopRemains(s, Loop(PopTo(s)));
      case CheckPop => PopRemains(s, if s.live == [] then AtFinish else Loop(PopTo(s)));
      case AtFinish => DispatchRemains(s, Finished, Splice);
      case Splice =>
    }
  }

  /** Every handle in progress, nested ones included, ends if the handlers return:
      no activation gets stuck. */
  lemma {:induction false} HandlingEnds(s: State) returns (deeds: seq<Deed>)
    requires Inv(s)
    ensures (forall i | 0 <= i < |deeds| :: deeds[i].LeaveHandler?) && Run(s, deeds).stack == []
    ensures |deeds| <= 6 * |s.live| + Remaining(s.stack)
    decreases 6 * |s.live| + Remaining(s.stack)
  {
    if s.stack == [] {
      deeds := [];
    } else {
      ReturningGoesOn(s);
      if s.stack[0].Handling? { HandleStepKeepsInv(s); } else { HandlerStepKeepsInv(s, LeaveHandler); }
      var rest := HandlingEnds(Step(s, LeaveHandler));
      deeds := [LeaveHandler] + rest;
      assert deeds[1..] == rest;
    }
  }
}
