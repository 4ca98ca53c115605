# libslirc: a verified model of the event core

libslirc is the event core of an IRC library: an event manager with a queue that
any number of threads fill and wait on, events that are handled under a growing
queue of ids, and a connection that turns bytes into events. This project models
these three parts in Dafny and proves what they are for.

* **The wait protocol** (`WaitProtocol`, `WaitInvariant`, `WaitSteps`,
  `WaitTheorems`, `WaitSections`, `WaitSerial`, `WaitHistory`). `queue`, the splice at the end of `handle` and
  the three forms of `wait_event` as a transition system: any number of threads,
  each with a program counter, both kinds of mutex with their owners, the deque,
  the list of one-shot consumers with its cursor, and for every returning
  `wait_event` its mutex, result slot, `awaits_event` flag and weakly referenced
  data. Wakeups may be spurious and timeouts may come at any time. One invariant
  is kept by every step; conservation of events, the meaning of a null result,
  the absence of lost wakeups, deadlock freedom and the end of every section
  under the queue mutex follow for every run, and every run is serial: it has the
  effect of whole operations done one after the other. What the calls come to is
  told from the calls alone: which events were submitted, which callbacks
  registered, who said yes, and who timed out.
* **The event queue as one thread sees it** (`QueueSpec`, `EventQueue`).
  `try_unqueue` and its callers as a class, against the function `Serve`. The
  sections of the wait protocol refine the same function.
* **The id queue of an event** (`EventIds`, `IdQueueSpec`, `IdQueue`). The vector
  with its consumed prefix, gap reuse, rebuild-and-swap and compaction before
  reallocation, on real arrays with any growth policy, refines a plain sequence.
  The range form of `queue_as` has a closed form, and is compared with repeated
  single calls.
* **handle** (`HandleTrace`, `HandleMachine`, `HandlerSpec`, `HandleLoop`). As a
  stack machine whose handlers do whatever they like, nested `handle` and
  `handle_as` included, for what holds of every run; and as a method on the
  stored id queue, with handlers as small programs, for its termination and its
  complete effect.
* **The bytes of a connection** (`LineSplitter`, `SendBuffers`, `EndpointSpec`,
  `EndpointParser`, `EndpointRoundTrip`). The incremental line splitter against a
  reader of single characters, the double-buffered sender under partial writes,
  and the endpoint parser with its positions against a recursive specification
  and a printer.
* **The life of a connection** (`Lifecycle`). The state machine driven by calls
  and by callbacks that may be stale.

`dafny verify dfyconfig.toml` checks the whole project.

## Where code and documentation part

The model follows the code. Where a promise does not hold of it, the exact
condition under which it does is proved, with an input for which it fails.

* `unqueue` also scans ids that have been consumed and leaves the cursor where it
  is (`src/event.cpp:61-83`). It leaves the filtered live queue exactly if no
  consumed id that is still stored matches (`UnqueueExactly`), which a caller can
  rely on exactly if no id that has been popped matches (`UnqueueSafeExactly`).
  Then it composes with all other operations (`Replay`), otherwise it can lose
  ids (`CarelessUnqueue`).
* A range call equals repeated single calls, up to the order at the front, exactly
  if no id that gets in occurs twice in the range (`RangeIsSinglesExactly`);
  `include/slirc/event.hpp:512-520` says as much in words.
* `include/slirc/event.hpp:435` promises an empty id queue when `handle` returns.
  This is so if no handler tries to queue a valid id from the dispatch of finished
  on, whatever else the handlers do (`EmptyUnlessQueued`), and among handlers that
  queue ids, nest `handle_as` and register follow-up events exactly then
  (`EmptyOnReturnExactly`, `QueueOutlivesHandle`). The queue is always empty when
  finishing and finished are dispatched.
* Single `queue_as` answers `invalid` where `include/slirc/event.hpp:481` promises
  an exception; `handle_as` does not check its id (`include/slirc/event.hpp:450`).
* A URL with both a port and a path, query or fragment keeps the port in the host
  name, `::1` is host `:` with port 1, and ports of 2^32 and above are reduced
  (`UrlComesBackExactly`, `HostAndPort`, `HostAlone`, `PortAndTailAreMisread`,
  `BareIpv6IsMisread`).
* `disconnect` without any socket announces `disconnecting` and stays there,
  although `include/slirc/apis/connection.hpp:142` says that state is never
  reported (`Disconnect`, `StuckForGood`).
* `clear()` does not reset the cursor into the send buffer: the buffers are fit for
  the next session exactly if the cursor stood at the beginning, and otherwise the
  session's first write has no meaning (`NextSession`, `PartialWriteSpoils`).
* A success that a connection attempt reports late, when an endpoint has been
  rejected and no socket is left, establishes a session and reads from a socket
  that does not exist (`StaleSuccess`).

## Model

| member | source | states |
|---|---|---|
| QueueSpec.ServeKeepsEvents | src/modules/event_manager.cpp:64-69 | the events accepted, in order, followed by the deque that is left are the deque before: none lost, duplicated or reordered |
| QueueSpec.ServeKeepsConsumers | src/modules/event_manager.cpp:64-73 | the consumers called followed by those still pending are the ones pending before |
| QueueSpec.ServeExhausts | src/modules/event_manager.cpp:64-69 | the loop ends with the deque or the pending consumers empty, and every acceptance takes one event |
| QueueSpec.ServeIsExact | src/modules/event_manager.cpp:64-69 | the loop stops neither early nor late: the number of consumers called is the only one at which each called one finds an event and then a side is used up |
| QueueSpec.ServeMatches | src/modules/event_manager.cpp:65-67 | a consumer that says yes gets the event at the front when its turn comes, that is, behind as many events as were accepted before it |
| EventQueue.EventQueue.TryUnqueue | src/modules/event_manager.cpp:58-74 | the loop over deque and cursor does exactly Serve, and leaves the deque or the pending list empty and the cursor in range or reset |
| EventQueue.EventQueue.Queue | src/modules/event_manager.cpp:181-186 | the event goes behind all waiting ones, and the whole is served to the pending consumers |
| EventQueue.EventQueue.Splice | src/modules/event_manager.cpp:162-170 | copying in reverse to the front puts the registered events in their order before the deque, and the whole is served |
| EventQueue.EventQueue.WaitCallback | src/modules/event_manager.cpp:248-259 | with an empty deque the callback is pending last; otherwise it is called at once, which is its turn since nobody is pending |
| EventQueue.EventQueue.TakeFront | src/modules/event_manager.cpp:191-197 | takes the front event off, or reports an empty deque, and leaves the consumers alone |
| WaitSteps.StepKeepsInv | src/modules/event_manager.cpp:58-108 | every step of every thread keeps the invariant: mutex ownership, phase of each call, promise to each registered waiter, consumer bookkeeping, one delivery per receiver, order of service |
| WaitSteps.RunKeepsInv | src/modules/event_manager.cpp:181-259 | the invariant holds after every run |
| WaitHistory.EventsConserved | src/modules/event_manager.cpp:181-259 | whenever the queue mutex is free, events delivered, events in the deque and those that calls still have in hand are together just what the calls of queue and splice have passed; with all threads idle nothing is in hand |
| WaitHistory.RunHandsOver | src/modules/event_manager.cpp:181-186 | the events of each thread enter the deque in the order of its calls, none missing but those of its present call |
| WaitTheorems.PushesConserved | src/modules/event_manager.cpp:64-69 | whenever the queue mutex is free, events delivered and events in the deque together are the events that entered it; without splices as sequences, in the order of their entry |
| WaitTheorems.RunKeepsEvents | src/modules/event_manager.cpp:164-184 | the order of service holds, as a multiset, just the events that queue and splice put in |
| WaitTheorems.RunKeepsOrder | src/modules/event_manager.cpp:183-184 | the order of service is the order of entry as long as nobody splices |
| WaitTheorems.ReturnsWhatWasDelivered | src/modules/event_manager.cpp:188-246 | a call that returned an event was delivered that event and no other; if it returned null nothing was accepted for it |
| WaitHistory.NullMeansTimeout | src/modules/event_manager.cpp:210-245 | a call returns null only if it was started with a timeout and its own thread has timed out in it; a blocking call never does |
| WaitHistory.CallsReturn | src/modules/event_manager.cpp:188-246 | the calls known are exactly those started, and with all threads idle each has returned |
| WaitHistory.CallsEnd | src/modules/event_manager.cpp:188-246 | a returning wait_event is over after ten steps of its own thread, and three more for each time it was woken, whatever the others do |
| WaitHistory.OperationsEnd | src/modules/event_manager.cpp:162-186 | the other calls acquire the queue mutex with their first step, and are over with the step that releases it |
| WaitHistory.CallersAreFree | src/modules/event_manager.cpp:181-259 | nothing restricts the callers: an idle thread may make any call, a callback may give any answer, a sleeper may be woken, and may time out exactly if its call has a timeout |
| WaitHistory.CallbacksRegistered | src/modules/event_manager.cpp:248-259 | every callback passed to wait_event is registered, once; those missing are in the hands of calls in progress |
| WaitHistory.YesMeansDelivered | src/modules/event_manager.cpp:65-67 | the callbacks that received events are those that said yes, in that order |
| WaitTheorems.NullIsFinal | src/modules/event_manager.cpp:238-245 | after a null result nothing is ever accepted on the call's behalf, however the timeout raced with its consumer |
| WaitTheorems.SlotReadIsSafe | src/modules/event_manager.cpp:93-108 | while a call is about to return its slot, outside its data mutex, no other thread writes it |
| WaitTheorems.FreeMeansSettled | src/modules/event_manager.cpp:64-73 | whenever the queue mutex is free, deque or pending list is empty, and the cursor is below the size or both are 0 |
| WaitTheorems.SleeperIsServed | src/modules/event_manager.cpp:202-210 | no lost wakeup: a waiter asleep without notification still awaits an event, its consumer is pending or being called, and if the queue mutex is free the deque is empty |
| WaitTheorems.CalledInOrder | src/modules/event_manager.cpp:64-73 | consumers are called in the order of registration and at most once each; registered is called followed by pending, the direct call included |
| WaitTheorems.NothingUndefined | src/modules/event_manager.cpp:65-67 | no reachable state takes front() of an empty deque or meets data that does not exist |
| WaitTheorems.DataOwnersRun | src/modules/event_manager.cpp:200-210 | whoever owns a data mutex that another thread asks for is not itself asking for any mutex |
| WaitTheorems.ChainEnds | src/modules/event_manager.cpp:98-100 | following the owners from a blocked thread ends after one or two of them at a thread that is not blocked |
| WaitTheorems.UnblockedMoves | src/modules/event_manager.cpp:181-259 | a thread that is not idle, asleep or blocked has an enabled step |
| WaitTheorems.NoDeadlock | src/modules/event_manager.cpp:200-210 | deadlock freedom: in every reachable state with a blocked thread, some thread that holds a mutex can take a step, in spite of the opposite lock orders of waiters and notifiers |
| WaitSections.OthersStayOut | src/modules/event_manager.cpp:115-118 | threads that do not own the queue mutex change nothing it guards |
| WaitSections.OwnerProgresses | src/modules/event_manager.cpp:64-73 | each step of the queue mutex's owner brings the end of its section nearer |
| WaitSections.SectionEnds | src/modules/event_manager.cpp:64-73 | however the others interleave, a section under the queue mutex takes at most a number of its owner's steps that is known on entry |
| WaitSections.SectionServes | src/modules/event_manager.cpp:58-74 | what a section still has to serve, taken together with what it has done, is the same before and after every interleaved step |
| WaitSections.QueueIsAtomic | src/modules/event_manager.cpp:181-186 | refinement: for every interleaving, a section of queue(e) has the effect of Serve at one stroke on deque, consumers and deliveries |
| WaitSections.SpliceIsAtomic | src/modules/event_manager.cpp:164-170 | refinement: the same for the splice at the end of handle |
| WaitSections.RegisterServes | src/modules/event_manager.cpp:248-259 | refinement: wait_event(callback) registers behind the pending consumers, or, nobody being pending, is served alone |
| WaitSerial.StepWorth | src/modules/event_manager.cpp:181-259 | every step of every thread is one whole operation on deque, consumers and deliveries, or none, an operation that is midway counting as done |
| WaitSerial.RunsAreSerial | src/modules/event_manager.cpp:181-259 | serializability: whenever the queue mutex is free, deque, pending consumers, calls and deliveries are those of some sequence of whole queue, splice, take, register and direct-call operations, which put in the events of the run in its order |
| IdQueueSpec.RangeAdds | include/slirc/event.hpp:569-576 | discard adds the valid ids that the old queue lacks, replace and duplicate all valid ids, in the order of the range and with its repetitions |
| IdQueueSpec.RangeKeeps | src/event.cpp:143-160 | only replace touches the old queue: exactly the ids of the range disappear from it, order kept |
| IdQueueSpec.RangeAnswers | src/event.cpp:116-169 | an element answers replaced exactly if its id was queued before the call and did not occur earlier in the range; invalid, discarded and queued likewise told from the old queue |
| IdQueueSpec.RangeForm | include/slirc/event.hpp:569-576 | the closed form of a range call for every strategy and position |
| IdQueueSpec.RangeKeepsValid | src/event.cpp:121-123 | no invalid id ever gets into the live queue |
| IdQueueSpec.RangeFills | include/slirc/event.hpp:569-576 | a range call never empties a queue, and leaves an empty one empty exactly if it offers no valid id |
| IdQueueSpec.RangeIsSingles | include/slirc/event.hpp:512-520 | a range call equals single calls, in reverse order at the front, answers included, for duplicate always and otherwise if no id that gets in occurs twice |
| IdQueueSpec.RangeIsSinglesExactly | include/slirc/event.hpp:512-520 | and that condition is exact: otherwise the queues differ |
| IdQueueSpec.UnqueueExactly | src/event.cpp:61-83 | unqueue leaves the filtered live queue behind the cursor if and only if no id still stored in front of it matches |
| IdQueueSpec.UnqueueSafeExactly | src/event.cpp:61-83 | whatever part of the popped ids is still stored, unqueue keeps its promise: if and only if no popped id matches |
| IdQueueSpec.UnqueueCanLoseIds | src/event.cpp:61-83 | with a consumed and b live, a matcher of a but not of b leaves nothing behind the cursor |
| IdQueue.IdVector.RemoveIf | src/event.cpp:74-77 | std::remove_if: the kept ids of the part move up in order, the part before it stays |
| IdQueue.IdVector.FindIf | src/event.cpp:92-97 | std::find_if: found exactly if some id from the given place on matches |
| IdQueue.IdVector.Append | src/event.cpp:243 | insertion at the end, reallocating exactly if the capacity does not suffice |
| IdQueue.IdVector.Grow | src/event.cpp:196 | resize keeps the elements there are |
| IdQueue.IdVector.CopyDown | src/event.cpp:227-230 | the overlapping copy to the beginning of the same vector delivers the live ids unharmed |
| IdQueue.IdVector.Overwrite | src/event.cpp:182-185 | the copied elements replace just those in their way |
| IdQueue.IdQueue.Make | src/event.cpp:28-39 | an event exists exactly if its original id is valid; that id is then its whole queue, and nothing is consumed |
| IdQueue.IdQueue.Pop | src/event.cpp:109-114 | takes the first live id, which becomes the last consumed one; the invalid sentinel is returned exactly if the live queue is empty |
| IdQueue.IdQueue.IsQueuedAs | src/event.cpp:85-97 | true exactly if some live id matches; consumed ids do not count |
| IdQueue.IdQueue.PrepareAppend | src/event.cpp:116-169 | one id is checked against the live queue and noted as the specification says, for every strategy |
| IdQueue.IdQueue.RemoveLive | src/event.cpp:143-156 | replacing removes every occurrence from the live part, reports whether there was one, and spares the consumed part |
| IdQueue.IdQueue.PrepareRange | include/slirc/event.hpp:569-574 | the loop over the range prepares each id against the queue as the ids before it left it |
| IdQueue.IdQueue.FillGap | src/event.cpp:180-191 | new ids written over the end of the consumed part stand before the live ids, and the rest of that part stays |
| IdQueue.IdQueue.Rebuild | src/event.cpp:192-208 | appending the live ids to the new ones and swapping the vectors gives the same |
| IdQueue.IdQueue.Compact | src/event.cpp:213-237 | moving the live ids to the beginning changes no live id, and drops the consumed part |
| IdQueue.IdQueue.AppendBehind | src/event.cpp:239-245 | insertion at the end of the vector puts new ids behind the live ones, and changes neither these nor the consumed ones |
| IdQueue.IdQueue.AppendUnchecked | src/event.cpp:171-248 | all paths together: add before live, or live before add, whatever the capacity and the gap; no id becomes a consumed one; and at the back, thanks to compaction, the vector is reallocated exactly if the capacity cannot hold the live and the new ids |
| IdQueue.IdQueue.QueueAs | src/event.cpp:50-59 | the single form refines the specification on the live sequence |
| IdQueue.IdQueue.QueueRangeAs | include/slirc/event.hpp:569-576 | the range form refines the specification, answers in the order of the range |
| IdQueue.IdQueue.Unqueue | src/event.cpp:61-83 | what is left of the whole vector; and if no consumed id matches, the filtered live queue, no matching id queued any more, the consumed part unchanged, a true answer exactly if a live id matched, and a well-formed queue for all further operations |
| IdQueue.Replay | src/event.cpp:61-248 | for every sequence of pops, queries, single and range calls and unqueues on a new event, the replies are those of a plain sequence, as long as no unqueue matches an id popped before it |
| IdQueue.CarelessUnqueue | src/event.cpp:61-83 | the hypothesis is needed: of two queued ids the first is popped and then unqueued, and the second is never handed out |
| HandleTrace.CompleteIsSentence | src/modules/event_manager.cpp:145-160 | a dispatch trace is a complete walk exactly if it is a sentence of begin (id* finishing)+ finished with no empty group but the first |
| HandleMachine.RunKeepsInv | src/modules/event_manager.cpp:145-173 | every deed of any handler, nested handle and unqueues that lose ids included, keeps the invariant of the activation stack |
| HandleMachine.HandleDispatchesSentences | src/modules/event_manager.cpp:145-160 | every activation of handle that ends has dispatched such a sentence, with an empty live queue at each finishing and at finished |
| HandleMachine.PoppedIdsAreDispatched | src/modules/event_manager.cpp:148-152 | ids are dispatched once each, in the order they leave the live queue, across nested activations |
| HandleMachine.DispatchesCarryTheirIds | src/modules/event_manager.cpp:146-160 | each dispatch in progress that handle has made is made as the id it is for: a queued id as that id, the others as begin, finishing and finished |
| HandleMachine.PopsTakeTheFirst | src/event.cpp:109-114 | a pop of handle takes exactly the first live id, and an empty queue ends the loop |
| HandleMachine.CallsAreKept | src/modules/event_manager.cpp:145-173 | every event passed to afterwards is registered, in order, and every call of handle has left its trace or is in progress |
| HandleMachine.NothingLeftAfterwards | src/modules/event_manager.cpp:162-172 | when an activation of handle ends, all registered events have been handed over |
| HandleMachine.DeedsDo | src/event.cpp:45-107 | what a handler's queue_as, unqueue, handle_as and return do to queue and current id, queue_as in closed form |
| HandleMachine.HandlingEnds | src/modules/event_manager.cpp:145-173 | no activation gets stuck: if the handlers return, all of them end, after a number of steps known beforehand |
| HandleMachine.AfterwardsAreSplicedOnce | src/modules/event_manager.cpp:162-172 | every registered event is handed over once and in order of registration, across nested and repeated handling |
| HandleMachine.CurrentIsRestored | src/event.cpp:45-48 | whenever the same dispatches are in progress again, the current id is the same again, that of the innermost one |
| HandleMachine.EmptyUnlessQueued | include/slirc/event.hpp:429-437 | from the dispatch of finished on, the id queue stays empty as long as no valid id is offered to it, nested handles and unqueues notwithstanding |
| HandlerSpec.OneLog | src/modules/event_manager.cpp:145-160 | the handlers determine the dispatches: two complete logs of the same event are equal |
| HandlerSpec.SeenAll | src/modules/event_manager.cpp:146-160 | among the ids a handled event has been seen with, each dispatch of its log stands with the id it is for: a queued id with that very id |
| HandlerSpec.WeightOfRange | include/slirc/event.hpp:569-576 | a range call adds at most the weight of its ids, whatever the strategy |
| HandlerSpec.DispatchIsLighter | src/modules/event_manager.cpp:150-153 | handlers that queue boundedly many ids of lower rank leave a lighter queue than the id dispatched stood for |
| HandlerSpec.EmptyOnReturnExactly | include/slirc/event.hpp:429-437 | among handlers that queue, nest and register, the id queue is empty when handle returns if and only if those of finished try to queue no valid id |
| HandlerSpec.QueueCanOutliveHandle | include/slirc/apis/event_manager.hpp:183-188 | the complete log of a new event whose finished handler queues one id, which the last dispatch leaves in the queue |
| HandleLoop.Event.Afterwards | src/event.cpp:103-107 | appends to the component, creating it if there is none |
| HandleLoop.Event.HandleAs | src/event.cpp:45-48 | the handlers of the id run with it as current id, which is restored afterwards; their effects on queue, dispatches and follow-up events add up |
| HandleLoop.Event.RunHandlers | src/modules/event_manager.cpp:175-177 | the effects of a handler program on the stored event are those specified for the plain queue, nested dispatches included |
| HandleLoop.DispatchAt | src/modules/event_manager.cpp:146-160 | one dispatch extends the log by the site and the queue it starts from, and by what its handlers do |
| HandleLoop.DispatchAndPop | src/modules/event_manager.cpp:146-157 | the next id taken up is the first that the dispatch left in the queue, if it left one |
| HandleLoop.HandleOne | src/modules/event_manager.cpp:150-153 | the body of the inner loop makes the queue lighter |
| HandleLoop.HandleQueued | src/modules/event_manager.cpp:150-153 | the inner loop terminates, with an empty queue |
| HandleLoop.FinishingSpends | src/modules/event_manager.cpp:154-158 | finishing handlers that leave an id queued have used up some of their budget |
| HandleLoop.HandleRound | src/modules/event_manager.cpp:149-158 | a round of the outer loop ends the rounds or lowers the remaining budget |
| HandleLoop.DispatchAll | src/modules/event_manager.cpp:145-160 | total correctness of the dispatching part: it terminates with the one complete log, the queue the finished handlers leave, and the current id as before |
| HandleLoop.Handle | src/modules/event_manager.cpp:145-173 | total correctness of handle on the stored queue: complete log, final id queue, ids seen by the handlers, and the registered events in order before the deque and then served to the consumers |
| HandleLoop.SpliceAfterwards | src/modules/event_manager.cpp:162-172 | the registered events go before the deque, in order, and are served; the component is removed |
| HandleLoop.QueueOutlivesHandle | include/slirc/event.hpp:435 | handle returns for that event, on the stored queue, and the id is still in it |
| LineSplitter.Receiver.Recv | src/modules/connection.cpp:542-564 | the scan terminates, and emits the lines and keeps the rest that a reader of single characters finds |
| LineSplitter.FindNonBlank | src/modules/connection.cpp:547 | the first character from a place on that is not skipped |
| LineSplitter.FindLineFeed | src/modules/connection.cpp:553 | the first line feed from a place on |
| LineSplitter.EmitLine | src/modules/connection.cpp:553-563 | cutting the line, with one carriage return dropped, and resuming in front of the line's end reads the same |
| LineSplitter.Receiver.Receive | src/modules/connection.cpp:584-588 | a chunk continues the reading where the chunks before it stopped, even inside CR LF or skipped blanks |
| LineSplitter.ReceiveAll | src/modules/connection.cpp:537-590 | every partition of a byte stream emits the lines, and leaves the rest, of the stream in one piece |
| LineSplitter.ChunkingIrrelevant | src/modules/connection.cpp:584-588 | reading chunk by chunk is reading their concatenation |
| LineSplitter.EmittedAreLines | src/modules/connection.cpp:547-563 | under any chunking no emitted line is empty, holds a line feed, or starts with a space or a carriage return |
| LineSplitter.PlainLine | src/modules/connection.cpp:547-563 | of blanks, a line and its ending exactly the line is emitted: no other character is skipped in front, and one carriage return is dropped behind |
| LineSplitter.JoinedLinesComeBack | src/modules/connection.cpp:547-563 | lines joined with CR LF (message extraction of section 2.3.1 of RFC 2812) come back under any chunking with nothing left, if and only if none is empty, holds a line feed, or starts with a space or a carriage return |
| SendBuffers.SendBuffers.Append | src/modules/connection.cpp:134-144 | data goes behind everything unsent, a write under way is not disturbed, and a job runs unless there was none and the data is empty; the write it may start is undefined exactly if no job is running and the cursor stands behind the end |
| SendBuffers.SendBuffers.Swap | src/modules/connection.cpp:153-158 | the filled buffer becomes the one to send, from its beginning, and an empty one takes its place |
| SendBuffers.SendBuffers.Send | src/modules/connection.cpp:160-206 | no unsent byte is touched; the job goes on with one write of the unsent part of the buffer exactly if something is unsent; a cursor behind the end is the only case without meaning |
| SendBuffers.SendBuffers.Completed | src/modules/connection.cpp:170-191 | a partial write moves just its bytes from the unsent to the written ones |
| SendBuffers.SendBuffers.Clear | src/modules/connection.cpp:146-151 | empties the buffers and ends the job, but leaves the cursor |
| SendBuffers.Reconnect | src/modules/connection.cpp:450-488 | after a disconnect the buffers are fit for a new session if and only if the cursor stood at the beginning; otherwise it stands behind the end of the emptied buffer |
| SendBuffers.NextSession | src/modules/connection.cpp:134-206 | the first data of the next session is offered to the socket as it is, if and only if the cursor stood at the beginning; otherwise the write has no meaning |
| SendBuffers.PartialWriteSpoils | src/modules/connection.cpp:146-151 | a disconnect after a partial write makes the first write of the next session meaningless |
| SendBuffers.Flush | src/modules/connection.cpp:160-191 | if every write takes at least one byte, everything appended gets written, in order, and the job ends |
| SendBuffers.Session | src/modules/connection.cpp:134-206 | for any interleaving of appends and partial completions: bytes written, unsent rest of the send buffer and fill buffer together are all that was appended; one write is outstanding exactly while a job runs |
| EndpointParser.FindProtocol | src/modules/connection.cpp:246 | finds the first "://" and nothing before it |
| EndpointParser.FindTail | src/modules/connection.cpp:265 | the first path, query or fragment character behind the protocol |
| EndpointParser.FindAuth | src/modules/connection.cpp:271 | the last @ at or before a position |
| EndpointParser.FindNonDigit | src/modules/connection.cpp:281 | the last non-digit at or before a position |
| EndpointParser.SkipAuth | src/modules/connection.cpp:270-274 | what is left is the part behind the last @ of the server part |
| EndpointParser.ParsePort | src/modules/connection.cpp:277-304 | the backward search for the port, the override and the check for an empty server agree with the specification on substrings, with the port missed if a tail has been cut off |
| EndpointParser.Parse | src/modules/connection.cpp:240-304 | the position-based parser computes the specified endpoint for every string and every override |
| EndpointRoundTrip.DigitsExactly | src/modules/connection.cpp:281 | the digits are 0 to 9 |
| EndpointRoundTrip.PortIsReduced | src/modules/connection.cpp:287 | a printed port is read as itself, cut off at the range of a 64-bit long and reduced to 32 bits |
| EndpointRoundTrip.PortComesBack | src/modules/connection.cpp:284-287 | a printed port is read back if and only if it is below 2^32 |
| EndpointRoundTrip.CutPortExactly | src/modules/connection.cpp:281-292 | a port is found exactly if some colon has nothing but digits, possibly none, behind it |
| EndpointRoundTrip.HostAndPort | include/slirc/modules/connection.hpp:137-147 | host:port parses back to its parts, no ssl, for every non-empty host without "://", if and only if the port fits or is overridden |
| EndpointRoundTrip.HostAlone | include/slirc/modules/connection.hpp:137-147 | a host alone parses to itself and to port 6667 or the port passed explicitly, if and only if it does not end like a port |
| EndpointRoundTrip.BareIpv6IsMisread | include/slirc/modules/connection.hpp:145 | the documented endpoint ::1 is read as host ":" with port 1, or the port passed explicitly |
| EndpointRoundTrip.UrlServer | src/modules/connection.cpp:246-275 | protocol, authentication and path, query or fragment are all found and dropped |
| EndpointRoundTrip.PlainProtocols | src/modules/connection.cpp:250-252 | irc:// and tcp:// in front of a host give no ssl and port 6667 |
| EndpointRoundTrip.SslProtocols | src/modules/connection.cpp:253-255 | ircs:// and ssl:// in front of a host give ssl and port 6697 |
| EndpointRoundTrip.OtherProtocolsAreInvalid | src/modules/connection.cpp:256-258 | any other protocol makes the endpoint invalid |
| EndpointRoundTrip.TailsAreDropped | src/modules/connection.cpp:264-268 | a slash, a question mark and a number sign each begin a part that is dropped |
| EndpointRoundTrip.UrlComesBackExactly | include/slirc/modules/connection.hpp:149-157 | a URL parses back to host, port or default, and ssl flag, if and only if it has not both a port and a tail, its port fits or is overridden, and a bare host does not end like a port |
| EndpointRoundTrip.PortAndTailAreMisread | src/modules/connection.cpp:277-292 | a URL with both yields a host name that includes the port, and the default port or the one passed explicitly |
| Lifecycle.StatesDiffer | include/slirc/apis/connection.hpp:48-92 | different states have different event ids, and changed is none of them |
| Lifecycle.WalkIsPrefix | src/modules/connection.cpp:323-347 | a sequence of states with legal neighbours is a prefix of (connecting connected? disconnecting? disconnected)* |
| Lifecycle.Connection.EmitStateChange | src/modules/connection.cpp:503-512 | the state event is recorded, to be handled as changed first, and the state moves with it |
| Lifecycle.Connection.MakeStateEvent | src/modules/connection.cpp:506-507 | the id queue of a state event is exactly [changed, new state] |
| Lifecycle.Connection.DoUnscheduledDisconnect | src/modules/connection.cpp:475-488 | ends the session and the look-up and clears the buffers, or changes nothing but throws exactly if no socket exists |
| Lifecycle.Connection.ConnectSuccess | src/modules/connection.cpp:450-456 | the session is established with empty buffers, the look-up dropped, and reading started, on a socket that does not exist exactly if there is none |
| Lifecycle.Connection.SetEndpoint | src/modules/connection.cpp:234-321 | refused unless disconnected; a valid endpoint replaces host, port and kind of socket, an invalid one resets them but keeps an existing plain socket |
| Lifecycle.Connection.Connect | src/modules/connection.cpp:323-338 | refused unless disconnected; otherwise connecting is announced |
| Lifecycle.Connection.Disconnect | src/modules/connection.cpp:340-347 | a no-op unless connecting or connected; then both events are emitted, or, exactly if no socket exists, only the first and an exception |
| Lifecycle.Connection.ConnectTryNext | src/modules/connection.cpp:387-418 | tries the next endpoint, ends the session if there is none |
| Lifecycle.Connection.OnResolved | src/modules/connection.cpp:363-383 | ignored unless connecting; an error ends the session, a result starts the attempts |
| Lifecycle.Connection.OnConnected | src/modules/connection.cpp:396-414 | ignored unless connecting; an error is reported and the next endpoint tried, a success establishes the session unless a handshake is due, and reads from an empty socket exactly if there is none |
| Lifecycle.Connection.OnHandshake | src/modules/connection.cpp:425-442 | ignored unless connecting; a failed handshake is reported and the state stays connecting |
| Lifecycle.Connection.OnReceived | src/modules/connection.cpp:571-589 | ignored unless connected; a chunk continues the reading of lines, an error is reported, ends the session and drops the unfinished line |
| Lifecycle.Connection.OnSent | src/modules/connection.cpp:170-191 | ignored unless connected; an error is reported and ends the session, data not yet sent is dropped |
| Lifecycle.AllAttemptsFail | src/modules/connection.cpp:387-418 | every endpoint found is tried once, each failure is reported, and after the last the session is over |
| Lifecycle.Feed | src/modules/connection.cpp:323-590 | every call and callback keeps the state and its event trace in step; nothing leads out of disconnecting |
| Lifecycle.AnyHistory | src/modules/connection.cpp:323-512 | under any calls and any callbacks, stale ones included, the state events are a prefix of the sessions' language, each queued as [changed, state], the last of them is the state, and it is disconnecting only without any socket |
| Lifecycle.StuckForGood | src/modules/connection.cpp:468-488 | connect and disconnect without an endpoint lead to disconnecting, and nothing leads out |
| Lifecycle.AbandonedAttempt | src/modules/connection.cpp:387-418 | a connection attempt over SSL can be given up while its callback is still to come |
| Lifecycle.StaleSuccess | src/modules/connection.cpp:396-414 | an SSL attempt, a disconnect, a rejected endpoint and a new connect lead to a session without a socket when the old attempt reports success |

## Left out

- Dispatch order and priorities of boost::signals2, connecting and disconnecting handlers: a dispatch is a log entry, and all handlers of it together are one program.
- Real time, the scheduler and fairness: steps are nondeterministic. That each consumer is eventually called exactly once is proved as at most once and in order; when it is called depends on events arriving.
- asio, SSL, name resolution: their callbacks are inputs that may come at any time with any outcome. Destruction of the implementation while callbacks are pending (the weak self pointer) is not modelled.
- Exceptions from cancelling a socket, from handlers, consumers, matchers or make_event; null events; consumers and callbacks that call back into the manager under its mutex.
- Events as objects in the queue: the wait protocol and the deque carry identities, and an event's own data is not shared between threads.
- component_container, irc load and unload, network.cpp: handle_afterwards is an optional list on the event.
- Names, ordering and hashing of id types, is_of_type, get and print_debug: an id is invalid, or an enum type with a number.
- Vector growth: any capacity that suffices may be chosen. Allocation failure is not modelled, and queue sizes are unbounded.
- HandleMachine.RunKeepsInv: an unqueue that would move the cursor behind the end of the vector, from where the next query or queue_as is undefined, does not happen in the model.
- IdQueue.Replay: runs with an unqueue that matches an id popped before it. Their replies depend on how much of the consumed part the vector still stores, and so on its capacity; what a single such call leaves is stated by IdQueue.IdQueue.Unqueue.
- HandleLoop.Handle: its handlers queue ids, nest handle_as and register follow-up events by programs fixed per dispatch, and are assumed to be ranked and budgeted, without which handle need not end. Handlers that react to the queue, unqueue ids or handle the event again are in HandleMachine only, which proves safety and not termination. Other threads using the manager meanwhile are in the wait protocol.
- HandlerSpec.EmptyOnReturnExactly: exact for those handlers only; a finished handler that queues an id and then unqueues it, or handles the event again, can leave the queue empty too. HandleMachine.EmptyUnlessQueued covers all handlers in one direction.
- HandleLoop.Event.HandleAs: dispatches the handlers for whatever id it is given, as the code does; the documented exception for an invalid id does not exist.
- SendBuffers.Session: one session. do_send_raw takes no lock and does not check the state, so data appended between sessions, or concurrently, is outside the model.
- SendBuffers.Reconnect: the cancelled write's callback is taken to come before the next session is connected. One that comes later would move the cursor of that session.
- Lifecycle.Connection.OnSent: a successful write is followed up in SendBuffers (Completed), not through the connection, because the buffers are fit for that only under the condition of Reconnect.
- LineSplitter.Receiver.Recv: queueing the event for a line is appending to the list of lines; the reading of up to 640 bytes at a time is an arbitrary chunk.
- EndpointSpec.PortValue: strtol with a 64-bit long, and unsigned with 32 bits.
- Lifecycle.Connection.OnConnected: a callback of an attempt made before a reconnect passes the state check like the code's, and can establish the new session. If there is no socket then, the ending EmptySocket marks the undefined read; what such a program does afterwards is not modelled beyond its state events.
- Assertions (SLIRC_ASSERT) are taken as compiled out; get_socket then throws where it has no socket.
