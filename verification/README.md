# Verified models of the gobee core

This project models the stateful core of gobee in Dafny and proves what that core is for. It covers:

- the event loop that the GTK clients bundle (libev): the 4-ary heaps of timers and periodic watchers, the pending
  queue, the order of callbacks, the time to block, changes of the clock, the table of file descriptors with the poll
  backend, and the wake-up handshake with other threads and signal handlers (`TimerHeap`, `PendingQueue`, `Periodic`,
  `EventLoop`, `FdInterest`, `PollBackend`, `Wakeup`, `WakeupDelivery`, `WakeupAlone`, with `EventMask`);
- the XML push parser, the tree serialiser and the two put together (`XmlParser`, `XmlPushParser`, `XmlRuns`, `XmlTags`,
  `XmlTree`, `XmlSerializer`, `XmlRoundTrip`, `XmlEvents`, `XmlEcho`), with the objects, their attribute lists and their
  copies (`Objects`, `ObjectCopy`, `Attributes`);
- the fragmentation of Theora frames over RTP and their reassembly (`TheoraFragments`);
- the containers of xwlib: the queue between threads, the circular buffer and the hash table (`MessageQueue`,
  `CircularBuffer`, `HashTable`).

What the C code changes in place is a class here, with its loops; each method is proved against a function or a
relation of the old state, and the lemmas are about those. Two parts are concurrent, `Wakeup` and `MessageQueue`; they
are state machines that make one memory access per step, for any number of threads.

Four choices run through the models. Times are exact reals. Event masks are sets of the bits that are set. A char is a
byte, and those from 0x80 on are the negative ones of C. A callback is an arbitrary finite script of feeding, clearing,
starting and stopping.

## Where the code does not do what it seems to

The models follow the code. Where one of its properties fails, a lemma with an input shows that, and a condition says
exactly when the property holds.

- A parser clears its attributes only at the space after a tag name, and clearing a string register leaves its bytes in
  place. So an element without attributes reports those of an element before it, and an empty value reads as an earlier
  value. `XmlEvents.RoundTrip` says exactly for which trees printing and parsing are inverse to each other, from any
  state of the parser; `XmlEvents.BareAfterAttributed` and `XmlEvents.EmptyAfterValue` show two that do not come back.
- A value without quotes ends at the first digit after its first character, and the rest goes to the name of the element.
  `XmlTags.UnquotedComesBack` says exactly which values come back, `XmlTags.UnquotedValue` what happens otherwise;
  `XmlTags.DigitLeavesValue` shows one that does not.
- Characters that cannot be in a key are dropped from it, even the end of the tag, which then does not end there:
  `XmlTags.KeySwallowsEnd`. `XmlRuns.KeyOfKey` says exactly which keys are taken as they stand.
- A periodic interval below MIN_INTERVAL is stretched when the grid is computed, but not when it is walked along.
  `Periodic.RecalcIsNext` says exactly when the result is the next occurrence, `Periodic.AlwaysNextFor` for which
  intervals it always is; `Periodic.ShortIntervalMisses` shows an instance where it is not.
- Copying an object reverses its attribute list. `XmlTree.CopyOnce` says exactly when a copy is the same as its
  original, and `XmlTree.CopyTwice` that a copy of a copy always is; `XmlTree.TwoAttributesReversed` shows a copy that
  differs.
- A write to the circular buffer does not check for room. `CircularBuffer.CircBuf.Write` says what the buffer holds
  then, `CircularBuffer.RefinesQueue` exactly which histories make it a queue, and `CircularBuffer.ThirdByteEmptiesTwo`
  shows one that does not.
- The Theora sender takes the padded size of its header, 8, for the length and the position 6 for the data, so each
  payload ends in two bytes that mean nothing. The receiver goes by the length field and never reads them.
- Lost fragments of a Theora frame go unnoticed unless the last is among them. If one in the middle is lost, a shorter
  frame is decoded (`TheoraFragments.MiddleLost`). If the first is lost, the rest is decoded behind all of the frame
  before, which is still in the buffer (`TheoraFragments.FirstLost`). `TheoraFragments.LossyFrame` says what is decoded
  in every case, and `TheoraFragments.LossHarmless` exactly when that does no harm.
- A sender clears the flag `pipe_write_skipped` before it writes to the pipe, so an iteration can pass over what another
  sender has marked: `WakeupDelivery.OneIterationCanMiss`. `WakeupDelivery.IterationDelivers` says exactly when it does
  not, `WakeupDelivery.MarkIsFed` by when every mark is handled all the same, and `WakeupDelivery.DelayEnds` when no
  sender can delay it any more.
- The comment on the hash function speaks of a rotation, which `i << 1 | i >> 15` with 32 bits is not.
  `HashTable.RotatesWhen` says for exactly which numbers it is; `HashTable.TwoShiftedAlike` shows two numbers that a
  rotation would keep apart.
- `ht_create_table` does not clear the table that it allocates. The tables in use are static and thus empty at first,
  which is what the constructor of `HashTable.HtTable` models.

## Model

| member | source | states |
|---|---|---|
| Wakeup.NoLostWakeup | apps/gtk/libev/ev.c:1759-1852 | in every reachable state, for any number of senders interleaved access by access, if the loop blocks in its poll, no sender is inside and a flag or a mark is set, the pipe is readable |
| WakeupDelivery.IterationDelivers | apps/gtk/libev/ev.c:2926-2987 | of a mark that is set, with its flag, in any reachable state, the watchers are fed by the time the loop is at the top again if and only if the loop was bound to feed them already, finds the pipe readable as a poll returns or finds pipe_write_skipped set as it tests it, whatever senders enter and move in between |
| WakeupDelivery.MarkIsFed | apps/gtk/libev/ev.c:1759-1852 | every mark whose flag its senders have set is fed within three iterations of accesses by the loop, and one more for every time the loop tests pipe_write_skipped ahead of a sender that is about to wake it up, however senders go on |
| WakeupDelivery.DelayEnds | apps/gtk/libev/ev.c:1759-1852 | that delay ends: a mark that is pending with both flags set, while the loop is bound to feed it or has no flag left to test in its iteration, is fed within three iterations once the senders that had found their flag clear are gone, whoever enters later |
| WakeupDelivery.WokenIsFed | apps/gtk/libev/ev.c:1773-1799 | once the pipe is written, every mark that is set, with its flag, is fed within two iterations, whatever senders enter, move or stop anywhere |
| WakeupDelivery.WriteDelivers | apps/gtk/libev/ev.c:1773-1799 | the write by which a waking sender leaves gets every mark that is set then, with its flag, fed within two iterations |
| WakeupDelivery.FedOnce | apps/gtk/libev/ev.c:4208-4213 | in every run the watchers of a mark have been fed exactly as often as it was set when it was clear, but for the marks still set or being fed |
| WakeupDelivery.OneIterationCanMiss | apps/gtk/libev/ev.c:1773-1777 | a run in which a whole iteration feeds nothing although a mark and its flag are set: a sender of the other kind clears pipe_write_skipped before it writes |
| WakeupAlone.AloneHandlesAll | apps/gtk/libev/ev.c:1804-1852 | a run of the loop alone from the top to the top feeds every mark once, leaves no flag and no mark set, and has read the pipe: an eventfd to nothing, another pipe by a byte at least |
| WakeupAlone.ComesToRest | apps/gtk/libev/ev.c:1804-1852 | once no sender is inside, the loop alone drains the pipe and handles everything within as many iterations as the pipe takes reads and two more, having fed every mark once |
| WakeupAlone.StaysAtRest | apps/gtk/libev/ev.c:2926-2998 | and then it polls as long as it may, without calling pipecb, until a sender enters |
| WakeupAlone.NoNeedlessWrites | apps/gtk/libev/ev.c:1759-1799 | while the loop is not on its way to its poll, no sender writes to the pipe |
| WakeupAlone.FewWrites | apps/gtk/libev/ev.c:1759-1763 | in every run the pipe is written at most once for every time that a sender finds its flag clear |
| WakeupAlone.NoFlagNoScan | apps/gtk/libev/ev.c:1828-1852 | as long as a flag is clear in a run, the loop feeds none of its marks |
| WakeupDelivery.BoundStep | apps/gtk/libev/ev.c:1804-1852 | no access, of a sender or of the loop, loses a mark that the loop is bound to feed |
| WakeupDelivery.MissStep | apps/gtk/libev/ev.c:2975-2987 | a mark that the loop is not bound to feed stays set, unfed, until the loop notices |
| WakeupDelivery.LoopWorks | apps/gtk/libev/ev.c:2926-2998 | each access of the loop brings it closer to the top, by a bound that counts signals and async watchers |
| Wakeup.StepKeeps | apps/gtk/libev/ev.c:1759-1852 | every access of a sender or of the loop keeps the invariant: each mark, each flag and each blocking poll is accounted for |
| Wakeup.RunKeeps | apps/gtk/libev/ev.c:4208-4213 | the invariant holds after every run |
| TimerHeap.Parent | apps/gtk/libev/ev.c:1574-1584 | the parent position of the 4-heap, with the truncating division of C at the root |
| TimerHeap.SinkSorts | apps/gtk/libev/ev.c:1586-1627 | sinking one element that is too large leaves the whole heap in order |
| TimerHeap.SinkPermutes | apps/gtk/libev/ev.c:1586-1627 | sinking keeps the multiset of elements |
| TimerHeap.RiseSorts | apps/gtk/libev/ev.c:1666-1685 | raising one element that is too small leaves a heap prefix in order and everything after it alone |
| TimerHeap.RisePermutes | apps/gtk/libev/ev.c:1666-1685 | raising keeps the multiset of elements |
| TimerHeap.RootIsLeast | apps/gtk/libev/ev.c:2439-2452 | the root of a heap in order is a minimum |
| TimerHeap.Heap.MinChild | apps/gtk/libev/ev.c:1592-1614 | the unrolled comparisons find the least child |
| TimerHeap.Heap.DownHeap | apps/gtk/libev/ev.c:1586-1627 | the hole-moving loop is sinking, and every watcher ends up indexed |
| TimerHeap.Heap.UpHeap | apps/gtk/libev/ev.c:1666-1685 | the hole-moving loop is rising, and every watcher ends up indexed |
| TimerHeap.Heap.AdjustHeap | apps/gtk/libev/ev.c:1688-1695 | one element misplaced either way is put right: order, elements and indices |
| TimerHeap.Heap.ReHeap | apps/gtk/libev/ev.c:1698-1707 | from any contents: order, the same elements, and indices |
| TimerHeap.Heap.Insert | apps/gtk/libev/ev.c:3204-3209 | adding a watcher keeps the heap valid and adds exactly that watcher |
| TimerHeap.Heap.Remove | apps/gtk/libev/ev.c:3224-3241 | removing a watcher from any position keeps the heap valid and removes exactly that watcher |
| TimerHeap.Heap.Refresh | apps/gtk/libev/ev.c:3252-3257 | a changed expiry is cached and put in its place; the watchers stay the same |
| TimerHeap.Heap.RefreshRoot | apps/gtk/libev/ev.c:2656-2666 | the same at the root, with downheap alone |
| TimerHeap.Heap.AddToAll | apps/gtk/libev/ev.c:2774-2785 | moving every expiry by one amount keeps the heap valid as it is |
| TimerHeap.Heap.Rebuild | apps/gtk/libev/ev.c:2769-2770 | the heap is valid again after all expiries changed |
| PendingQueue.Queue.FeedEvent | apps/gtk/libev/ev.c:1333-1348 | feeding keeps the queue valid, logs the event and gives the watcher the next slot of its priority unless it has one |
| PendingQueue.Queue.ClearPending | apps/gtk/libev/ev.c:3106-3121 | answers exactly the union of what was fed since the watcher last became pending, and 0 just if it is not pending |
| PendingQueue.Queue.Drop | apps/gtk/libev/ev.c:3096-3104 | stopping a watcher takes exactly what is owed to it off the queue |
| PendingQueue.Queue.Pop | apps/gtk/libev/ev.c:2605-2613 | takes the last slot of a priority: a dead slot does nothing, a live one delivers exactly what is owed (Valid keeps the history honest) |
| PendingQueue.HonestAppend | apps/gtk/libev/ev.c:2430-2437 | a history stays honest when what is taken is what is owed |
| PendingQueue.Queue.FeedReverseDone | apps/gtk/libev/ev.c:1357-1363 | feeds all that was collected, the last one first, and collects anew |
| PendingQueue.FeedingReverses | apps/gtk/libev/ev.c:1350-1363 | reverse feeding gives later slots to earlier watchers of a list, so that popping calls them in the order of the list |
| PendingQueue.EmptyingCallback | apps/gtk/libev/ev.c:2600-2614 | whatever a callback feeds, clears, starts or stops, what was in the queue before is still taken in its order |
| EventLoop.Loop.TimerStart | apps/gtk/libev/ev.c:3191-3213 | the loop stays valid, the timer runs with its relative time added to now, and no other watcher changes |
| EventLoop.Loop.TimerStop | apps/gtk/libev/ev.c:3215-3243 | the loop stays valid, the timer is stopped with the time that was left to it, its events are discarded, and no other watcher changes |
| EventLoop.Loop.TimerAgain | apps/gtk/libev/ev.c:3245-3268 | a repeating timer runs to now plus its repeat time, any other is stopped; events are discarded only in the latter case |
| EventLoop.PauseAndResume | apps/gtk/libev/ev.c:3191-3244 | a timer that is stopped keeps the time that is left, and has it again when it is started later |
| EventLoop.Repeats | apps/gtk/libev/ev.c:3245-3268 | a repeating timer is due a repeat from now when started again, and after it expired at its next repeat, but not in the past |
| EventLoop.Loop.PeriodicStart | apps/gtk/libev/ev.c:3277-3305 | the loop stays valid and the watcher runs to what its callback answers or to its next occurrence, for every interval that is long enough to find it |
| EventLoop.NextIsDue | apps/gtk/libev/ev.c:3283-3296 | for a watcher with a callback, without an interval, or with an interval of at least MIN_INTERVAL or a whole fraction of it, the expiry computed is that answer, the offset or the next occurrence |
| EventLoop.PeriodicExpires | apps/gtk/libev/ev.c:2712-2741 | a periodic watcher that has expired is due when it should be next, and stopped if there is nothing that it could be due at |
| EventLoop.Loop.PeriodicStop | apps/gtk/libev/ev.c:3307-3333 | the loop stays valid, the watcher is stopped and its events are discarded |
| EventLoop.Loop.PeriodicAgain | apps/gtk/libev/ev.c:3335-3342 | stopped and started again, and due when it should be |
| EventLoop.Loop.TimersReify | apps/gtk/libev/ev.c:2642-2677 | ends with no timer below now; exactly the expired timers were fed, each once; one-shot ones are stopped, repeating ones moved to the later of their next time and now, all others untouched |
| EventLoop.Loop.PeriodicsReify | apps/gtk/libev/ev.c:2706-2747 | the same for periodic watchers, whose next expiry is computed anew |
| EventLoop.Loop.CollectTimers | apps/gtk/libev/ev.c:2647-2672 | the loop ends, with the expired timers collected in the order of their expiry |
| EventLoop.Loop.CollectPeriodics | apps/gtk/libev/ev.c:2711-2742 | the loop ends, with the expired periodic watchers collected in the order of their expiry |
| EventLoop.Loop.RootIsNext | apps/gtk/libev/ev.c:2650-2672 | the root of the heap is an expired watcher that has not been dealt with, and the first such |
| EventLoop.Loop.ReifyBoth | apps/gtk/libev/ev.c:2994-2997 | both passes only feed and discard, and leave every expired watcher owed the event that is due to it; if none was pending before, nothing else is owed to them and those due sooner are ahead |
| EventLoop.SoonerAhead | apps/gtk/libev/ev.c:2994-2998 | of two watchers fed in one iteration, the one of higher priority, or periodic at the same priority, or of the same kind and due first, is ahead in the queue |
| EventLoop.LinedThenCalled | apps/gtk/libev/ev.c:2994-2998 | a queue taken off in its order calls watchers back in the order they are due |
| EventLoop.Loop.InvokePending | apps/gtk/libev/ev.c:2600-2614 | with arbitrary callbacks, everything pending before is taken off the queue, in order: high priorities first, last slots first; each callback is called with the events taken off for it and does all that its part of the script says before the next is called |
| EventLoop.NthCall | apps/gtk/libev/ev.c:2608-2612 | callback number i does what entry i of the script says, and nothing else happens between it and the next |
| EventLoop.FedByCallback | apps/gtk/libev/ev.c:2611 | what a callback feeds stands in the history after its call and before the next |
| EventLoop.PlayedCalls | apps/gtk/libev/ev.c:2608-2612 | the callbacks recorded are all that the history has |
| EventLoop.StartMeans | apps/gtk/libev/ev.c:3191-3305 | what starting in a callback does: a timer runs as long as it has left, a periodic watcher to when it is due |
| EventLoop.StopMeans | apps/gtk/libev/ev.c:3106-3243 | after clearing or stopping in a callback nothing is owed to the watcher |
| EventLoop.AgainMeans | apps/gtk/libev/ev.c:3245-3268 | what starting a timer again in a callback does |
| EventLoop.OthersUntouched | apps/gtk/libev/ev.c:2611 | an operation in a callback changes nothing for other watchers, not even what is owed to them |
| EventLoop.Loop.CallExpired | apps/gtk/libev/ev.c:2994-2998 | a whole iteration: the two passes only feed and discard and start the expired watchers anew or stop them; the callbacks then do exactly what the script says, one after the other; every expired watcher is first taken off the queue with the event that is due to it, and, if none was pending before, none is called back for it while one due sooner waits |
| EventLoop.Loop.TimersReschedule | apps/gtk/libev/ev.c:2774-2785 | every timer moves by the same amount, nothing else changes, and the heaps stay valid |
| EventLoop.Loop.PeriodicsReschedule | apps/gtk/libev/ev.c:2751-2770 | every scheduled periodic watcher gets its next expiry anew, nothing else changes, and the heaps are valid |
| EventLoop.Loop.BlockTime | apps/gtk/libev/ev.c:2916-2972 | sleep plus poll are exactly the largest of the collect time, the minimal time and the least distance to a timer, as far as MAX_BLOCKTIME; the sleep is the longest that the io collect time allows and that leaves the minimal time to poll |
| EventLoop.Loop.RootIsNearest | apps/gtk/libev/ev.c:2935-2947 | the cached time at a root is the least expiry of all started watchers of its kind |
| Periodic.EvFloor | apps/gtk/libev/ev.c:935-967 | the recursive floor ends and is the floor, for every real |
| Periodic.Recalc | apps/gtk/libev/ev.c:2681-2703 | the loop ends at the first point after now that is whole intervals away from where it starts |
| Periodic.RecalcIsNext | apps/gtk/libev/ev.c:2681-2703 | that is the first occurrence after now if and only if the interval is at least MIN_INTERVAL or the point it starts from is an occurrence |
| Periodic.AlwaysNextFor | apps/gtk/libev/ev.c:2681-2703 | at all times, for an interval of at least MIN_INTERVAL or a whole fraction of it, and for no other |
| Periodic.RecalcBrackets | apps/gtk/libev/ev.c:2688-2700 | the result is after now, by one interval at most |
| Periodic.ShortIntervalMisses | apps/gtk/libev/ev.c:2684-2685 | an interval of 0.0001 with the clock at 0.00013 gives a time that is no occurrence |
| FdInterest.Table.FdReify | apps/gtk/libev/ev.c:1411-1468 | afterwards no descriptor is to be reified, and poll asks for POLLIN on a descriptor if and only if some started watcher wants to read it, for POLLOUT if and only if one wants to write it, and for no other descriptors |
| FdInterest.Table.PollPoll | apps/gtk/libev/ev_poll.c:91-128 | whatever poll reports, exactly the started watchers whose descriptor is ready for something that they want are told so, each once and of no more; those of a descriptor that has changed meanwhile are not |
| FdInterest.Table.EveryWatcherTold | apps/gtk/libev/ev_poll.c:91-128 | with no change left to be told to the backend, there is a report for every started watcher; it is told to read if and only if it wants to and poll reports POLLIN, POLLERR or POLLHUP, and likewise to write |
| FdInterest.Table.FdEventNocheck | apps/gtk/libev/ev.c:1376-1389 | the loop feeds each watcher of a list what it is interested in |
| FdInterest.Table.IoStart | apps/gtk/libev/ev.c:3149-3170 | the watcher joins the list of its descriptor, whose change is noted, with that of its mask if it was set anew, and listed once; every invariant between the tables holds; an active watcher changes nothing |
| FdInterest.Table.IoStop | apps/gtk/libev/ev.c:3172-3189 | the watcher leaves the list of its descriptor, whose change is noted and listed once; every invariant between the tables holds; an inactive watcher changes nothing |
| FdInterest.Table.IoSet | apps/gtk/libev/ev.c:3149-3170 | setting a stopped watcher keeps every invariant between the tables |
| FdInterest.Table.Change | apps/gtk/libev/ev.c:1471-1483 | the change is added to the flags, and the descriptor is listed just if it was not |
| FdInterest.Table.ReadMasks | apps/gtk/libev/ev.c:1456-1457 | the loop over a list gives the union of what the started watchers of the descriptor want |
| FdInterest.Table.ReifiedIsUpToDate | apps/gtk/libev/ev.c:1441-1467 | with no change noted, the poll array watches exactly what is wanted |
| FdInterest.NextNoted | apps/gtk/libev/ev.c:1441-1449 | reifying the next descriptor of the list leaves the rest of the list noted, each once |
| FdInterest.WithoutMembers | apps/gtk/libev/ev.c:3080-3093 | unlinking removes one watcher and keeps the others, each once |
| PollBackend.Poll.Modify | apps/gtk/libev/ev_poll.c:51-86 | the array and its index stay inverse to each other, what is watched changes for that descriptor alone, and for it POLLIN is asked for just if the new mask has EV_READ, POLLOUT just if it has EV_WRITE |
| PollBackend.Poll.RemoveAt | apps/gtk/libev/ev_poll.c:76-85 | swap-remove takes one descriptor away and keeps the rest |
| XmlParser.RunKeepsSound | xmppbot/x_parser.c:60-79 | for every input, malformed included, the return stack is neither overrun nor popped empty, exit is not reached, and depth and phase stay tied to the context |
| XmlParser.StepKeepsSound | xmppbot/x_parser.c:435-445 | one character keeps the stack at depth 1 exactly in the idle context and 0 otherwise, and the phase one of those of the context |
| XmlParser.RunBoth | xmppbot/x_bus.c:429-432 | feeding two buffers is feeding their concatenation |
| XmlPushParser.PushParser.constructor | xmppbot/x_parser.c:371-392 | a parser between elements, whatever its string registers held |
| XmlPushParser.PushParser.Push | xmppbot/x_parser.c:435-439 | one more context on the stack |
| XmlPushParser.PushParser.Pop | xmppbot/x_parser.c:441-445 | the context pushed last comes back |
| XmlPushParser.PushParser.CtxTxt | xmppbot/x_parser.c:38-55 | the fields and the callback follow the specified turn |
| XmlPushParser.PushParser.CtxIdle | xmppbot/x_parser.c:60-79 | the fields and the stack follow the specified turn |
| XmlPushParser.PushParser.CtxTag | xmppbot/x_parser.c:84-230 | the fields, the stack and the callbacks follow the specified turn; the branch with exit is dead |
| XmlPushParser.PushParser.CtxAttr | xmppbot/x_parser.c:235-359 | the fields, the stack and the callbacks follow the specified turn, returning to the tag included |
| XmlPushParser.PushParser.RPutc | xmppbot/x_parser.c:361-366 | each character is one specified step, and the parser stays valid |
| XmlPushParser.PushParser.Feed | xmppbot/x_bus.c:429-432 | feeding a buffer is the specified run, stopping only with the program |
| XmlSerializer.Serialize | xmppbot/x_parser.c:450-550 | the walk without a stack ends; its output is the recursive text of the tree of that object, wherever the object hangs; it consists of pieces that open or close objects of the tree, and every object is opened once, in document order |
| XmlSerializer.Leave | xmppbot/x_parser.c:505-518 | from a finished object the walk goes to the sibling, the parent or the end, with exactly the rest of the text still to be written |
| XmlSerializer.OpenTurn | xmppbot/x_parser.c:467-519 | one turn in the open state writes exactly what then is no longer to be written |
| XmlSerializer.CloseTurn | xmppbot/x_parser.c:521-542 | one turn in the close state writes exactly what then is no longer to be written |
| XmlSerializer.WriteHead | xmppbot/x_parser.c:469-488 | the attribute loop writes the opening tag |
| Objects.NoRepeats | xmppbot/x_parser.c:462-548 | no object has two places in its tree, by its parent and sibling links alone |
| XmlEvents.RoundTrip | xmppbot/x_parser.c:450-550 | feeding the text of a tree to the parser is accepted as a whole, and gives exactly the events of the tree with the same attribute maps if and only if no element without attributes follows one that has some, no empty value follows a non-empty one, and what the parser holds from before cannot show |
| XmlEcho.SerializeAndFeed | xmppbot/x_parser.c:450-550 | serialising an object tree and feeding the text to a parser, objects and fields and all: everything is accepted, and the callbacks are the events of the tree under exactly that condition |
| XmlEvents.RoundTripExact | xmppbot/x_parser.c:84-359 | from any state between elements, what exactly is reported, stale attributes and stale values included, and that the parser is between elements again |
| XmlEvents.RoundTripAttributed | xmppbot/x_parser.c:167-180 | in particular for every tree whose elements all have attributes and whose values are not empty, whatever was parsed before |
| XmlEvents.RoundTripFresh | xmppbot/x_parser.c:371-392 | the condition for the first tree that a parser sees |
| XmlEvents.BareAfterAttributed | xmppbot/x_parser.c:167-180 | <a k='v'><b/></a> does not come back: attributes are only cleared by a space after a tag name |
| XmlEvents.EmptyAfterValue | xmppbot/xwlib/x_string.c:46-59 | <a k='v' l=''/> does not come back: clearing a register leaves its bytes in place |
| XmlEvents.TextIsSpelled | xmppbot/x_parser.c:467-542 | the recursive text is the tags and texts of the tree in document order |
| XmlEvents.TreeIsIdeal | xmppbot/x_parser.c:467-542 | the events of a tree are those of its tags and texts |
| XmlEvents.TokensMean | xmppbot/x_parser.c:84-359 | what is reported for a list of tags means what it should, just if every attribute list comes back |
| XmlEvents.ListsCondition | xmppbot/x_parser.c:235-359 | every attribute list comes back just if empty ones come first, and empty values come first |
| XmlEvents.AnySpelling | xmppbot/x_parser.c:84-359 | a tree in any spelling that the parser accepts, with either quotes or none, blanks in tags, texts in parts, empty elements in either form and processing instructions anywhere, gives its events on the same condition |
| XmlEvents.AnySpellingExact | xmppbot/x_parser.c:84-359 | what exactly is reported then |
| XmlTags.RunMarkups | xmppbot/x_parser.c:84-359 | any sequence of tags, texts and processing instructions, with attributes in every form, keys without values and tags that break off included, is accepted with exactly these reports |
| XmlTags.RunQuoted | xmppbot/x_parser.c:269-285 | a value between quotes of either kind is whatever stands between them, with the characters that follow the closing quote |
| XmlTags.RunBare | xmppbot/x_parser.c:286-291 | a value without quotes is read as it stands |
| XmlTags.UnquotedComesBack | xmppbot/x_parser.c:241-262 | if and only if it has no digit after its first character |
| XmlTags.DigitLeavesValue | xmppbot/x_parser.c:241-262 | <a k=x1> is read as an element a1 with the value x |
| XmlRuns.KeyOfKey | xmppbot/x_parser.c:315-331 | a key is taken as it stands if and only if every character of it can be in one |
| XmlTags.KeySwallowsEnd | xmppbot/x_parser.c:315-331 | <a k>b='v'> is read as an element a with an attribute kb |
| XmlTags.RunKeyText | xmppbot/x_parser.c:316-331 | of a key the characters that cannot be in one are dropped, even an end of the tag |
| XmlTags.RunItem | xmppbot/x_parser.c:235-359 | one attribute, with blanks around its equals sign, or a key without a value, which unsets its attribute if another key follows |
| XmlTags.RunTag | xmppbot/x_parser.c:84-186 | an opening tag with any attributes |
| XmlTags.RunInstruction | xmppbot/x_parser.c:96-103 | a processing instruction is skipped |
| XmlTags.JunkIsDropped | xmppbot/x_parser.c:122-126 | characters that cannot begin a tag are refused and make no other difference |
| XmlTags.ClosingJunkIsDropped | xmppbot/x_parser.c:210-221 | nor do characters of a closing tag that cannot be in its name |
| XmlTags.BrokenName | xmppbot/x_parser.c:182-186 | a character that can neither be in a name nor end one is a bug |
| XmlParser.Alphabets | xmppbot/xwlib/x_lib.c:55-66 | the letters, digits and other characters of names and keys, and the blanks |
| XmlTags.EndTag | xmppbot/x_parser.c:135-166 | the end of an opening tag sets the last attribute and reports the element |
| XmlTags.RunClose | xmppbot/x_parser.c:104-121 | a closing tag is reported by its name |
| XmlRuns.RunValue | xmppbot/xwlib/x_string.c:104-117 | a value is collected up to its terminator |
| Attributes.SetAttrIn | xmppbot/xwlib/x_utils.c:387-419 | the loop sets, replaces or (without a value) deletes as specified |
| Attributes.GetAttr | xmppbot/xwlib/x_utils.c:421-436 | the loop finds the first cell of a key |
| Attributes.DelAttrIn | xmppbot/xwlib/x_utils.c:438-454 | the loop unlinks the first cell of a key |
| Attributes.SetAttrUpdates | xmppbot/xwlib/x_utils.c:387-419 | setting changes one binding and keeps the keys distinct |
| Attributes.DelAttrRemoves | xmppbot/xwlib/x_utils.c:438-454 | deleting removes one binding |
| ObjectCopy.FullCopy | xmppbot/xwlib/x_obj.c:933-952 | a tree of new objects, with names, content, child order, child counts and links, that holds the copied tree; the original is untouched |
| ObjectCopy.Copy | xmppbot/xwlib/x_obj.c:910-931 | a new object without a parent, with the name and content, and the attributes set one by one |
| ObjectCopy.DefaultAssign | xmppbot/xwlib/x_obj.c:1376-1387 | the loop sets all attributes of a list |
| ObjectCopy.InsertIntoTree | xmppbot/xwlib/x_obj.c:365-411 | the walk to the last sibling appends the object to the child list |
| ObjectCopy.AppendChildNoCb | xmppbot/xwlib/x_obj.c:780-814 | appending a copied child leaves the trees of its siblings as they are |
| ObjectCopy.SerializeSecondCopy | xmppbot/xwlib/x_obj.c:933-952 | serialising a copy of a copy gives the text of the original |
| XmlTree.CopyMirrors | xmppbot/xwlib/x_obj.c:933-952 | a copy has the same structure, and every attribute list reversed, with the same bindings |
| XmlTree.CopyTwice | xmppbot/xwlib/x_obj.c:933-952 | a copy of a copy holds exactly what the original does |
| XmlTree.CopyOnce | xmppbot/xwlib/x_obj.c:933-952 | a single copy does if and only if no element has two attributes |
| XmlTree.TwoAttributesReversed | xmppbot/xwlib/x_obj.c:910-931 | an element with two attributes whose copy has them, and its text, the other way round |
| XmlTree.SetAllReverses | xmppbot/xwlib/x_utils.c:399-409 | setting the attributes of a list one by one reverses it, as new ones go to the front |
| TheoraFragments.FramesReassembled | apps/gtk/x_theora.c:177-280 | after any other traffic, parts of which may be lost, consecutive packets sent as fragments are decoded one after the other, each once |
| TheoraFragments.ReassembledAmong | apps/gtk/x_theora.c:245-280 | a packet is put together among payloads of other kinds, wherever they arrive |
| TheoraFragments.Reassembled | apps/gtk/x_theora.c:177-234 | the fragments of a non-empty packet make the receiver decode exactly that packet, once, from any prior state |
| TheoraFragments.LossyFrame | apps/gtk/x_theora.c:191-234 | whichever fragments of a packet are lost: without the last nothing is decoded, else what the others carry, behind all that was in the buffer if the first is lost |
| TheoraFragments.LossHarmless | apps/gtk/x_theora.c:191-234 | a packet with losses is decoded as it was sent or not at all if and only if the last fragment is lost, none is, or the first is and the old buffer happens to make up for it |
| TheoraFragments.MiddleLost | apps/gtk/x_theora.c:203-223 | without the middle one of three fragments a shorter packet is decoded |
| TheoraFragments.FirstLost | apps/gtk/x_theora.c:203-223 | without the first of three fragments the rest is decoded behind the packet before |
| TheoraFragments.LastLost | apps/gtk/x_theora.c:203-208 | without the last of three fragments nothing is decoded |
| TheoraFragments.Sender.SendFragmentedRtp | apps/gtk/xx_theora.c:167-218 | the payloads are the marked chunks of the packet, in order, and as many sequence numbers are used; an empty packet sends nothing |
| TheoraFragments.Sender.SendChunk | apps/gtk/xx_theora.c:206-215 | header and data are where they should be in the static buffer, and two bytes more than that are sent |
| TheoraFragments.ChunksMakeUp | apps/gtk/xx_theora.c:183-216 | the chunks make up the packet |
| TheoraFragments.NextChunk | apps/gtk/xx_theora.c:183-204 | the loop cuts the chunks that belong to its turns, and marks them single, first, middle or last |
| TheoraFragments.CarriedIs | apps/gtk/x_theora.c:252-273 | the receiver reads mark, kind, length and data from a payload as the sender wrote them |
| TheoraFragments.OnTheWire | apps/gtk/xx_theora.c:206-215 | the header of a single frame and of a last fragment, byte by byte |
| TheoraFragments.Receiver.OnTheoraPacketReceived | apps/gtk/x_theora.c:245-280 | one payload is one specified step; only frames touch the buffer |
| TheoraFragments.Receiver.DispatchFramePacket | apps/gtk/x_theora.c:177-234 | the marks reset, extend and deliver the buffer as specified |
| MessageQueue.Linearised | xmppbot/xwlib/x_queue.c:32-77 | in every interleaving, the messages dequeued so far followed by the list are the messages enqueued so far, in order; with the mutex free the list is what head, prev and tail describe |
| MessageQueue.Balanced | xmppbot/xwlib/x_queue.c:32-77 | the list is as long as the semaphore, the calls past its wait and the calls that have not posted yet say together |
| MessageQueue.NeverNull | xmppbot/xwlib/x_queue.c:32-59 | no call reads through a null pointer, and every dequeue that returns gives a message that it alone has taken |
| MessageQueue.Drained | xmppbot/xwlib/x_queue.c:32-77 | once all calls have returned or wait, no message is left behind a waiting call |
| MessageQueue.SomeCallMoves | xmppbot/xwlib/x_queue.c:32-77 | no deadlock: in every reachable state in which a call is neither done nor waits in vain, one that is not done can move |
| MessageQueue.RunsToRest | xmppbot/xwlib/x_queue.c:32-77 | from every reachable state the calls inside can come to rest, in no more accesses than they have left |
| MessageQueue.StepKeeps | xmppbot/xwlib/x_queue.c:32-77 | every single access keeps the invariant: one owner of the mutex, the list linked, the counts, and calls matched with messages |
| MessageQueue.TailKeepsList | xmppbot/xwlib/x_queue.c:61-77 | the accesses of queue_tail keep the list linked through prev |
| MessageQueue.HeadKeepsList | xmppbot/xwlib/x_queue.c:45-54 | the accesses of dequeue_head keep the list linked through prev |
| MessageQueue.PastIsSafe | xmppbot/xwlib/x_queue.c:38-41 | past the semaphore the list is not empty and the unlocked test of qlen succeeds |
| CircularBuffer.CircBuf.constructor | xmppbot/xwlib/x_stuff.c:21-27 | an empty buffer with one slot more than its size |
| CircularBuffer.CircBuf.Length | xmppbot/xwlib/x_stuff.c:37-55 | the length of the contents |
| CircularBuffer.CircBuf.Write | xmppbot/xwlib/x_stuff.c:161-175 | the bytes are appended, across any wrap; beyond the room there is, whole turns around the buffer are lost |
| CircularBuffer.CircBuf.Read | xmppbot/xwlib/x_stuff.c:139-159 | all or nothing: the oldest bytes are handed out and dropped, or nothing changes |
| CircularBuffer.WriteAppends | xmppbot/xwlib/x_stuff.c:161-175 | a write appends if and only if there is room for it |
| CircularBuffer.RefinesQueue | xmppbot/xwlib/x_stuff.c:139-175 | the buffer is a queue for exactly those histories in which the queue never holds more than the initial size |
| CircularBuffer.ThirdByteEmptiesTwo | xmppbot/xwlib/x_stuff.c:161-175 | a buffer made for two bytes is empty after a third is written |
| HashTable.HtHash | xmppbot/xwlib/x_utils.c:522-538 | the loop computes the hash, which is an index of the table |
| HashTable.RotatesWhen | xmppbot/xwlib/x_utils.c:530-531 | the shifts that a comment calls a rotation are one if and only if every bit of the upper half is also set 16 places down and the topmost bits of the two halves agree |
| HashTable.LastCharDiffers | xmppbot/xwlib/x_utils.c:530-531 | keys that differ only in their last character hash differently, by that character, before reduction |
| HashTable.HtTable.Get | xmppbot/xwlib/x_utils.c:557-574 | the value bound to a key, if any |
| HashTable.HtTable.Set | xmppbot/xwlib/x_utils.c:600-625 | one binding is set or replaced, all others stay |
| HashTable.HtTable.Del | xmppbot/xwlib/x_utils.c:627-652 | one binding is removed, all others stay, and the result says whether there was one |
| HashTable.HtTable.Next | xmppbot/xwlib/x_utils.c:654-669 | the next cell, and the rest of the cells remain; at the end none, again and again |
| HashTable.HtTable.NullifyIter | xmppbot/xwlib/x_utils.c:671-678 | the first cell of all |
| HashTable.HtTable.Enumerate | xmppbot/xwlib/x_utils.c:654-678 | the iteration ends and gives every binding exactly once |
| HashTable.CellsAreBindings | xmppbot/xwlib/x_utils.c:654-678 | all cells in the order of the iterator are all bindings, no key twice |
| HashTable.HtTable.LowcaseGet | xmppbot/xwlib/x_utils.c:576-598 | the value of the first cell of the chain of the lower-cased key that is equal but for case |
| HashTable.LowcaseAgrees | xmppbot/xwlib/x_utils.c:576-598 | in a table of lower-case keys that is the value of the lower-cased key |

## Left out

- Rounding of floating-point numbers, and with it the exit of `periodic_recalc` that sets the clock's own time when
  adding the interval changes nothing: over exact reals it is dead.
- The backends other than poll, the system calls themselves, reading the clock, signalfd, child, stat, embed and fork
  watchers. The pipe is a counter of what can be read, and a write to a full pipe is not modelled.
- Idle, prepare and check watchers, `activecnt` with `ev_ref`, the loop flags (whether the loop may block is a
  parameter), and `ev_run` called from a callback.
- Changing the priority of a watcher, and changing its times or masks while it is started, which the program must not do.
- `fd_kill` and the errors that lead to it (POLLNVAL among the reports of poll).
- FdInterest.Table.IoStop: discarding pending events is not part of the table of descriptors; it is that of `PendingQueue`.
- EventLoop.Loop.PeriodicsReify: the outer loop of the C code is not a loop here, as after one pass its guard fails.
- TimerHeap.Heap.MinChild: one more comparison in the last, partial row of children is left out where its index is
  always past the end.
- WakeupDelivery.MarkIsFed: async watchers do not start or stop while senders are about, fences make all accesses
  sequentially consistent, and a poll may return at any time.
- XmlPushParser.PushParser.Feed: the flag `cr0` is left out, which nothing reads, and so is the reallocation of string
  registers to 32 bytes, after which old bytes past that are lost.
- XmlSerializer.Serialize: cells without a key, for which the C code prints a complaint, and values that are null; the
  attribute functions never make such cells.
- ObjectCopy.FullCopy: the chain of children of the same name, whose test matches prefixes, reference counts, locks, the
  bus and the dirty flag.
- Removing objects from a tree, which does not reset the first child of the parent, followers and paths.
- TheoraFragments.Receiver.OnTheoraPacketReceived: requires a payload that is as long as its length field says, as the
  code reads that much; header packets and the decoder are not modelled.
- MessageQueue.NeverNull: the count of messages ever queued, which never goes down, is unbounded here and wraps in C;
  interrupted waits are left out.
- CircularBuffer.CircBuf.Read: `circbuf_deinit` and the counters of reads and writes, which the active code never changes.
- HashTable.HtTable.Next: chains are sequences, so an iterator over a table that changes meanwhile is not modelled.
- HashTable.HtTable.LowcaseGet: keys of 512 bytes and more, which overrun the buffer of the C code.
- Failing allocations, and memory that is freed.
- JIDs, namespaces, the networking of the bus, the user interfaces, codecs and VP8.
