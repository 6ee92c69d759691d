# Subtrace: a model of its protocols and codecs

Subtrace intercepts the sockets of a process, relays their traffic, parses it and ships it. This
project models the parts of it that are hard to get right, in Dafny, and proves what they are for:
small concurrent protocols made of atomic operations, compare-and-swaps and channels, and codecs
that read what others write.

## How the concurrent parts are modelled

Each protocol is a state machine: a `State`, a `Move` for each atomic operation or system call of
each goroutine, and a total function `Apply`. A move that cannot be made changes nothing, so the
runs over all lists of moves (`Schedules.Run`) are all interleavings of any number of goroutines.
`Reachable` means: the end of some run. What the kernel, the network or a handler decides is part
of the move, so every outcome is covered. The invariant of each protocol is proved for one step
and carried over all runs; the main results are about reachable states.

Beside each state machine stands a class with the program's own fields. Its methods do what the
program does, loops included, and take what the other goroutines do in between as arguments
(`bursts`, `Around`, `Turn`, `Attempt`); their postconditions say that the object's fields have gone
through exactly such an interleaving, and what the caller has gained. The caller's own steps are
statements on the fields; what the others do meanwhile, and the record of a new call, come from the
state machine.

- `Fd`: the reference-counted descriptor. One 32-bit word holds the count and the closed flag, a
  second field the descriptor, a third the semaphore. `Guards` says what a descriptor is to its
  users, and `Fd.StepRefines` that the words implement it.
- `Sockets`, `SocketSteps`, `SocketRuns`, `SocketLeaks`, `Inodes`: sockets that share an inode. The
  immutable states are entries of an append-only heap, so that a compare-and-swap compares addresses.
  `SocketRuns.FollowsGuard` says that the calls use each descriptor as its guard allows; together
  with `Fd.StepRefines` this is what joins the two models.
- `Backlogs`, `Listeners`: dispatcher and accepter meeting in the backlog map.
- `Blocks`, `Managers`: the blocks that inserters fill and finalizers flush, recycled by a pool. A
  block is there twice: as a record of the shared state in `Blocks`, holding the numbers of Insert
  calls, and as the object `Managers.EventBlock`, holding their texts. `Managers.TryIsInsert`,
  `Managers.FreezeAndAnswerIsFlushOnce` and `Managers.StepResetIsReset` say that the steps of the one
  do what the methods of the other do.
- `Links`, `Buses`: closing a link while events are dispatched.
- `Publishing`: the publisher's queue, its writer loop and its flush.
- `Engine`, `Pools`: the worker pool with its safe mode.
- `Budgets`, `Websockets`: the byte budget that the two readers of a websocket share.
- `Journals`: the ring of log lines. Its methods hold a lock, so it is a class alone.

## The codecs

- `Frames` (RFC 6455, sections 5.2 and 5.3), `Messages` (section 5.4, and RFC 7692, sections 7.1.1,
  7.1.2 and 7.2.2), `Recorders`, `Traces`: from the bytes of a websocket to the recorded messages.
  Each has its own account of what a sender writes (`Frames.Encode`, `Messages.Carries`,
  `Messages.Dictionary`) and the reader is proved against it, both ways. The DEFLATE decoder is an
  arbitrary function of a dictionary and an input.
- `Varints`, `Wires`, `Decoding`, `Pubsub`, `PubsubSpec`, `Unknowns`, `PubsubStreams`: the generated
  protobuf codec of the browser client, over the wire format of the Protocol Buffers encoding
  specification. `PubsubSpec` says what a list of fields means to each message, independently of
  the decoder; `Unknowns` puts an unknown field at any depth of a message.
- `RawProtos`, `Grpc`: protobuf without a schema, and the gRPC framing around it.

`Tally`, `Schedules`, `Options` and `Bytes` hold what several modules need.

## Where the code differs from what is said of it

- The decrement in `decRef` can panic with "invalid closed file descriptor state" although every
  caller behaves: `Fd.ClosedTwiceHappens` gives the run, `Fd.ClosedTwiceExactly` says when.
- A temporary bind socket can stay open for good when close(2) fails, because `Close` then returns
  before it takes the socket off the inode's list: `SocketLeaks.LeakHappens`, and
  `SocketLeaks.LeakExactly` says when.
- `Listen` closes the inode's temporary bind socket without waiting for those who hold a reference on
  it, as everybody else does. A `Bind` that holds one can so call bind(2) on a closed descriptor, and
  if that call succeeds it leaves the inode bound to the closed socket: `SocketLeaks.BindOnClosedHappens`,
  and `SocketLeaks.ClosedUnderBindExactly` says when. `SocketLeaks.DoomedExactly` and
  `SocketLeaks.DoomedForever` say how an inode comes to be bound to such a socket, and that it never
  gets another.
- An event can be lost with a token set in three ways. It is appended through a stale address to a block
  that has since been reset and pooled, and no finalizer ever freezes it: `Blocks.LostEventHappens`,
  and `Blocks.LosesExactly` says at which steps. Or it is frozen, but both attempts of its finalizer
  end before `doInsert`: `Blocks.DoubleEarlyHappens`, and `Blocks.DroppedIsHandedExactly` says that
  this is when a frozen event is never handed over. Or it is handed over, but neither attempt is
  acknowledged: `Blocks.AckedFinalizationHandedIt` says that a frozen event is in an acknowledged batch
  exactly if one of its finalizer's attempts is.
- A message that the publisher has accepted is lost if the context ends after a failed write of it,
  because `Loop` returns with it in its hands: `Publishing.LossHappens`; `Publishing.LostExactly` and
  `Publishing.LosesExactly` say when. No `Flush` that has yet to see the counter at zero returns true
  from then on (`Publishing.LossIsNeverFlushed`).
- After a handler panics, `Start` never returns: the worker that panicked drains the work channel,
  which nobody closes (`Engine.PanicKeepsStart`).
- The slice that `CopyFrom` returns can be the live array itself: `Journals.Journal.CopyFrom` says
  exactly when, `Journals.AliasShowsNewLines` what its holder then sees.
- `decode` replaces an embedded message that occurs twice, where the encoding specification asks
  parsers to merge the two; the specification's merging is not claimed.
- `readFrame` takes a payload length in any of the three forms, also when a shorter one would do.
- `decodeRawProto` lets an end-of-group tag outside a group pass without an entry.

## Model

| member | source | states |
|---|---|---|
| `Fd.ClosesAtMostOnce` | cmd/run/fd/fd.go:132-147 | Over every run ClosingIncRef succeeds at most once; once it has, the flag stays and no later step succeeds again |
| `Fd.LockExcludes` | cmd/run/fd/fd.go:149-166 | Once Lock has returned for one goroutine, every other goroutine holds no successful reference and no closing one |
| `Fd.HolderSeesDescriptor` | cmd/run/fd/fd.go:83-93 | A goroutine with a successful reference, ordinary or closing, reads the original descriptor and does not panic |
| `Fd.RefsAreConserved` | cmd/run/fd/fd.go:62-124 | The low bits are always the successful references plus the increments of refused IncRef calls not yet undone; the flag is set exactly after the close; no underflow below the limit |
| `Fd.WakeupIsNeverLost` | cmd/run/fd/fd.go:95-124 | A closer asleep in Lock always has a count above one, a release pending, or a positive semaphore |
| `Fd.LockProceeds` | cmd/run/fd/fd.go:149-166 | When nobody else has a reference or a pending step, the sleeping closer can acquire |
| `Fd.ClosedTwiceExactly` | cmd/run/fd/fd.go:107-118 | The swap after an ordinary last decrement panics if and only if the undo of a refused IncRef has swapped before |
| `Fd.NoRefusalNoPanic` | cmd/run/fd/fd.go:107-118 | In runs where no IncRef was refused that panic has not happened |
| `Fd.ClosedTwiceHappens` | cmd/run/fd/fd.go:107-118 | A run in which it does happen, with balanced references |
| `Fd.StepRefines` | cmd/run/fd/fd.go:39-166 | Every atomic operation on the words is a step of the abstract guard or is invisible in it |
| `Fd.FD.constructor` | cmd/run/fd/fd.go:50-52 | A new descriptor has one reference, no flag and no waiter |
| `Fd.FD.IncRef` | cmd/run/fd/fd.go:62-78 | Adds first; succeeds if the flag was clear, and otherwise takes the increment back, releasing or swapping as that decrement finds; the fields went through exactly this interleaving |
| `Fd.FD.DecRef` | cmd/run/fd/fd.go:95-130 | Drops the reference, with whatever release or swap the decrement leads to |
| `Fd.FD.ClosingIncRef` | cmd/run/fd/fd.go:132-147 | The retry loop, for any interference between load and swap: true exactly if this call set the flag, false only if it was set already |
| `Fd.FD.Lock` | cmd/run/fd/fd.go:149-166 | Returns holding exclusivity, or the caller is still asleep after what the others did |
| `Fd.FD.ReadFD` | cmd/run/fd/fd.go:83-93 | Under a reference, ordinary or closing, the value read is the descriptor the object was created with and nothing panics; in general it is the field, and the panic is recorded exactly if the field has been invalidated |
| `SocketRuns.NeverPanics` | cmd/run/socket/socket.go:730-732 | The "already closed" panic, the "untrack" panics and the panics on a temporary socket that should still be open are unreachable |
| `SocketRuns.LastIsUnique` | cmd/run/socket/inode.go:173-200 | At most one Close ever gets last, the list is empty exactly after it, and Closed is only installed by it |
| `SocketRuns.ClosedMeansQuiet` | cmd/run/socket/socket.go:708-739 | When the list is empty no foreground Connect, Bind, Listen or Accept is running or can begin, and no socket can join |
| `SocketRuns.TransitionsAllowed` | cmd/run/socket/socket.go:76-462 | The state pointer moves only Passive to Passive, Connecting or Listening, Connecting to Connected or Passive, and any to Closed; Closed is absorbing |
| `SocketRuns.ClosedAtMostOnce` | cmd/run/socket/socket.go:741-774 | No temporary bind socket is closed twice, however Bind, Connect, its goroutine, Listen and Close race |
| `SocketRuns.OpenTempHasOwner` | cmd/run/socket/socket.go:126-155 | An unclosed temporary socket is referred to by the current state or held by an operation in flight |
| `SocketLeaks.ListedExactly` | cmd/run/socket/socket.go:715-724 | After its Close has returned a socket is on the inode's list if and only if its close(2) failed |
| `SocketLeaks.FailsExactly` | cmd/run/socket/socket.go:715-721 | That history grows exactly by the close(2) calls that fail |
| `SocketLeaks.LeakExactly` | cmd/run/socket/socket.go:708-774 | With every socket closed and every operation over, the inode ends Closed with an empty list if and only if no close(2) failed, and a temporary socket is left open if and only if one did, the current state holds it, and nobody has won ClosingIncRef on it |
| `SocketLeaks.LeakHappens` | cmd/run/socket/socket.go:715-721 | A failed close(2) leaves every socket done and a temporary socket open for good |
| `SocketLeaks.BindBeginsOnOpen` | cmd/run/socket/socket.go:415-428 | A Bind that goes on to bind(2) took its reference while the temporary socket was open and nobody was closing it |
| `SocketLeaks.ClosedUnderBindExactly` | cmd/run/socket/socket.go:560-566 | Between its IncRef and its bind(2) the descriptor is closed under a Bind if and only if a Listen that has won ClosingIncRef on it makes its close(2); a socket the Bind made itself stays open |
| `SocketLeaks.BindOnClosedHappens` | cmd/run/socket/socket.go:425-461 | A run in which that bind(2) is made on a closed descriptor, and one that ends with the inode Passive and bound to the closed socket |
| `SocketLeaks.DoomedExactly` | cmd/run/socket/socket.go:558-571 | The current state comes to hold a temporary socket whose ClosingIncRef was won exactly when a Listen, or the goroutine of a Connect, wins it on the socket the state holds |
| `SocketLeaks.DoomedForever` | cmd/run/socket/socket.go:415-461 | From then on, whatever Bind or failed dial swaps it back in, the inode holds that socket until it is connected, listening or closed, and never another |
| `SocketRuns.FollowsGuard` | cmd/run/socket/socket.go:636-739 | Every step leaves each socket's descriptor guard alone or moves it as the guard allows |
| `Sockets.IndexOf` | cmd/run/socket/inode.go:184-197 | The first position of a socket on the list, or the length if it is not there |
| `Sockets.RemovedKeepsTheRest` | cmd/run/socket/inode.go:184-197 | Swap and truncate removes exactly that socket and keeps the others, once each |
| `Inodes.Inode.Add` | cmd/run/socket/inode.go:166-171 | The socket is appended |
| `Inodes.Inode.Remove` | cmd/run/socket/inode.go:173-200 | The in-place removal loop: last exactly if it was the only one, the panic exactly if it was not there, otherwise swap and truncate |
| `Inodes.InodeTable.Add` | cmd/run/socket/inode.go:221-236 | Registers the inode unless the number is known; panics exactly if another was registered between the two looks |
| `Inodes.World.InstallClosed` | cmd/run/socket/socket.go:726-739 | The last Close's retry loop ends with Closed installed by it, for any interference between load and swap |
| `Backlogs.ReceivesItsOwnProxy` | cmd/run/socket/socket.go:675-684 | The accepter gets the proxy dialled for its very connection; the mismatch panic is unreachable |
| `Backlogs.PairsMeet` | cmd/run/socket/socket.go:621-626 | Once both are past their lookups they are on one channel, their map entry is gone, and neither can block |
| `Backlogs.DispatcherNeverBlocks` | cmd/run/socket/socket.go:616-629 | Each step of a dispatcher can be made, whether or not its accepter ever comes |
| `Backlogs.EntryMeansOneIsMissing` | cmd/run/socket/socket.go:621-625 | An address is in the map if and only if one of an open connection's two parties has looked it up and the entry has not been taken out |
| `Backlogs.SharedAddressBlocks` | cmd/run/socket/socket.go:621-626 | With two open connections from one address a dispatcher does block |
| `Listeners.Listener.LoadOrStore` | cmd/run/socket/socket.go:622-625 | The other's channel if it was first, else one's own, stored |
| `Listeners.Listener.Hand` | cmd/run/socket/socket.go:616-629 | The dispatcher from lookup to send, with any interference: its proxy is on the channel |
| `Listeners.Listener.Meet` | cmd/run/socket/socket.go:675-684 | The accepter from lookup to receive, with any interference: its own proxy, or it waits because the dispatcher has not sent |
| `Blocks.OwnersAreExclusive` | tracer/manager.go:218-261 | No two threads have the same private block, and a private block is neither current nor pooled |
| `Blocks.BlockHasOnePlace` | tracer/manager.go:218-261 | Every block is in exactly one place, also when a recycled block makes a stale compare-and-swap succeed |
| `Blocks.FinalizersNeverOverlap` | tracer/manager.go:223-229 | Two finalizers never work on one block |
| `Blocks.AckedAtMostOnce` | tracer/manager.go:128-182 | Each insert's event is in at most one acknowledged batch over the whole run |
| `Blocks.DroppedIsHandedExactly` | tracer/manager.go:184-204 | An event that a reset dropped was in some batch given to doInsert if and only if a finalizer had frozen it and not both of its attempts ended before doInsert; with a token a finalizer has frozen every event inserted before its block was frozen |
| `Blocks.AckedFinalizationHandedIt` | tracer/manager.go:128-204 | For an event that a finalizer has frozen, an attempt of that finalizer was acknowledged if and only if the event is in an acknowledged batch of that finalizer |
| `Blocks.StepKeepsSealer` | tracer/manager.go:128-143 | The finalizer that froze an event stays the one that did |
| `Blocks.HandsEverything` | tracer/manager.go:128-182 | What a finalizer hands to doInsert is the block's whole contents, in order: all the events appended to it and no others, each frozen by this finalizer |
| `Blocks.FrozenIsConstant` | tracer/manager.go:44-54 | Between freeze and reset no step changes a block's events |
| `Blocks.FrozenInsertRetries` | tracer/manager.go:231-251 | An insert into a frozen block changes no block and goes back to load another |
| `Blocks.SafeEventsAreSealed` | tracer/manager.go:128-143 | With a token, an event inserted before its block was frozen is in a block that is current or being finalized until the reset, and by then a finalizer has frozen it |
| `Blocks.LosesExactly` | tracer/manager.go:184-251 | A step loses an event that no finalizer has frozen if and only if it is the reset of its unfrozen block, the eviction of its pooled block, or its own insert into an evicted block |
| `Blocks.OnlyStaleEventsAreLost` | tracer/manager.go:231-251 | With a token, an event lost in that way was appended through a stale address, and it is in no batch |
| `Blocks.LostEventHappens` | tracer/manager.go:234-235 | A run in which an Insert returns and its event is lost |
| `Blocks.DoubleEarlyHappens` | tracer/manager.go:184-204 | A run in which an event is frozen and dropped without ever being handed over, both attempts having ended early |
| `Managers.EventBlock.Insert` | tracer/manager.go:44-54 | Appends unless the block is frozen, and says which |
| `Managers.EventBlock.Reset` | tracer/manager.go:34-42 | The block is empty, unfrozen and unflushed |
| `Managers.EventBlock.FlushOnce` | tracer/manager.go:128-182 | Freezes the block; a batch sent is all its events; flushed only when it was acknowledged |
| `Managers.EventBlock.Flush` | tracer/manager.go:184-204 | Nothing without a token; otherwise at most two attempts, each with the whole block |
| `Managers.EventBlock.Finalize` | tracer/manager.go:218-229 | The block comes back empty whatever became of the flush |
| `Managers.TryIsInsert` | tracer/manager.go:44-54 | The insert step of the shared state does to a block what the method does |
| `Managers.FreezeAndAnswerIsFlushOnce` | tracer/manager.go:128-182 | So do the freeze and the answer together to what flushOnce does |
| `Managers.Manager.TryInsert` | tracer/manager.go:44-54 | One insert on the loaded block as one step of the shared state |
| `Managers.Manager.GetBlock` | tracer/manager.go:240-242 | The pool's block or a new one becomes the caller's, as one step of the shared state |
| `Managers.Manager.SwapIn` | tracer/manager.go:244-247 | The compare-and-swap, and the goroutine its winner starts on the old block |
| `Managers.Manager.Insert` | tracer/manager.go:231-251 | The insert loop, with any interference in every turn: it returns only with its event appended |
| `Links.CloseIsFinal` | transport/transport.go:128-146 | After any Close call on a link has returned, no handler of it runs and in no continuation of the run does one start |
| `Links.ClosedForever` | transport/transport.go:140-146 | Once closed, the handled events of a link never grow |
| `Links.HandlesASegment` | transport/transport.go:76-89 | The events a link handles are consecutive in dispatch order, each once |
| `Links.OpenLinkMissesNothing` | transport/transport.go:76-89 | While it is open the segment reaches to the last event dispatched to it |
| `Links.OneCloserSignals` | transport/transport.go:128-138 | Only one Close call ever closes the channel |
| `Links.CloseProceeds` | transport/transport.go:128-138 | A waiting Close can go on once the running dispatch is over |
| `Buses.Sinks.Add` | transport/transport.go:35-39 | The link is appended |
| `Buses.Sinks.Remove` | transport/transport.go:41-50 | The in-place loop removes the first occurrence and nothing else |
| `Buses.Bus.CloseLink` | transport/transport.go:128-138 | Close with any interference before each of its steps: closed when it returns, else waiting for the handler |
| `Publishing.AcceptedIsConserved` | tracer/publisher.go:195-253 | Written, then held or lost, then queued messages are the accepted sequence in every reachable state; none is written twice |
| `Publishing.QueuedIsExact` | tracer/publisher.go:195-253 | The counter is the unwritten accepted messages, the lost one included, plus half-done calls, and never negative when it is lowered |
| `Publishing.LostExactly` | tracer/publisher.go:228-245 | An accepted message is neither written, nor in the channel, nor in Loop's hands, if and only if Loop has returned with it; so at most one is lost |
| `Publishing.LosesExactly` | tracer/publisher.go:229-245 | The step reading of `Publishing.LostExactly`: the branch that loses a message is Loop, waiting or dialling after a failed write of it, seeing that the context is over |
| `Publishing.LossIsNeverFlushed` | tracer/publisher.go:255-285 | Once Loop has returned with messages unwritten, lost or in the channel, the counter stays at least one in every continuation: no Flush that has yet to see zero returns true, nothing is written and no second message is lost |
| `Publishing.LossHappens` | tracer/publisher.go:229-234 | A run that loses a message: the context ends after its first write has failed |
| `Publishing.FlushMeansWritten` | tracer/publisher.go:255-285 | When Flush returns true, everything accepted before its second wait has been written |
| `Publishing.MarkIsTakenAtSecondWait` | tracer/publisher.go:274-278 | The step reading of `Publishing.FlushMeansWritten`: the mark it speaks of is the accepted count when the second wait began |
| `Publishing.RejectedIsNeverWritten` | tracer/publisher.go:200-203 | A call that returned the error never has its message accepted or written |
| `Publishing.Publisher.QueueWrite` | tracer/publisher.go:195-204 | The call with any interference: accepted or rejected, the counter right at each step |
| `Publishing.Publisher.WriteOne` | tracer/publisher.go:228-250 | One message through the retry loop, with any interference around every attempt: written once and counted down, or lost because the context is over, or still in Loop's hands |
| `Engine.NotificationsAreConserved` | cmd/run/engine/engine.go:290-358 | Every dispatched notification is in exactly one of: the channel, a pending slot, the failed channel, a drainer, handled, skipped |
| `Engine.PushNeverBlocks` | cmd/run/engine/engine.go:312-317 | A worker about to push to the failed channel finds room, and its push appends its notification |
| `Engine.PushesAtMostOnce` | cmd/run/engine/engine.go:312-317 | A worker past its push never returns to where it could push again |
| `Engine.StartReturnsWithAllHandled` | cmd/run/engine/engine.go:354-358 | If Start has returned there was no panic, nothing was skipped, and every dispatched notification was handled |
| `Engine.PanicKeepsStart` | cmd/run/engine/engine.go:227-268 | After a panic Start has not returned and some worker is stuck draining |
| `Pools.Pool.Take` | cmd/run/engine/engine.go:319-322 | The receive: the head of the channel becomes the worker's, a nil ends its loop |
| `Pools.Pool.Push` | cmd/run/engine/engine.go:312-317 | The deferred push, which never finds the channel full |
| `Pools.Pool.Guard` | cmd/run/engine/engine.go:227-260 | panicGuard with interference: the flag is up and the worker drains |
| `Pools.Pool.Work` | cmd/run/engine/engine.go:305-331 | The worker's loop: all it received is handled, except the last one if it bailed out or panicked |
| `Budgets.BudgetIsConserved` | cmd/run/socket/proxy.go:665-690 | Remaining, reserved and consumed bytes add up to the limit in every interleaving; no wrap-around |
| `Budgets.IdleMeansCharged` | cmd/run/socket/proxy.go:665-690 | With no read under way, what is gone from the budget is what was read |
| `Budgets.StepsDoNotWrap` | cmd/run/socket/proxy.go:676-687 | The reservation and the refund are exact in 64-bit arithmetic, and a short read refunds what it left unread |
| `Websockets.Budget.Reserve` | cmd/run/socket/proxy.go:674-676 | The compare-and-swap takes the reservation off the budget exactly if it is still what was loaded, without wrapping |
| `Websockets.Budget.Refund` | cmd/run/socket/proxy.go:685-687 | The unread part goes back to the budget, without wrapping |
| `Websockets.Budget.Acquire` | cmd/run/socket/proxy.go:668-676 | The load, compare and swap loop under any interference: reserved if the budget it saw was enough, else refused |
| `Websockets.Budget.Fill` | cmd/run/socket/proxy.go:684-689 | The read loop fills the buffer with the next bytes of the stream, or reads it to its end |
| `Websockets.Budget.ReadFull` | cmd/run/socket/proxy.go:665-690 | The bytes taken off the stream are those the last-seen budget allows; undisturbed, the budget goes down by exactly those bytes |
| `Websockets.Budget.ReadFrame` | cmd/run/socket/proxy.go:692-778 | The in-place reader, interleaved with the other, returns the frame of `Frames.ReadFrame` for the budgets it saw and takes exactly its bytes; undisturbed, those are the budgets that count down from its own, and it is charged its bytes |
| `Websockets.Unmask` | cmd/run/socket/proxy.go:757-761 | Unmasking in place is masking with the key |
| `Bytes.XorByteTwice` | cmd/run/socket/proxy.go:757-761 | Exclusive or with the same byte twice gives the byte back |
| `Frames.MaskedTwice` | cmd/run/socket/proxy.go:757-761 | Masking is its own inverse for every payload and key |
| `Frames.ReadsBack` | cmd/run/socket/proxy.go:692-778 | An encoded frame, any length form and key, is read back if and only if it is allowed and the budget is enough; then it is charged its wire length and the rest is left |
| `Frames.ReadsBackAlone` | cmd/run/socket/proxy.go:692-778 | With the budget to itself a reader gets an allowed frame if and only if its wire length is within the budget |
| `Frames.OnlyReadsFrames` | cmd/run/socket/proxy.go:692-778 | Whatever is read successfully is a prefix of the input that encodes an allowed frame |
| `Frames.UsesWhatIsThere` | cmd/run/socket/proxy.go:684-689 | Never more than the stream has is charged; a stream that ends inside a frame is charged whole |
| `Messages.SlideKeepsLast` | cmd/run/socket/proxy.go:838-853 | The three ways of moving the window all leave the last 2^bits bytes of everything decompressed |
| `Messages.RunningMeansCarried` | cmd/run/socket/proxy.go:868-962 | A loop still running has recorded exactly the messages its frames carry by section 5.4, with the right dictionaries |
| `Messages.CarriedMeansRunning` | cmd/run/socket/proxy.go:868-962 | Frames that carry messages which all decompress keep the loop running and are recorded as those messages |
| `Messages.RunningExactly` | cmd/run/socket/proxy.go:868-962 | The loop is running if and only if its frames carry messages that all decompress |
| `Messages.StopsAtTheOffence` | cmd/run/socket/proxy.go:904-958 | A loop that ended did so at the first offending frame, for the reason given, with the messages before it recorded |
| `Recorders.Recorder.AddMessage` | cmd/run/socket/proxy.go:630-654 | Appends the message under its direction, text as text and the rest in base 64 |
| `Recorders.Recorder.Decompress` | cmd/run/socket/proxy.go:790-859 | The data unless corrupt; this direction's window moved on, the other's untouched |
| `Recorders.Recorder.ReadLoop` | cmd/run/socket/proxy.go:868-962 | The loop over frames, while the other direction records too: its direction's messages are those of the specification, in order |
| `Traces.ReadsWhatWasSent` | cmd/run/socket/proxy.go:692-778 | From a stream of encoded frames the reader gets those frames, as many as fit in the budget |
| `Traces.RecordsWhatWasSent` | cmd/run/socket/proxy.go:692-962 | Messages fragmented, masked and interleaved with pings in any way are recorded as they were sent |
| `Varints.ReadsVarint` | etc/subtrace-next/pubsub.ts:629-639 | The bytes of a varint are read to its end, whatever follows |
| `Varints.OnlyReadsVarints` | etc/subtrace-next/pubsub.ts:629-639 | What is read as a varint is one |
| `Wires.SkipsBody` | etc/subtrace-next/pubsub.ts:640-645 | Any well-formed field, groups included, is skipped whole |
| `Wires.SerializesUniquely` | etc/subtrace-next/pubsub.ts:629-645 | Two different lists of well-formed fields never have the same bytes |
| `Decoding.LoopFollows` | etc/subtrace-next/pubsub.ts:629-647 | The decode loop reads well-formed fields to their end and the message is what they mean |
| `Decoding.InsertKeeps` | etc/subtrace-next/pubsub.ts:640-645 | A field that means nothing can be inserted anywhere |
| `Decoding.ReplaceKeeps` | etc/subtrace-next/pubsub.ts:629-645 | A field that makes the same steps can stand for another |
| `PubsubSpec.ReadsEventV1` | etc/subtrace-next/pubsub.ts:775-816 | The decoder of the event reads whatever carries one, nested entries and log included |
| `PubsubSpec.ReadsMessageV1` | etc/subtrace-next/pubsub.ts:1448-1490 | So does the decoder of the message body |
| `PubsubSpec.DecodesWhatCarries` | etc/subtrace-next/pubsub.ts:1382-1408 | decode of anything that carries a message is that message: fields in any order, unknown fields at any level |
| `PubsubSpec.EncodedIsCarried` | etc/subtrace-next/pubsub.ts:1374-1380 | encode writes something that carries the message, in any enumeration order of its tags |
| `PubsubSpec.RoundTrip` | etc/subtrace-next/pubsub.ts:1374-1408 | decode of encode is the message, absent fields absent and empty ones empty |
| `PubsubSpec.IntegersUpToSafe` | etc/subtrace-next/pubsub.ts:1569-1578 | An integer field is read if and only if it is at most MAX_SAFE_INTEGER |
| `PubsubSpec.EncodingsDiffer` | etc/subtrace-next/pubsub.ts:1374-1380 | Different messages never share an encoding |
| `Unknowns.UnknownMeansNothing` | etc/subtrace-next/pubsub.ts:629-645 | For each of the twelve message types, a field whose tag its decode has no case for, be it the number or the wire type, leaves the message exactly as it is |
| `Unknowns.MessageAgrees` | etc/subtrace-next/pubsub.ts:629-645 | With one unknown field more at any depth, the enclosing lengths adjusted, the bytes carry a message if and only if they carried it without |
| `Unknowns.DecodeSkipsUnknown` | etc/subtrace-next/pubsub.ts:1382-1408 | So decode gives the same message with it and without it |
| `PubsubStreams.BinaryReader.Fill` | etc/subtrace-next/pubsub.ts:629-647 | The loop with its reader position: the message and the position of the loop's specification, or failure |
| `PubsubStreams.ReadMessage` | etc/subtrace-next/pubsub.ts:1382-1408 | decode over a reader is the decode that the round trip is about |
| `PubsubStreams.BinaryWriter.WriteMessage` | etc/subtrace-next/pubsub.ts:1374-1380 | The writer with its fork and join appends exactly the encoding that the round trip is about |
| `PubsubStreams.BinaryWriter.WriteEventV1` | etc/subtrace-next/pubsub.ts:757-773 | The same for the event with its tags, payload and log |
| `PubsubStreams.BinaryWriter.WriteTags` | etc/subtrace-next/pubsub.ts:758-761 | The loop over the tags appends an entry for each key in turn |
| `RawProtos.DecodesFields` | tracer/parser.go:100-152 | Decoding succeeds if and only if it is at most 100 deep and the buffer is fields to its last byte; each number then has the value of its last field |
| `RawProtos.TokensOfWires` | tracer/parser.go:104-150 | The encoding of any fields, groups included, is cut into exactly those fields |
| `RawProtos.DecodesWires` | tracer/parser.go:100-152 | Any encoded fields decode, the last of each number kept |
| `RawProtos.DecodeRawProto` | tracer/parser.go:100-152 | The loop with its map and its recursion computes that decoding |
| `Grpc.PartsOfPrefixed` | tracer/parser.go:161-177 | A body of Length-Prefixed-Messages is cut into those messages, in order |
| `Grpc.PrefixedOfParts` | tracer/parser.go:161-177 | A body that is accepted is the concatenation of the messages it yields |
| `Grpc.FramingExactly` | tracer/parser.go:161-177 | The framing is accepted if and only if the buffer is such a concatenation, and the messages are unique |
| `Grpc.EntriesExactly` | tracer/parser.go:178-189 | There is an entry for each message if and only if every uncompressed one is fields to its last byte, and it says what the message is |
| `Grpc.Jsonify` | tracer/parser.go:154-198 | The loop yields the entries of all messages, or gives up if the framing or one of them is bad |
| `Journals.EarlierPosition` | cmd/run/journal/journal.go:72-89 | For an earlier position what a copy shows are the lines since, or the last 4096 of them |
| `Journals.AliasShowsNewLines` | cmd/run/journal/journal.go:84-88 | A slice that is the live array keeps its lines while at most 4096 minus its length are added, and then shows the new ones |
| `Journals.Journal.AddLine` | cmd/run/journal/journal.go:64-70 | The slot of the wrapped index is overwritten and the ring holds the longer history |
| `Journals.Journal.Listen` | cmd/run/journal/journal.go:58-62 | The loop adds line after line |
| `Journals.Journal.CopyFrom` | cmd/run/journal/journal.go:72-89 | For every history and position, in 64-bit arithmetic: the start index and the last lines of the history in order; a fresh slice unless the next slot is slot 0 |
| `Journals.Journal.GetIndex` | cmd/run/journal/journal.go:91-95 | The number of lines ever added, as a 64-bit word |

## Left out

- System calls, TCP, TLS, HTTP, dialling, clocks and remote calls: each is an outcome in a move, or a supply of bytes.
- The semaphore of the runtime is a counter without bound; its hand-off flag is not modelled.
- The reference limit of 2^24 is a bound on the goroutines in `Fd`; the panic above it is modelled, what a process does after a panic is not.
- `socket.go`: the calls are steps of a state machine on values; only `remove`, the inode table and the last Close's retry loop are also methods over mutable fields. Not modelled: the addresses of states and peers, `Errno`, option copying to the temporary socket, and what the accept loop and the proxies do with their connections.
- `Lock` on a temporary bind socket waits in `Sockets` for the references that Bind holds across its calls. The short calls that take one for a single system call are not steps of that model; `Fd` has the general case.
- `Backlogs` assumes that an address is not dialled again while a connection from it is waiting for its accepter, which the kernel guarantees; `Backlogs.SharedAddressBlocks` shows that it is needed.
- `tracer/manager.go`: `initTunnel` and `doInsert` are outcomes, events have numbers in `Blocks` and texts in `Managers`; the background flusher's timing is left out.
- `transport/transport.go`: `bufferedSink` is not modelled, so the results are about the sink a link was given. Its buffering starts with its done channel closed.
- `tracer/publisher.go`: `queueWrite` sends to the default publisher's channel, and `Publishing` assumes that this is the publisher whose `Loop` and `Flush` run. The timers of `Flush` are arbitrary moves. The wait group's counter is a plain counter: its panic when it is raised from zero while a `Wait` is returning is not modelled.
- `engine.go`: the process table, `importInodes`, and what handlers do apart from returning or panicking.
- `newWebsocket` and the time limit of `proxy` in `proxy.go`: the contexts are parameters, and the two read loops are independent up to the shared budget and message list. Message times are left out.
- `Frames.ReadFrame` takes the budget it finds at each check as an argument; `Websockets.Budget.ReadFrame` supplies what the interleaving gives it.
- `PubsubStreams.BinaryReader.Fill` is the loop of every decode; the nested decoders it reaches are functions over the same loop's specification, so their reader is not an object of its own.
- The reader and writer of the protobuf runtime are modelled from the encoding specification: a varint has at most ten bytes, and 32-bit reads keep the low bits.
- Strings are their UTF-8 bytes: lone surrogates, byte order marks and object keys with a meaning of their own in JavaScript are left out. Lengths are below 2^32.
- `fromJSON`, `toJSON`, `fromPartial` and the request messages of `pubsub.ts`, and the same codec for the worker: plain field copies or duplicates.
- `RawProtos`: whether bytes are UTF-8 is a parameter; the library's own limit on nested groups is left out. `Grpc.Jsonify` leaves out the environment variable that turns it off and the JSON text.
- `journal.go`: the scanners that cut lines to 1024 bytes and the channel that drops lines when full.
- `sampler`, HTTP/2, tags, configuration, filters, logging, the command line, devtools and the launchers.
