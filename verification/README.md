# RDMA ring transports, busy-poll cores and message transport: a verified model

This project models the flow-control and completion protocols of rust-rdma-io and
proves what they promise, over whole runs.

* **Ring buffers and trackers.** `RingBuffer`, `CompletionTracker`, the immediate
  encoding, the budget clamp, the slice gather and the setup-send drain, each as an
  imperative class or method proved against a function on absolute positions.
* **Two ring transports.** Each endpoint keeps a log of the work requests it posted,
  with cursors for what the connection has carried out and what each side has
  reaped. A run interleaves, in any order, sends, remote writes, send completions,
  receive completions, hand-outs and releases of both endpoints. The credit ring
  returns absolute freed counts as 32-bit immediates; the read ring publishes its
  head and the sender fetches it by a Read. `CreditTransport` and `ReadTransport`
  are the classes with their loops; `CreditCalls` and `ReadCalls` show that whole
  calls are runs of protocol steps, and `Acceptance` says exactly when a send is
  accepted and what it posts.
* **The byte stream** on top of either ring, with its partial reads, stash and drain
  while a write is blocked; `StreamCalls` shows that its calls are steps of the
  end-to-end system, `StreamWindow` and `StreamLimits` when its order holds.
* **The busy-poll core.** Slots and their inboxes, demultiplexing of a shared
  completion queue by queue-pair number, admission by guards, hand-off and reclaim;
  `CoreReclaim` says what a pass leaves behind, `CoreWake` that no wake-up is lost;
  `BusyRing` runs read-ring connections, core and admission together, and
  `BusyOverrun` counts what its shared queue absorbs.
* **The message transport.** Credit accounting, life cycle with its races between
  application and driver threads, a send request and its waiter, and the work
  scheduler.
* **Completion notification**: the arm, re-poll and drain protocol in both of its
  forms.

Some promises do not hold for everything the code accepts. For each there is a run
that breaks it and the exact condition under which it holds:

* the credit ring with an explicit budget that does not fit the ring
  (`CreditLimits.SafeIffBudgetFits`);
* the read ring's receive window (`ReadOverrun.SafeIffWindowFits`): its comments say
  that the published head alone protects unread data, but arrival numbers share
  `maxOut` tracker slots, so a message held while later ones are released can be
  passed over by the head and overwritten;
* the byte stream itself (`StreamLimits.PrefixIffOrderly`): over a read ring a partly
  read message is held while a blocked write releases later ones, and beyond the
  condition it is read after it was overwritten; the default ring of 65536 bytes with
  messages of 1500 is such a ring;
* the read ring's guarantee that a refused send leaves something to wake the caller
  (`ReadLimits.ParksIff`), which fails when the empty staging ring itself refuses;
* the depth of a core's shared queue (`BusyOverrun.SafeIffOrphansFit`): a setup that
  is abandoned after its handshake is reclaimed without a lease, so its admission
  guard is free again before its requests have been flushed;
* notification with an empty completion buffer (`CqNotify.SafeIffRoom`);
* waking a consumer for a fault (`CoreWake.FaultsAnnounced`): `poll_inbox` looks at its
  inbox again after registering its waker, but not at the fault, so one raised in
  between is missed (`CoreWake.FaultMissed`). Slot and driver are meant to share one
  worker, where nothing comes in between.

Where code and comments disagree the model follows the code.

Every `.dfy` file is one module. Specifications are functions on values; a class
method is proved equal to its function on `Abs()`, and the lemmas are about the
functions.

## Model

| member | source | states |
|---|---|---|
| CreditProtocol.CreditRingSafe | rdma-io/src/credit_ring_transport.rs:688-1264 | In every state of every run of two endpoints whose budget fits the ring, for every interleaving and every release order: neither side is dead, exactly the reaped and unreleased messages are held, each reads back the bytes its sender gathered, credits are conserved, and the send queue and staging ring account for exactly what is outstanding. |
| CreditLimits.SafeIffBudgetFits | rdma-io/src/credit_ring_transport.rs:921-1003 | The exact condition: every held message reads back in every run if and only if `maxOut` messages of the largest size fit the ring together. |
| CreditLimits.OverwritingRun | rdma-io/src/credit_ring_transport.rs:921-1003 | For every configuration over that limit, a run from the start in which a write lands on a message the application still holds. |
| ReadProtocol.ReadRingSafe | rdma-io/src/read_ring_transport.rs:1285-1758 | In every state of every run within the receiver's window: not dead, exactly the reaped and unreleased messages are held and each reads back, the free space a sender computes never exceeds the real one however old its cached head, the published head is the end of the released prefix, and the send queue never overflows. |
| ReadOverrun.SafeIffWindowFits | rdma-io/src/read_ring_transport.rs:1610-1667 | The exact condition, for runs that reap without regard to the window: held messages are never overwritten if and only if no more than `maxOut` messages can occupy the ring at once; the same condition decides whether a receiver ever gives up and whether both directions stay dependable. |
| ReadOverrun.OverwritingRun | rdma-io/src/read_ring_transport.rs:1738-1758 | For every configuration over that limit, a run in which a held message is overwritten while both ends are alive: its receiver releases later messages, and the tracker takes the slot of the held one for released. |
| ReadOverrun.ExhaustingRun | rdma-io/src/read_ring_transport.rs:1643-1656 | For every such configuration, a run in which the receiver runs out of virtual indices and gives the connection up. |
| ReadSender.SoundNext | rdma-io/src/read_ring_transport.rs:1285-1758 | What an endpoint keeps by itself in every step, whatever its peer does and however much it reaps: shape, staging accounting, and the bound on its send queue. |
| ReadSender.QueueWithinBudget | rdma-io/src/read_ring_transport.rs:1390-1412 | The send queue holds the outstanding requests and never more than the message budget and one Read. |
| ReadWindow.AlwaysWindowed | rdma-io/src/read_ring_transport.rs:1390-1457 | With a window that fits, every run is one within the window. |
| StreamLimits.PrefixIffOrderly | rdma-io/src/async_stream.rs:216-602 | End to end, over either ring: in every run of two streams the bytes each side has read are a prefix of the bytes the other side's writes accepted, if and only if the budget of a credit ring fits it, and a read ring has no room for a partly read message beside a full window and one message more. |
| EndToEnd.ReadsArePrefixOfWrites | rdma-io/src/async_stream.rs:216-602 | The safe half, for every run of writes, reads of any buffer size, drains while blocked, end-of-stream and ring activity, without any premise on what is reaped when; and in any other configuration for the runs whose steps stay within bounds. |
| StreamLimits.BreakingRun | rdma-io/src/async_stream.rs:278-340 | For every read ring with that room, a run with both endpoints in use: a reader leaves a message after its first byte, a blocked write releases the messages behind it, and the second byte is read after it was overwritten. The stash stays below the stream's own bound whenever one message can take up the threshold and the ring has room for it twice. |
| StreamLimits.CreditBreakingRun | rdma-io/src/credit_ring_transport.rs:921-1003 | For every credit ring whose budget does not fit it, a run in which a message is overwritten while it waits to be read. |
| StreamWindow.OpenOrGivesUp | rdma-io/src/read_ring_transport.rs:1643-1656 | Why the other read rings are safe: when a stream's receiver would pass its window every unreleased message is a single byte with an index of its own, so it finds no index and gives the connection up instead. |
| CoreProtocol.CoreSafe | rdma-io/src/core_driver.rs:197-470 | In every state of every run of a shared-CQ core: what each connection was handed is exactly its own completions from the first on, in order and each once, and while it is open the rest of what was reaped waits in its inbox; each counter is what the device still owes; a number stays registered while anything is owed; no inbox overflows; resources are freed once and each lease dropped once. |
| CoreProtocol.FreedBehindBarrier | rdma-io/src/core_driver.rs:256-313 | A connection's resources are freed by a reclaim turn alone, while it is closing, and only when the device owes it nothing or its turns are spent. |
| CoreReclaim.TurnSettles | rdma-io/src/core_driver.rs:256-313 | One reclaim pass: a closing connection is freed if and only if the device owes it nothing or its turns are used up, its number is free again if and only if nothing is owed, and otherwise it is kept, one turn older. |
| CoreReclaim.FailureReachesAll | rdma-io/src/core_driver.rs:184-189 | A failure of the shared queue is recorded in every connection that is not drained. |
| CoreWake.NoLostWakeup | rdma-io/src/conn_slot.rs:477-517 | In every run of core and consumer, their steps interleaved in any order: a consumer that was told to wait and has a completion in its inbox has been woken, or the batch under way is about to wake it; between batches it has been woken. |
| CoreWake.WakeArrives | rdma-io/src/core_driver.rs:465-470 | A number noted in a batch is woken after those in front of it. |
| CoreWake.FaultsAnnounced | rdma-io/src/conn_slot.rs:413-418 | A waiting consumer is woken for a fault in every run in which none is raised between the check of a poll and its registration with no earlier waker stored. |
| CoreWake.FaultMissed | rdma-io/src/conn_slot.rs:485-517 | A run in which one is, and the consumer waits with the fault recorded and no wake-up under way. |
| CoreWake.SleepsOn | rdma-io/src/conn_slot.rs:485-517 | After any such fault the consumer sleeps on until the driver wakes it for something else. |
| MessageCredits.CreditsConserved | rdma-io/src/v2/message_transport.rs:1436-1621 | In every state of every run: the sender's permits, the permits it holds, the frames under way, the receiver's owed returns and the returns under way add up to the peer's capacity, in both directions. |
| MessageLifecycle.LifecycleSafe | rdma-io/src/v2/message_transport.rs:880-1138 | In every state of every run of application and driver threads: an error is recorded exactly when the state is failed, readiness needs both HELLOs, each send request is started at most once and owns its buffer exactly until then, and once terminal handling settles no queued request is left unhandled; and whoever closed, finished or failed the transport and has returned left it closed to new events. |
| MessageRequest.OneResult | rdma-io/src/v2/message_transport.rs:717-818 | In every state of every run of starts, completions, polls and a drop of the waiter: the buffer leaves the request at most once, the waiter gets the first result and no other, and a waiter parked beside a result has a wake-up on its way. |
| BusyRing.InboxNeverFull | rdma-io/src/read_ring_transport.rs:581-612 | In every state of every run of read-ring connections on a core, setups, admission and reclaim included: what is posted or queued in either direction is less than the inbox holds, so no overflow fault, and the core serves every connection as promised. |
| BusyOverrun.SafeIffOrphansFit | rdma-io/src/read_ring_transport.rs:927-950 | The exact condition for the shared receive queue: with at most `k` connections at a time that have lost their guard and still have requests under way (setups abandoned after the handshake, reclaims given up) its depth is never overrun if and only if `k * maxOut <= maxOut + 2 * (cap + 1)`. |
| CqNotify.WakeupsSafe | rdma-io/src/v2/completion.rs:103-157 | In every state of every run of either loop with non-empty buffers: a caller parked with a completion in the queue has a notification on the way, and every fetched event is acknowledged or counted. |
| CqNotify.SafeIffRoom | rdma-io/src/v2/completion.rs:103-157 | The exact condition, for either loop: no wake-up is lost in any run whose buffers have at least `m` entries if and only if `m` is positive. |
| RingBuffers.UsedIsSpan | rdma-io/src/transport_common.rs:113-126 | The used and available bytes of the wrapped cursors are those of the absolute positions they stand for. |
| RingBuffers.ReserveRefines | rdma-io/src/transport_common.rs:148-174 | A reservation succeeds if and only if the message fits before the end or after a wrap; the grant is contiguous, is where the absolute position says, and pads to the end exactly when it does not fit before it. |
| RingBuffers.ReleaseRefines | rdma-io/src/transport_common.rs:177-179 | Releasing moves the start of the occupied span by that many bytes and nothing else. |
| RingBuffers.RollbackRestores | rdma-io/src/read_ring_transport.rs:1436-1444 | Undoing a wrapped reservation restores the ring exactly. |
| RingBuffers.GrantInBounds | rdma-io/src/transport_common.rs:148-174 | A grant and its padding lie inside the ring. |
| RingBuffers.EmptyRingReserve | rdma-io/src/transport_common.rs:128-174 | Exactly which lengths an empty ring refuses, and that it never refuses up to half its capacity. |
| RingBuffers.RingBuffer.constructor | rdma-io/src/transport_common.rs:103-111 | A new ring spans nothing. |
| RingBuffers.RingBuffer.Reserve | rdma-io/src/transport_common.rs:148-174 | The method moves the tail as the cursor function says, or changes nothing. |
| RingBuffers.RingBuffer.Release | rdma-io/src/transport_common.rs:177-179 | The method moves the head as the cursor function says. |
| CompletionTrackers.ReleaseRefines | rdma-io/src/transport_common.rs:204-216 | For releases in any order: the head slot is the end of the contiguous released prefix, the flags are exactly the released arrivals beyond it, and the returned count is how far the prefix grew. |
| CompletionTrackers.ReleaseBeyondWindow | rdma-io/src/transport_common.rs:204-216 | A release one full window ahead is taken for the head's own. |
| CompletionTrackers.CompletionTracker.constructor | rdma-io/src/transport_common.rs:193-198 | A new tracker has released nothing. |
| CompletionTrackers.CompletionTracker.Release | rdma-io/src/transport_common.rs:204-216 | The in-place loop computes the tracker function and its count. |
| TransportCommon.ImmRoundTrip | rdma-io/src/transport_common.rs:645-654 | Decoding the 32-bit immediate gives back offset and length if and only if both fit 16 bits. |
| TransportCommon.DefaultBudgetFits | rdma-io/src/transport_common.rs:328-342 | A derived budget, whatever the device limit, always fits the ring; only an explicit one can exceed it. |
| TransportCommon.BudgetFitsDevice | rdma-io/src/transport_common.rs:328-342 | The send and receive queue depths fit a device that has more than the reserve. |
| TransportCommon.BudgetLargest | rdma-io/src/transport_common.rs:328-342 | The budget is the largest that the request, or by default the ring, and the device allow, and one if none is allowed. |
| TransportCommon.GatherInto | rdma-io/src/transport_common.rs:351-364 | Copies the longest prefix of the concatenated slices that fits, leaving every other byte alone. |
| SetupDrain.DrainSetupSends | rdma-io/src/transport_common.rs:516-553 | Succeeds exactly when each expected id has completed once; otherwise reports the first failed, unknown or repeated completion, or a timeout with some still missing. |
| SetupDrain.CheckBatch | rdma-io/src/transport_common.rs:526-550 | One batch: the clean completions are recorded and the first faulty one ends it with its own error. |
| SetupDrain.CleanIsAll | rdma-io/src/transport_common.rs:516-553 | As many clean completions as there are distinct expected ids are those ids. |
| SetupDrain.CleanWithin | rdma-io/src/transport_common.rs:516-553 | Clean completions never outnumber the expected ids. |
| SendSide.UsedIsOutstanding | rdma-io/src/credit_ring_transport.rs:942-995 | The staging bytes in use are those of the messages whose completion was not reaped, padding included. |
| SendSide.ReservationDisjoint | rdma-io/src/credit_ring_transport.rs:942-962 | A granted range never overlaps a message still staged. |
| SendSide.GrantPlaced | rdma-io/src/credit_ring_transport.rs:942-962 | A grant starts where the mirror of the peer's write position says, padding included. |
| SendSide.PostPlaces | rdma-io/src/credit_ring_transport.rs:942-1003 | A posted message and its padding are placed back to back in absolute positions. |
| SendSide.PostKeeps | rdma-io/src/credit_ring_transport.rs:942-1003 | Posting keeps accounting, placement and staged contents. |
| SendSide.CompleteKeeps | rdma-io/src/credit_ring_transport.rs:813-848 | Reaping a completion releases exactly the bytes its work request encodes. |
| RecvSide.AllReadsBack | rdma-io/src/credit_ring_transport.rs:1221-1225 | Under the receiver invariant every held message reads back what was gathered. |
| RecvSide.SomeFree | rdma-io/src/credit_ring_transport.rs:1127-1146 | While fewer than `k` arrivals are unreleased, some virtual index is free. |
| RecvSide.FindFreeComplete | rdma-io/src/credit_ring_transport.rs:1127-1141 | The circular search finds a free index whenever there is one. |
| RecvSide.LandKeeps | rdma-io/src/credit_ring_transport.rs:891-1003 | A write within a lap of the released prefix changes no byte of a held message. |
| RecvSide.ArriveDataKeeps | rdma-io/src/credit_ring_transport.rs:1120-1172 | Mapping an arrival succeeds and keeps the receiver invariant. |
| RecvSide.ArrivePadKeeps | rdma-io/src/credit_ring_transport.rs:1094-1118 | Padding takes an arrival number, is released at once, and keeps the invariant. |
| RecvSide.RepostKeeps | rdma-io/src/credit_ring_transport.rs:1227-1264 | Releasing in any order keeps the invariant, and the released prefix is what the tracker says. |
| RecvSide.TakeKeeps | rdma-io/src/credit_ring_transport.rs:1042-1056 | Handing out queued messages keeps the invariant. |
| RecvSide.HandsOutInOrder | rdma-io/src/credit_ring_transport.rs:1035-1219 | The queue holds the data messages in send order, with their lengths. |
| RecvSide.QueuedOnce | rdma-io/src/credit_ring_transport.rs:1035-1219 | No index is queued twice. |
| Halves.TotalLen | rdma-io/src/credit_ring_transport.rs:896-900 | The total of the slices is the length of their concatenation. |
| Halves.SendHalf.Reserve | rdma-io/src/transport_common.rs:148-174 | Reserves in place as the ring function says, inside the buffer. |
| Halves.SendHalf.Rollback | rdma-io/src/read_ring_transport.rs:1438-1444 | Gives a wrapped reservation back. |
| Halves.SendHalf.Append | rdma-io/src/credit_ring_transport.rs:790-811 | Posts one control request behind the others. |
| Halves.SendHalf.Post | rdma-io/src/credit_ring_transport.rs:942-1003 | Posts padding when there is some, then the gathered message; the whole new sender state. |
| Halves.SendHalf.PostData | rdma-io/src/credit_ring_transport.rs:962-995 | Gathers, encodes and posts the message, and moves the mirror. |
| Halves.RecvHalf.FindVirtIdx | rdma-io/src/credit_ring_transport.rs:1127-1141 | The loop finds the first free index from the cursor, or none. |
| Halves.RecvHalf.MapArrival | rdma-io/src/credit_ring_transport.rs:1127-1172 | Maps an arrival under the next number, or reports exhaustion and changes nothing. |
| Halves.RecvHalf.ReapPad | rdma-io/src/credit_ring_transport.rs:1094-1118 | Padding passes through the tracker in place. |
| Halves.RecvHalf.Unmap | rdma-io/src/credit_ring_transport.rs:1227-1240 | Unmaps an index and releases its arrival number. |
| Halves.RecvHalf.RecvBuf | rdma-io/src/credit_ring_transport.rs:1221-1225 | The bytes of a held message. |
| CreditProtocol.CreditAccepted | rdma-io/src/credit_ring_transport.rs:1175-1198 | Every credit update that arrives has a positive wrapped difference of at most the budget, so it is applied and never dropped, and adds exactly the newly freed messages. |
| CreditProtocol.WrappedDelta | rdma-io/src/credit_ring_transport.rs:1175-1186 | The 32-bit wrapped difference of two totals is their true difference. |
| CreditProtocol.NextArrivalFits | rdma-io/src/credit_ring_transport.rs:1127-1146 | The next message to reap finds a free index and tracker slot. |
| CreditProtocol.NextWriteFits | rdma-io/src/credit_ring_transport.rs:921-1003 | With a budget that fits, the next write is within a lap of the released prefix. |
| CreditProtocol.WithinBudget | rdma-io/src/credit_ring_transport.rs:905-918 | At most `maxOut` messages are ever sent beyond the released prefix, and no more is acknowledged than was released. |
| CreditProtocol.GrantedWithinBound | rdma-io/src/credit_ring_transport.rs:925-945 | What is sent is positive, bounded, and no more than was offered. |
| CreditProtocol.SendKeeps | rdma-io/src/credit_ring_transport.rs:891-1003 | A send, refused or not, keeps the invariant of both directions. |
| CreditProtocol.ExecuteKeeps | rdma-io/src/credit_ring_transport.rs:962-995 | A write that lands keeps it. |
| CreditProtocol.SendDoneKeeps | rdma-io/src/credit_ring_transport.rs:813-848 | Reaping a send completion keeps it. |
| CreditProtocol.FlushKeeps | rdma-io/src/credit_ring_transport.rs:790-811 | Announcing the freed total, or not being able to, keeps it. |
| CreditProtocol.RecvDataKeeps | rdma-io/src/credit_ring_transport.rs:1120-1172 | Reaping a message keeps it. |
| CreditProtocol.RecvPadKeeps | rdma-io/src/credit_ring_transport.rs:1094-1118 | Reaping padding, with the credit it frees, keeps it. |
| CreditProtocol.RecvCreditKeeps | rdma-io/src/credit_ring_transport.rs:1175-1198 | Applying a credit update keeps it. |
| CreditProtocol.RepostStepKeeps | rdma-io/src/credit_ring_transport.rs:1227-1264 | Releasing a message, with the credit it frees, keeps it. |
| CreditProtocol.NextKeeps | rdma-io/src/credit_ring_transport.rs:688-1264 | Every step whose write is within a lap keeps the invariant. |
| CreditProtocol.RunInv | rdma-io/src/credit_ring_transport.rs:688-1264 | The invariant holds in every state of every run of a budget that fits. |
| CreditProtocol.ReapIsDrain | rdma-io/src/credit_ring_transport.rs:688-788 | On what a peer really sends, the opportunistic drain and the receive poll do the same. |
| CreditProtocol.ExecuteEnabled | rdma-io/src/credit_ring_transport.rs:962-995 | The connection can always carry out the next request. |
| CreditTransport.CreditRingTransport.constructor | rdma-io/src/credit_ring_transport.rs:609-674 | A new endpoint has the full budget of credits and nothing outstanding. |
| CreditTransport.CreditRingTransport.FlushCredits | rdma-io/src/credit_ring_transport.rs:790-811 | Announces the freed total when something is unannounced and the send queue has room; the whole new state. |
| CreditTransport.CreditRingTransport.AddFreed | rdma-io/src/credit_ring_transport.rs:1243-1264 | Adds freed messages to the total and announces it. |
| CreditTransport.CreditRingTransport.ApplyCredit | rdma-io/src/credit_ring_transport.rs:1175-1198 | Applies or drops one update. |
| CreditTransport.CreditRingTransport.ReapPad | rdma-io/src/credit_ring_transport.rs:1094-1118 | Padding is released at once and its credit announced. |
| CreditTransport.CreditRingTransport.ReapRecvOne | rdma-io/src/credit_ring_transport.rs:1070-1206 | One completion of the receive poll: it fails exactly on a failed completion and on a message outside the ring or without a free index, and yields a message exactly for data. |
| CreditTransport.CreditRingTransport.DrainRecvOne | rdma-io/src/credit_ring_transport.rs:700-786 | One completion of the drain before a send. |
| CreditTransport.CreditRingTransport.DrainRecvCredits | rdma-io/src/credit_ring_transport.rs:688-788 | The drain consumes completions in order up to and including a failed one. |
| CreditTransport.CreditRingTransport.ProcessSendCompletions | rdma-io/src/credit_ring_transport.rs:813-848 | Releases the staging bytes of each completion in order and stops at a failed one. |
| CreditTransport.CreditRingTransport.DrainSendCq | rdma-io/src/credit_ring_transport.rs:850-861 | The batch loop reaps the whole queue, or stops at its first failure. |
| CreditTransport.CreditRingTransport.PollSendCompletion | rdma-io/src/credit_ring_transport.rs:1008-1025 | Reaps, then announces credits unless a completion failed. |
| CreditTransport.CreditRingTransport.SendGather | rdma-io/src/credit_ring_transport.rs:891-1003 | The whole call: drain credits, admission, reservation with rollback, padding, message; new state and result, which `Acceptance.CreditCallIff` characterises. |
| CreditTransport.CreditRingTransport.AdmitSend | rdma-io/src/credit_ring_transport.rs:905-1003 | The part of a send after the credit check; `Acceptance.CreditSendIff` says exactly when it accepts. |
| CreditTransport.CreditRingTransport.ReapBatches | rdma-io/src/credit_ring_transport.rs:1058-1219 | The receive loop: it polls one batch if something was queued, otherwise up to the first that brings data or a credit update, or all; it is ready exactly then, fails exactly at the first faulty completion, and consumes exactly what it polled. |
| CreditTransport.CreditRingTransport.PollRecv | rdma-io/src/credit_ring_transport.rs:1035-1219 | The whole call: what was queued first, send completions up to a failure, credits, then batches as the loop does; the caller gets the first `room` of the queue followed by the messages reaped. |
| CreditTransport.PollQueues | rdma-io/src/credit_ring_transport.rs:1035-1219 | Without a fault, what `poll_recv` leaves and returns is the queue it found and then exactly the messages among the completions it consumed, in order. |
| CreditTransport.ReapTakes | rdma-io/src/credit_ring_transport.rs:1070-1206 | A faulty completion ends the connection and does nothing else; any other queues what it brings, last. |
| CreditTransport.CleanQueues | rdma-io/src/credit_ring_transport.rs:1058-1206 | Completions without a fault queue exactly their messages, in order, and leave the connection open. |
| Acceptance.CreditSendIff | rdma-io/src/credit_ring_transport.rs:891-1003 | Exactly when `send_gather` accepts: a credit and two free places in the send queue, and the message fits the staging ring directly, or after a gap with a second credit; how much, at which position, what is posted and spent; otherwise it takes nothing and changes nothing. |
| Acceptance.CreditCallIff | rdma-io/src/credit_ring_transport.rs:891-1003 | The same for the whole call with its inline drain, in every state of the invariant. |
| CreditCalls.CallsAnnounce | rdma-io/src/credit_ring_transport.rs:790-811 | Every send and every release leaves all freed credits announced, unless the send queue has no room for the update. |
| CreditCalls.PollsAnnounce | rdma-io/src/credit_ring_transport.rs:790-811 | So does every call that reaps send completions without a failure, whatever it found announced. |
| CreditTransport.CreditRingTransport.RepostRecv | rdma-io/src/credit_ring_transport.rs:1227-1264 | Unmaps, releases and announces. |
| CreditCalls.ReapAllKeeps | rdma-io/src/credit_ring_transport.rs:1058-1206 | Reaping any prefix of what the peer has sent keeps the protocol invariant, in the poll and in the drain. |
| CreditCalls.ReapSendsKeeps | rdma-io/src/credit_ring_transport.rs:813-861 | Reaping any prefix of the send completions keeps it. |
| CreditCalls.SendCallKeeps | rdma-io/src/credit_ring_transport.rs:891-1003 | The whole send call keeps it. |
| CreditCalls.PollCallKeeps | rdma-io/src/credit_ring_transport.rs:1035-1219 | The whole receive call keeps it. |
| ReadProtocol.FreeIs | rdma-io/src/read_ring_transport.rs:1285-1293 | The free space computed from wrapped offsets is the absolute distance to the head last read. |
| ReadProtocol.FreeIsSafe | rdma-io/src/read_ring_transport.rs:1285-1293 | It never exceeds what is really free at the peer. |
| ReadProtocol.NextWriteFits | rdma-io/src/read_ring_transport.rs:1390-1457 | The next write is within a lap of the released prefix. |
| ReadProtocol.HeadStep | rdma-io/src/read_ring_transport.rs:1322-1332 | The length noted in the head's slot is the extent of the next message. |
| ReadProtocol.AdvanceRefines | rdma-io/src/read_ring_transport.rs:1322-1332 | Advancing over released slots lands on the absolute end of the released prefix, modulo the capacity. |
| ReadProtocol.SendKeeps | rdma-io/src/read_ring_transport.rs:1346-1515 | A send, refused or not, with or without a Read, keeps the invariant of both directions. |
| ReadProtocol.ExecuteKeeps | rdma-io/src/read_ring_transport.rs:1304-1314 | A write that lands, or a Read that fetches the head, keeps it. |
| ReadProtocol.SendDoneKeeps | rdma-io/src/read_ring_transport.rs:1518-1568 | Reaping a completion, the Read's included, keeps it. |
| ReadProtocol.RecvKeeps | rdma-io/src/read_ring_transport.rs:1610-1700 | Reaping a message or padding within the window keeps it. |
| ReadProtocol.RepostStepKeeps | rdma-io/src/read_ring_transport.rs:1738-1758 | Releasing a message keeps it. |
| ReadProtocol.NextKeeps | rdma-io/src/read_ring_transport.rs:1285-1758 | Every step within the window keeps the invariant. |
| ReadProtocol.RunInv | rdma-io/src/read_ring_transport.rs:1285-1758 | The invariant holds in every state of every run within the window. |
| ReadTransport.ReadRingTransport.constructor | rdma-io/src/read_ring_transport.rs:1206-1283 | A new endpoint has a free peer ring and nothing outstanding. |
| ReadTransport.ReadRingTransport.RemoteFreeSpace | rdma-io/src/read_ring_transport.rs:1285-1293 | The free space of the abstract state. |
| ReadTransport.ReadRingTransport.PostOffsetRead | rdma-io/src/read_ring_transport.rs:1304-1314 | Posts the head Read unless one is outstanding. |
| ReadTransport.ReadRingTransport.AdvanceRecvHead | rdma-io/src/read_ring_transport.rs:1322-1332 | Moves the head over the released slots and publishes it. |
| ReadTransport.ReadRingTransport.ReleaseLengths | rdma-io/src/read_ring_transport.rs:1322-1328 | The loop sums the noted lengths modulo the capacity. |
| ReadTransport.ReadRingTransport.SendGather | rdma-io/src/read_ring_transport.rs:1346-1515 | The whole call, refusals and rollback included; new state and result, which `Acceptance.ReadSendIff` characterises. |
| ReadTransport.ReadRingTransport.ReserveAndPost | rdma-io/src/read_ring_transport.rs:1431-1515 | Reservation, the check for padding and message together, rollback, post. |
| ReadTransport.ReadRingTransport.PostMessage | rdma-io/src/read_ring_transport.rs:1457-1504 | Padding, message, and the proactive Read when space runs low. |
| ReadTransport.ReadRingTransport.PollSendCompletion | rdma-io/src/read_ring_transport.rs:1518-1568 | Reaps in order, stops at the first failure, refreshes the cached head from the Read. |
| ReadTransport.ReadRingTransport.ReapPad | rdma-io/src/read_ring_transport.rs:1621-1640 | Padding is noted, released at once and may move the head. |
| ReadTransport.ReadRingTransport.ReapData | rdma-io/src/read_ring_transport.rs:1643-1700 | A message is noted and mapped, or the map is exhausted. |
| ReadTransport.ReadRingTransport.ReapRecvOne | rdma-io/src/read_ring_transport.rs:1600-1706 | One completion of the receive loop: it fails exactly on a failed completion and on a message outside the ring or without a free index, and yields a message exactly for data. |
| ReadTransport.ReadRingTransport.ReapBatches | rdma-io/src/read_ring_transport.rs:1604-1729 | The receive loop: it polls one batch if something was queued, otherwise up to the first that brings data, or all; it is ready exactly then, fails exactly at the first faulty completion, and consumes exactly what it polled. |
| ReadTransport.ReadRingTransport.PollRecv | rdma-io/src/read_ring_transport.rs:1578-1730 | The whole call: the caller gets the first `room` of the queue followed by the messages reaped, from batches as the loop polls them. |
| ReadTransport.ReapTakes | rdma-io/src/read_ring_transport.rs:1600-1706 | A faulty completion ends the connection and does nothing else; any other queues what it brings, last. |
| ReadTransport.CleanQueues | rdma-io/src/read_ring_transport.rs:1604-1706 | Completions without a fault queue exactly their messages, in order, and leave the connection open. |
| Acceptance.ReadSendIff | rdma-io/src/read_ring_transport.rs:1346-1515 | Exactly when `send_gather` accepts: the message budget has room, the peer has the message and the threshold free, and it fits the staging ring directly, or after a gap the peer has free as well; how much, where, what is posted and whether a Read follows; a refusal changes nothing but to ask for the head, and says when it asks. |
| Acceptance.FreeIs | rdma-io/src/read_ring_transport.rs:1285-1293 | The free space computed in wrapping arithmetic is all of the peer's ring but one byte and what lies between cached head and tail. |
| Acceptance.FreeFromSeen | rdma-io/src/read_ring_transport.rs:1285-1293 | In every state of the two-endpoint invariant that is the space between the tail and the head the sender has seen, a lap on, in absolute positions. |
| ReadTransport.ReadRingTransport.RepostRecv | rdma-io/src/read_ring_transport.rs:1738-1758 | Unmaps, releases, and advances the head. |
| ReadCalls.ReapAllKeeps | rdma-io/src/read_ring_transport.rs:1578-1730 | Reaping any prefix of what the peer has sent, within the window, keeps the protocol invariant. |
| ReadCalls.ReapSendsKeeps | rdma-io/src/read_ring_transport.rs:1518-1568 | Reaping any prefix of the send completions keeps it. |
| ReadLimits.SilentIff | rdma-io/src/read_ring_transport.rs:1346-1436 | Exactly when a send is refused with no work request left whose completion could wake the caller, by what the sender keeps in every run. |
| ReadLimits.NeverSilent | rdma-io/src/read_ring_transport.rs:1346-1457 | With messages of at most half the ring it never happens, whatever is reaped and whenever. |
| ReadLimits.ParksIff | rdma-io/src/read_ring_transport.rs:1346-1457 | The configurations under which some run reaches such a refusal, exactly; runs within the receiver's window are enough to reach it, and runs beyond it reach no more. |
| ReadLimits.ParkRun | rdma-io/src/read_ring_transport.rs:1431-1436 | For each of them, such a run. |
| ReadLimits.ParkNeeds | rdma-io/src/read_ring_transport.rs:1431-1436 | A silent refusal implies such a configuration. |
| StreamSpec.ReadKeeps | rdma-io/src/async_stream.rs:516-602 | A read hands over exactly the next bytes in send order and advances past them. |
| StreamSpec.DrainKeeps | rdma-io/src/async_stream.rs:182-188 | Stashing a message while blocked keeps the order of what is still unread. |
| StreamSpec.QuietKeeps | rdma-io/src/async_stream.rs:216-369 | What the ring does meanwhile neither adds to, drops from nor reorders the unread bytes. |
| StreamSpec.FifoPrefix | rdma-io/src/async_stream.rs:516-602 | Under the order invariant, what was read is a prefix of what was sent. |
| EndToEnd.ReadStepKeeps | rdma-io/src/async_stream.rs:516-602 | Reads keep the link between both sides. |
| EndToEnd.DrainStepKeeps | rdma-io/src/async_stream.rs:278-340 | Drains keep it. |
| EndToEnd.NextKeeps | rdma-io/src/async_stream.rs:216-602 | Every step of stream or ring within bounds keeps it. |
| EndToEnd.RingKeeps | rdma-io/src/read_ring_transport.rs:1285-1758 | Every step of either ring that neither writes over what is held nor reaps beyond the window keeps the ring's own invariant. |
| AsyncStream.RingQueueOk | rdma-io/src/async_stream.rs:516-602 | The receive queue of a ring in use is one the stream may drain: distinct, mapped, readable indices. |
| StreamCalls.ReadIsStep | rdma-io/src/async_stream.rs:516-602 | A read that returns is a read step of the end-to-end system, whatever the ring. |
| StreamCalls.DrainsAreSteps | rdma-io/src/async_stream.rs:278-340 | What a blocked write drains is that many drain steps of the system; nothing read or accepted changes. |
| StreamCalls.WriteReports | rdma-io/src/async_stream.rs:216-369 | A write call, whatever the rings and the peer do meanwhile, reports exactly the bytes the ring accepted; they are the first of those presented and are accepted once. |
| AsyncStream.ReadBuf.PutSlice | rdma-io/src/async_stream.rs:431-504 | Appends to the filled part and nothing else. |
| AsyncStream.AsyncRdmaStream.NextBytes | rdma-io/src/async_stream.rs:516-602 | The read loop: held message, then stash, then ring; releases a message when its last byte is read; end of stream only when nothing is left. |
| AsyncStream.AsyncRdmaStream.PollRead | rdma-io/src/async_stream.rs:516-602 | The caller's buffer gets exactly those bytes. |
| AsyncStream.AsyncRdmaStream.PollReadTokio | rdma-io/src/async_stream.rs:431-504 | The same, appended to a partly filled buffer. |
| AsyncStream.AsyncRdmaStream.StashAndRepost | rdma-io/src/async_stream.rs:182-188 | Copies a message behind the stash and releases it. |
| AsyncStream.AsyncRdmaStream.DrainBatch | rdma-io/src/async_stream.rs:290-325 | Stashes up to a batch, in order. |
| AsyncStream.AsyncRdmaStream.DrainWhileBlocked | rdma-io/src/async_stream.rs:278-340 | Stashes until the queue is empty or the cap is reached. |
| AsyncStream.AsyncRdmaStream.WriteTurns | rdma-io/src/async_stream.rs:240-369 | The write loop and its outcome. |
| AsyncStream.WriteLoopDecides | rdma-io/src/async_stream.rs:240-369 | The loop goes round exactly while nothing is sent and something is reaped; it is pending only if nothing was sent, nothing is left to reap and the peer is there, and ends the stream exactly on a broken pipe or a failed reap. |
| AsyncStream.AsyncRdmaStream.PollWriteBufs | rdma-io/src/async_stream.rs:216-369 | The whole write call: broken-pipe conditions, the blocked flag, the outcome, and what was drained meanwhile. |
| ConnSlots.Inbox.constructor | rdma-io/src/conn_slot.rs:173-187 | A new inbox is empty. |
| ConnSlots.Inbox.Push | rdma-io/src/conn_slot.rs:189-206 | Appends, or refuses exactly when full. |
| ConnSlots.Inbox.Drain | rdma-io/src/conn_slot.rs:208-226 | Removes the longest prefix that fits, in order. |
| ConnSlots.ConnSlot.constructor | rdma-io/src/conn_slot.rs:291-307 | A new slot is connecting, healthy and empty. |
| ConnSlots.ConnSlot.IncPosted | rdma-io/src/conn_slot.rs:369-376 | One more outstanding on that direction, nothing else. |
| ConnSlots.ConnSlot.DecPosted | rdma-io/src/conn_slot.rs:378-389 | One fewer on that direction, nothing else. |
| ConnSlots.ConnSlot.MarkFatal | rdma-io/src/conn_slot.rs:413-420 | Only the first fault is kept. |
| ConnSlots.ConnSlot.Deliver | rdma-io/src/conn_slot.rs:345-350 | Queues a completion, or marks an overflow fault. |
| ConnSlots.ConnSlot.DrainComplete | rdma-io/src/conn_slot.rs:439-446 | The drain barrier of both directions. |
| ConnSlots.ConnSlot.PollInbox | rdma-io/src/conn_slot.rs:485-520 | A fault comes first; otherwise as many completions as fit, in order; waiting changes nothing. |
| ConnSlots.ConnSlot.Discard | rdma-io/src/core_driver.rs:256-290 | Empties both inboxes. |
| ConnSlots.ConnSlot.Retire | rdma-io/src/conn_slot.rs:456-471 | After the barrier, only the generation changes. |
| ConnSlots.ConnSlot.Abandon | rdma-io/src/conn_slot.rs:473-483 | Without the barrier, only the generation changes. |
| CoreDrivers.CoreDriver.constructor | rdma-io/src/core_driver.rs:112-141 | A new core has no slots and nothing to reclaim. |
| CoreDrivers.CoreDriver.RouteCompletion | rdma-io/src/core_driver.rs:415-468 | One completion: counted as unknown, discarded with its counter taken down, or delivered to the slot of its queue pair. |
| CoreDrivers.CoreDriver.RouteInto | rdma-io/src/core_driver.rs:415-470 | A whole sweep; the numbers woken are exactly those under which a completion of the batch went into an inbox, each once. |
| CoreDrivers.CoreDriver.Register | rdma-io/src/core_driver.rs:338-353 | Refuses a number that is still taken, changing nothing; otherwise adds the slot. |
| CoreDrivers.CoreDriver.Reclaim | rdma-io/src/core_driver.rs:369-396 | Hand-off: the slot is closing and queued, still registered. |
| CoreDrivers.CoreDriver.ReclaimEntry | rdma-io/src/core_driver.rs:256-313 | One entry of a pass: kept unless drained or over budget; when it leaves it is unregistered, freed and its lease dropped. |
| CoreDrivers.CoreDriver.ProcessReclaim | rdma-io/src/core_driver.rs:256-313 | The whole pass over the queue. |
| CoreProtocol.RoutedToOwn | rdma-io/src/core_driver.rs:415-468 | The completion at the front of the shared queue belongs to the slot registered for its number and is that connection's next. |
| CoreProtocol.UnregisteredIsSilent | rdma-io/src/core_driver.rs:256-313 | A connection that is no longer registered has nothing outstanding and nothing in the queue, so its number can be used again. |
| CoreProtocol.NextKeeps | rdma-io/src/core_driver.rs:197-470 | Every step of posting, completing, sweeping, polling, closing, failing and reclaiming keeps the core invariant. |
| CoreProtocol.RunInv | rdma-io/src/core_driver.rs:197-470 | It holds in every state of every run. |
| CoreProtocol.PollsOwnNext | rdma-io/src/conn_slot.rs:485-520 | A poll returns the connection's own next completions, numbered without a gap. |
| CoreProtocol.ReclaimEnds | rdma-io/src/core_driver.rs:197-313 | Without new hand-offs the reclaim queue is empty after as many passes as the turn budget, even if the device is wedged. |
| CoreProtocol.AllDrained | rdma-io/src/core_driver.rs:206-250 | With the reclaim queue empty and every connection closed, all are drained. |
| CoreProtocol.CqWithinBudget | rdma-io-busy/src/lib.rs:144-170 | A shared queue never holds more than the budgets of the connections not yet retired and of those given up with work outstanding. |
| BusyPools.GuardsWithinCap | rdma-io-busy/src/lib.rs:219-236 | For every interleaving of optimistic increments, undos and drops: never more guards than the cap, and the counter is guards plus attempts in progress. |
| BusyPools.ScanIff | rdma-io-busy/src/lib.rs:219-236 | The round-robin scan finds a core if and only if some core is below its cap. |
| BusyPools.BusyPool.constructor | rdma-io-busy/src/lib.rs:172-194 | A new pool has admitted nobody. |
| BusyPools.BusyPool.TryAdmit | rdma-io-busy/src/lib.rs:219-236 | Refuses if and only if every core is full; otherwise exactly the first core with room from the cursor goes up by one. |
| BusyPools.BusyPool.Release | rdma-io-busy/src/lib.rs:104-108 | Exactly that core goes down by one. |
| BusyPools.DepthCovers | rdma-io-busy/src/lib.rs:144-170 | The chosen depth covers every admitted connection with one more to spare. |
| BusyRing.SharedCqNeverOverruns | rdma-io-busy/src/lib.rs:144-170 | In every run, while at most one connection without a guard still has requests under way, neither shared queue exceeds the depth chosen for it. |
| BusyRing.CqWithinAdmission | rdma-io-busy/src/lib.rs:255-275 | A shared queue holds no more than the budgets of the admitted connections and of those that have lost their guard: abandoned setups and reclaims given up. |
| BusyRing.RecvWithinAdmission | rdma-io/src/read_ring_transport.rs:1610-1706 | The receive queue holds no more than the doorbells of those connections. |
| BusyRing.NoOrphans | rdma-io/src/read_ring_transport.rs:927-950 | A run that abandons no setup never has one without its guard. |
| BusyOverrun.CrowdedRun | rdma-io/src/read_ring_transport.rs:927-950 | That bound is reached: for every number of abandoned setups a run in which all those doorbells have completed and none is swept. |
| BusyRing.Outstanding | rdma-io/src/read_ring_transport.rs:210-229 | Requests issued and not yet polled stay below the connection's budget, during setup and after. |
| BusyRing.OursCounts | rdma-io/src/read_ring_transport.rs:1346-1706 | Each step of a ring posts what its own log and doorbells say, within the inbox, and keeps its counters tied to the core's. |
| BusyRing.NextKeeps | rdma-io/src/core_driver.rs:197-470 | Every step of admission, setup, ring, peer, device and driver keeps the joint invariant. |
| MessageCredits.CreditAccepted | rdma-io/src/v2/message_transport.rs:524-551 | Every credit return that arrives in a conforming run passes both checks, and the second can never fail. |
| MessageCredits.StepInv | rdma-io/src/v2/message_transport.rs:1436-1621 | Every step keeps the conservation invariant of both directions. |
| MessageCredits.ClaimPendingCreditReturns | rdma-io/src/v2/message_transport.rs:553-570 | The retry loop claims all that is pending up to the 32-bit maximum and leaves the rest; what it claims is what it last saw. |
| MessageCredits.EngineMessageState.CommitSend | rdma-io/src/v2/message_transport.rs:1463-1512 | A submitted send spends its permit and counts it in flight at once; only the transition may wait for its receipt. |
| MessageCredits.EngineMessageState.RollbackUnacceptedSend | rdma-io/src/v2/message_transport.rs:1541-1554 | An unaccepted send gives the credit back exactly once. |
| MessageCredits.EngineMessageState.ValidateAndAddCredits | rdma-io/src/v2/message_transport.rs:1556-1575 | Adds credits exactly when the check accepts, otherwise changes nothing. |
| MessageCredits.EngineMessageState.FlushOneCredit | rdma-io/src/v2/message_transport.rs:1577-1621 | Claims and submits the pending returns. |
| MessageCredits.EngineMessageState.ApplyReceipt | rdma-io/src/v2/message_transport.rs:1213-1265 | Receipts settle pending transitions in order. |
| MessageLifecycle.TerminalAbsorbs | rdma-io/src/v2/message_transport.rs:501-513 | A terminal state never changes, a closed one never reopens, readiness is reached only from created with both HELLOs, and a drained queue stays empty. |
| MessageLifecycle.StaysTerminal | rdma-io/src/v2/message_transport.rs:501-513 | The same over any stretch of a run. |
| MessageLifecycle.NextKeeps | rdma-io/src/v2/message_transport.rs:949-1138 | Every step of every thread keeps the lifecycle invariant. |
| MessageLifecycle.RunInv | rdma-io/src/v2/message_transport.rs:949-1138 | It holds in every state of every run. |
| MessageLifecycle.TransitionTerminal | rdma-io/src/v2/message_transport.rs:501-513 | The exchange loop wins if and only if the value it settled on was not terminal. |
| MessageRequest.LookFinds | rdma-io/src/v2/message_transport.rs:788-806 | Once anything has completed, the next look of the waiter has the first result. |
| MessageRequest.CancelledIsReturned | rdma-io/src/v2/message_transport.rs:748-762 | After a cancellation a start gives the buffer back and posts nothing. |
| MessageRequest.NextKeeps | rdma-io/src/v2/message_transport.rs:717-818 | Every step keeps the request's invariant. |
| MessageRequest.EngineSendRequest.Start | rdma-io/src/v2/message_transport.rs:748-762 | Hands the buffer out once, to post or to give back; later calls find it handled. `MessageRequest.FirstStartDecides` says which, over whole runs. |
| MessageRequest.FirstStartDecides | rdma-io/src/v2/message_transport.rs:748-762 | In every run, from the first start on the request owns nothing and has been posted or given back, exactly once; posted if and only if no waiter had cancelled it before that start. |
| MessageRequest.EngineSendWaiter.Poll | rdma-io/src/v2/message_transport.rs:788-806 | Ready exactly when a result is there or comes before the second look, which takes it; otherwise the waker is registered. |
| MessageRequest.EngineSendWaiter.Close | rdma-io/src/v2/message_transport.rs:808-818 | Cancels the request unless its result was taken. |
| MessageScheduler.FairWindow | rdma-io/src/v2/message_transport.rs:1802-1839 | With all kinds of work available, any four consecutive units serve an admission, a credit flush and an event. |
| MessageScheduler.EventsAlternate | rdma-io/src/v2/message_transport.rs:1847-1874 | Of two successive events served while both kinds wait, one is from the device and one from the protocol. |
| MessageScheduler.FlushWithin | rdma-io/src/v2/message_transport.rs:1802-1839 | A pending credit flush is served within three units more than submissions are pending, whatever else is available and whatever the events submit. |
| MessageScheduler.FlushCanWait | rdma-io/src/v2/message_transport.rs:1802-1839 | That bound is tight: for every number of pending submissions a run in which the flush is the last of those units. |
| MessageScheduler.Scheduler.PopWork | rdma-io/src/v2/message_transport.rs:1847-1874 | Serves the preferred queue first and turns the preference over. |
| MessageScheduler.Scheduler.Process | rdma-io/src/v2/message_transport.rs:1802-1839 | Serves units as specified until the budget is spent or nothing is available, and stops early for no other reason. |
| MessageScheduler.IdleIff | rdma-io/src/v2/message_transport.rs:1802-1839 | A unit is idle if and only if nothing is available. |
| CqNotify.EmptyBufferRun | rdma-io/src/v2/completion.rs:103-157 | For either loop, a run with empty buffers that parks a caller beside a completion with no notification on the way. |
| CqNotify.CallIsPath | rdma-io/src/async_cq.rs:167-214 | A call of either loop is a stretch of a run of device and poller steps, from the running caller to where it returned: the two-state loop refines the same protocol. |
| CqNotify.CallKeeps | rdma-io/src/v2/completion.rs:103-157 | A call of either loop keeps the invariant whatever arrives during it, and its answer can be relied on: pending means the queue was seen empty after it was armed, and completions are as many as fit or all there are. |
| CqNotify.SpinsBounded | rdma-io/src/v2/completion.rs:103-157 | From any state of the invariant in which completions wait, and whatever arrives: the calls that hand out nothing are bounded by the events in the channel, a buffer of events each, and the two-state loop has none. |
| CqNotify.CallProgresses | rdma-io/src/v2/completion.rs:103-157 | A call made while completions wait hands some out, or has worked a full budget of events off and asks to be called again. |
| CqNotify.AwakeMeansFull | rdma-io/src/v2/completion.rs:136-151 | A call asks to be called again only if its last drain found a full budget of events, and it fetched just that many. |
| CqNotify.QuietCallGets | rdma-io/src/v2/completion.rs:103-157 | With fewer events than that and nothing arriving, a call past its wait hands out as many completions as fit. |
| CqNotify.CallConserves | rdma-io/src/v2/completion.rs:103-157 | A call loses no completion and makes none up. |
| CqNotify.DrainAllAcks | rdma-io/src/async_cq.rs:216-240 | Draining keeps fetched events equal to acknowledged plus counted ones, with acknowledgement in batches. |
| CqNotify.ClosedAcksAll | rdma-io/src/async_cq.rs:243-258 | After closing, every fetched event has been acknowledged. |
| CqNotify.CqReadiness.DrainAndAck | rdma-io/src/v2/completion.rs:314-346 | Fetches up to the budget and acknowledges what it fetched. |
| CqNotify.CqReadiness.PollWith | rdma-io/src/v2/completion.rs:103-157 | The five-state loop as it runs: it keeps the wake-up invariant, answers only what the queue allows, and makes progress whenever completions wait, whatever completes between its turns. |
| CqNotify.CqReadiness.OneTurn | rdma-io/src/v2/completion.rs:110-155 | One turn of the loop, for each of its states; `CqNotify.CallProgresses` and `CqNotify.AwakeMeansFull` say what the turns come to. |
| CqNotify.AsyncCq.DrainChannelEvents | rdma-io/src/async_cq.rs:216-240 | Fetches every event. |
| CqNotify.AsyncCq.PollCompletions | rdma-io/src/async_cq.rs:167-214 | The two-state loop as it runs: it keeps the same invariant, and hands completions out in the first call made while any wait. |
| CqNotify.AsyncCq.Close | rdma-io/src/async_cq.rs:243-258 | Drains and acknowledges the remainder. |

## Left out

- ReadProtocol.ReadRingSafe: is for runs that reap a message only while fewer than `maxOut` are unreleased, because without that premise it is false; `ReadOverrun.SafeIffWindowFits` gives the exact condition on the configuration.
- EndToEnd.ReadsArePrefixOfWrites: is for runs without failed completions or posts; a run ends when an endpoint gives the connection up, and what a stream still returns after a drain whose reap failed is not modelled.
- StreamLimits.PrefixIffOrderly: its runs do not bound the stash of a blocked write. The breaking run stays below the bound of `stash_drain_cap` under the condition of `StreamLimits.BreakingRun`; whether a run within that bound breaks the remaining rings, whose threshold takes up nearly half of them or exceeds a message and the window together, is not worked out.
- MessageScheduler.FairWindow: needs every kind of work to be available; `FlushWithin` is the bound for a credit flush without that premise.
- MessageScheduler.FlushWithin: is for the units after setup, which alone adds submissions besides events and flushes.
- CoreProtocol.CoreSafe: takes from the transports that they post no more than their inboxes hold; `BusyRing.InboxNeverFull` proves that of read-ring connections.
- BusyRing.SharedCqNeverOverruns: leaves out setups given up before the handshake, which destroy their queue pair at once.
- BusyOverrun.SafeIffOrphansFit: is for the receive queue; for the send queue `SharedCqNeverOverruns` allows one such connection.
- ReadTransport.ReadRingTransport.RemoteFreeSpace: is the arithmetic of a 64-bit release build; a debug build panics where it wraps, which no cached head that a conforming peer publishes brings about.
- MessageRequest.OneResult: a request's own completions, not that the engine eventually reports each posted send.
- MessageCredits.ClaimPendingCreditReturns: does not model spurious failure of the weak compare-and-exchange other than as a changed value; the values it observes are a parameter.
- MessageLifecycle.TransitionTerminal: takes the values the loop observes as a parameter.
- ConnSlots.Inbox.Push: positions are unbounded; wrap-around of the machine word is not modelled.
- Work-request posts are taken to succeed; a failed post ends the connection in the source.
- The contents of completion queues and the arrival of completions are parameters of the methods; the protocol modules say which ones a peer can produce.
- Atomic operations are single steps of a sequentially consistent machine; memory orderings are not modelled.
- Wakers and task scheduling, beyond the parked states of the notification protocol and of a slot's consumer.
- CoreWake.NoLostWakeup: is for a buffer that is not empty, and for a connection that has not been closed.
- CoreWake.FaultsAnnounced: its condition is sufficient; `SleepsOn` is the converse up to a later wake-up for something else.
- Doorbell receives of the ring transports, which carry no data; the reliable connection is taken to deliver in order.
- Connection setup, token exchange, memory windows, addresses and keys, apart from the setup-send drain; both peers are taken to agree on ring capacity and budget, and capacity is at most 65536 as setup enforces.
- Teardown order of verbs objects and the inline teardown drain.
- The send/receive transport, the datagram and gRPC adapters, the verbs wrappers and generated bindings: they would add easy members only.
- HELLO encoding and validation, message framing, and reuse of stash buffers.
- The arm-park pool of the busy crate: plain round-robin without admission.
