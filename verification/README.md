# Maintenant: a verified model of its protocols and state machines

Maintenant monitors containers, endpoints and heartbeats on one server and on remote agents. Agents
queue events in a spool and replay them to the server over a stream; the server keeps a registry of
streams, a container store and an alert engine that several detectors feed. This project models the
parts where state, loops and several components meet, and proves what they keep over whole runs.

Every theorem is about all inputs, all runs or all reachable states of the model. Code that works on
fields in place is a class whose methods are proved against specification functions, and the results
are proved about those functions. For the spool, whose operations interleave, the results are about a
protocol of smaller steps, and `SpoolRefinement` proves that each operation of the spool object is a
sequence of those steps between states that mirror it, so that it stays within what runs of the
protocol reach. Where a promise does not hold of the code as written, there is a concrete
counterexample and a condition that is proved to be exact.

| module | what it covers |
|---|---|
| `SpoolTable`, `AgentSpool` | the spool database as an ordered table; buffer, cursors, flush, drain and budgets changed in place |
| `SpoolQueue`, `SpoolDelivery`, `SpoolProtocol` | the store-and-forward protocol as interleaved steps of producers, flushes, drain, acks, server, disconnects and restarts |
| `SpoolOrder` | the order of first receipts |
| `SpoolRefinement` | the operations of the spool object as sequences of protocol steps |
| `PushLoop` | the server's receive loop for one stream |
| `AlertEngine` | the deduplicating engine, its table, and failing writes |
| `DownDetector`, `Heartbeat`, `Endpoint`, `EndpointAlerts`, `AgentOutage` | the detectors and their wiring into the engine |
| `AgentSessions`, `CommandChannels` | stream registry, stale sweep, and reply channels of commands |
| `Containers` | live events, agent reports, inventories, reconciliation and the transition log |
| `ContainerOutages` | which ends of a container the down detector counts |
| `Uptime`, `Telegram` | time-weighted uptime; escape-then-truncate of alert texts |
| `Options`, `ContainerStates` | shared types |

These properties are false of the code as written, and are stated with their exact conditions:

- An ack can delete a row the server never accepted, because per-stream snapshot numbers share the
  number space with rows (`SpoolProtocol.SnapshotAckCanLoseRow`) and because the rest of a batch
  overwrites a rewind (`SpoolProtocol.RefusedRowCanBePurged`). `SpoolProtocol.AckLosslessIff` says
  for every ack in every reachable state whether it is safe, `SpoolProtocol.LiveAckLosslessIff` says
  it in terms of what is in flight and refused on the current stream, and
  `SpoolProtocol.RowAckLosesExactlyRefused` is the case of an ack that names a row.
- The server can first receive rows out of order, when a row expires or is dropped while the server
  has not yet read it from a stream that was cut (`SpoolOrder.ExpiredLeftoverBreaksOrder`).
  `SpoolOrder.OrderSafeIff` says exactly in which states the order can no longer break.
- A container that reappears under its old id after being archived gets a second initial transition,
  so its log is no longer a path (`Containers.ReappearingContainerBreaksPath`).
  `Containers.LogsArePathsIff` says that this is the only way, over whole runs.
- A comment in the uptime computation says that a window without transitions means the current state
  held throughout; the code reports 100 whatever that state is (`Uptime.EmptyWindowReadsFull`), and a
  window with transitions misses the time before the first of them (`Uptime.WindowReadsHalf`).
  `Uptime.EmptyWindowIsUpIff` and `Uptime.WindowUndercount` say exactly when and by how much the
  window differs from the whole log.
- Alerts and recoveries of an endpoint alternate only while the store takes the alert state: a lost one
  lets the same alert be raised again (`Endpoint.LostAlertStateRepeats`). `Endpoint.SafeIff` and
  `Endpoint.SafeIffAlertStateTaken` say exactly when alternation is safe.

Inputs from outside are parameters: the clock, the limiter's verdicts, which writes and sends fail,
what the database reports as its size, the order of map iteration, what a runtime lists, which rows
can be decoded, and when a stream is cut or a context cancelled.

## Model

| member | source | states |
|---|---|---|
| SpoolProtocol.AckNeverPurgesUnsent | internal/agent/spool.go:564-662 | at every state of every run, for arbitrary ack numbers and every interleaving, ackSeq <= sendSeq, every readable stored row at or below sendSeq was handed to a stream, and every readable row an ack deleted was handed over first |
| SpoolProtocol.PurgedRowsWereReceived | internal/agentserver/enrollment.go:255-356 | while only acks naming rows moved the cursor, every readable row deleted by an ack had been received or refused by the server; with no refusals, received |
| SpoolProtocol.AckLosslessIff | internal/agent/spool.go:614-641 | in any reachable state and for any ack, naming a row or a snapshot, it lets only received rows be deleted if and only if no readable stored row that was handed to a stream and not received lies at or below the cursor it sets |
| SpoolProtocol.LiveAckLosslessIff | internal/agent/spool.go:614-648 | on a stream that did not begin above an unanswered stored row, whatever acks came before and for row and snapshot acks alike, that is the case if and only if no row in flight and no refused row, not received, lies at or below it |
| SpoolProtocol.SkipsOnlyAfterSnapshotAck | internal/agent/spool.go:158-165 | a stream begins above an unanswered stored row only if an ack naming a snapshot moved the cursor before |
| SpoolOrder.FirstReceiptsInRowOrder | internal/agent/client.go:281-341 | with row acks and no refusals, over any disconnects, rewinds, expiries, drops, restarts and late reads of cut streams, first receipts are in strictly increasing row order unless a leftover of a cut stream delivers a row that left the table before the server received it |
| SpoolOrder.OrderSafeIff | internal/agent/spool.go:158-165 | at any point of such a run with a store, the order is safe in every continuation in which rows leave the table only by acks if and only if it is intact and every row on its way was received before or is still stored |
| SpoolOrder.ExpiredLeftoverBreaksOrder | internal/agent/spool.go:449-468 | a reachable state with row acks only and no refusal in which row 2 was first received before row 1, which had expired while unread on a cut stream |
| SpoolOrder.OrphanBreaks | internal/agent/spool.go:564-611 | from any clean state with a row on its way that is neither stored nor received, some continuation without further loss from the table delivers it out of order |
| SpoolOrder.RunOrdered | internal/agentserver/enrollment.go:309-356 | in every run with row acks and no refusals, below a received row every row that may still be sent or is on the current stream was received, and rows on cut streams travel behind all such rows below them |
| SpoolOrder.StepKeepsNoOrphans | internal/agent/spool_store.go:162-177 | a step that loses rows from the table only by acks makes no row that is on its way an orphan |
| SpoolProtocol.RowAckLosesExactlyRefused | internal/agent/spool.go:614-641 | for an ack naming a row, what is in flight never matters: it is lossless if and only if no refused and never accepted row lies at or below the cursor it sets |
| SpoolProtocol.AckedRowsLeave | internal/agent/spool.go:614-641 | once the purge of an ack has been carried out, whatever happened between and happens later, no row between the old ack cursor and the smaller of its number and the send cursor is stored |
| SpoolProtocol.ServerAnswers | internal/agentserver/enrollment.go:309-356 | every row message the server takes, on a live or a cut stream, is received or refused, no other row is, and streams are read in order |
| SpoolProtocol.LedgersHaveTheirCauses | internal/agent/spool.go:179-439 | events count as acked only by an ack's purge, as expired only by an expiry, as over budget only by a drop or trim, as discarded, crashed and accepted only by their own steps |
| SpoolProtocol.NothingWaitsForTheDrain | internal/agent/spool.go:564-611 | producers, flushes, expiries, drops, acks, refusals, purges, server and crashes may step at every point of the drain, and the drain goes on whatever they did |
| SpoolProtocol.CanReconnect | internal/agent/client.go:281-341 | from every state without a stream the agent can connect again and starts at its ack cursor on an empty stream |
| SpoolProtocol.SnapshotAckCanLoseRow | internal/agent/client.go:138-149 | a reachable state in which an ack naming a snapshot deleted a row that nobody received: the row-ack hypothesis is needed |
| SpoolProtocol.RefusedRowCanBePurged | internal/agent/spool.go:586-609 | a reachable state in which a mid-batch rewind was overwritten and a refused row was deleted: the no-refusal hypothesis is needed |
| SpoolProtocol.EventsConserved | internal/agent/spool.go:179-439 | every accepted event is in exactly one of buffer, in-flight batches, table, acked, expired, over budget, discarded (a batch in flight at the discard included), lost in a crash; bufBytes is the sum of buffered sizes |
| SpoolProtocol.DroppedCountsSinceReset | internal/agent/spool.go:411-439 | since a reset that took effect, with or without a store, across restarts and with drops waiting at either end: the counter equals the events dropped over budget since, plus earlier drops counted later, less drops still to be counted or whose count was lost; it is exact if and only if these cancel out |
| SpoolProtocol.DropsAccounted | internal/agent/spool.go:366-439 | between any two points with no reset, discard or restart of a memory-only spool, the counter grows by the events dropped over budget but for counts still to be written or lost |
| SpoolProtocol.RunHolds | internal/agent/spool.go:132-686 | the accounting and delivery invariants hold at every state of every run from an empty spool, with or without a store |
| SpoolProtocol.StepKeeps | internal/agent/spool.go:179-686 | each of the 26 kinds of step keeps the accounting and delivery invariants |
| SpoolProtocol.RefusalsSetFlag | internal/agentserver/enrollment.go:319-336 | no row is ever in the refused set unless the limiter refused something |
| SpoolProtocol.ClearedKept | internal/agent/spool.go:366-379 | without a reset, a discard or a restart of a memory-only spool, nothing counted is cleared between two points of a run |
| SpoolQueue.SendKeeps | internal/agent/spool.go:179-220 | queueing an event keeps conservation and the exact byte counter |
| SpoolQueue.TakeBatchKeeps | internal/agent/spool.go:312-315 | moving the buffer into an in-flight batch keeps conservation |
| SpoolQueue.CommitBatchKeeps | internal/agent/spool_store.go:103-135 | committing any in-flight batch keeps conservation and appends fresh ascending row numbers, whatever other flushes overlap; after a discard it goes with the database |
| SpoolQueue.RestartKeeps | internal/agent/spool.go:132-155 | a restart accounts for the buffer, the batches in flight and the counts it loses |
| SpoolQueue.ResetKeeps | internal/agent/spool.go:428-439 | a reset, written or not, keeps the balance of the drop counter |
| SpoolQueue.DiscardKeeps | internal/agent/spool.go:665-686 | a discard accounts for the buffer, the table and the counter |
| SpoolQueue.PutBackKeeps | internal/agent/spool.go:317-325 | a failed flush puts its batch back in front with the byte counter exact |
| SpoolQueue.TrimMemoryKeeps | internal/agent/spool.go:382-391 | memory trimming moves a prefix to the counted drops and keeps conservation |
| SpoolQueue.DropOldestKeeps | internal/agent/spool.go:330-363 | a disk budget drop moves a row prefix to the drops that are still to be counted |
| SpoolQueue.CountDropsKeeps | internal/agent/spool.go:366-379 | counting a drop, written or not, keeps the balance of the drop counter |
| SpoolQueue.ExpireKeeps | internal/agent/spool.go:449-468 | expiry splits the table into kept and expired rows, losing none |
| SpoolQueue.PurgeKeeps | internal/agent/spool_store.go:162-177 | an ack purge splits the table into kept and acked rows, losing none |
| SpoolDelivery.DrainReadKeeps | internal/agent/spool.go:569-584 | reading a batch above the captured cursor keeps the cursor, chain and order invariants |
| SpoolDelivery.DrainSendKeeps | internal/agent/spool.go:586-603 | handing a row to the stream keeps them |
| SpoolDelivery.MarkHeadKeeps | internal/agent/spool.go:604-609 | overwriting the cursor after a row keeps them, though neither the cursor nor the pause is looked at again |
| SpoolDelivery.RecvAckKeeps | internal/agent/spool.go:614-641 | taking an ack with any number keeps them |
| SpoolDelivery.RecvLimitKeeps | internal/agent/spool.go:652-662 | a rate-limit reply, arriving at any point of a batch, keeps them |
| SpoolDelivery.AttachRewindKeeps | internal/agent/spool.go:158-165 | rewinding on a new stream keeps them |
| SpoolDelivery.CutKeeps | internal/agent/client.go:281-341 | losing the stream keeps them: replies are lost, what was sent stays readable in order |
| SpoolDelivery.ReadLeftKeeps | internal/agentserver/enrollment.go:217-231 | the server reading on in a stream that was cut, accepting or refusing, keeps them |
| SpoolDelivery.RestartKeeps | internal/agent/spool.go:132-155 | a restart of the agent on the same table keeps them |
| SpoolDelivery.DeliverKeeps | internal/agentserver/enrollment.go:309-356 | the server's accept, refuse and ack of the next message keep them, whether or not the reply can be sent |
| SpoolDelivery.RowsChangeKeeps | internal/agent/spool_store.go:103-220 | any loss of rows and any append with new numbers keeps them |
| SpoolDelivery.SnapshotKeeps | internal/agent/client.go:138-149 | a snapshot with an arbitrary number in the stream keeps them |
| SpoolTable.FreeingPrefixIsShortest | internal/agent/spool_store.go:199-220 | the rows a budget delete removes are the shortest prefix whose sizes reach the target, or all that the scan limit allows |
| SpoolTable.OldestBytesKey | internal/agent/spool_store.go:199-220 | the windowed running-sum delete selects exactly that prefix and returns the key of its last row |
| SpoolTable.TrimPrefixIsShortest | internal/agent/spool.go:382-391 | memory trimming drops the shortest prefix after which the rest fits the budget, or everything |
| SpoolTable.BatchIsContiguous | internal/agent/spool_store.go:139-159 | a limited read above a key is a gap-free run of the table in ascending order, right above the key |
| SpoolTable.AckTarget | internal/agent/spool.go:614-630 | an ack moves the cursor to the smaller of its number and the send cursor, never back, and not at all for a number above the largest row id |
| AgentSpool.SpoolStore.Append | internal/agent/spool_store.go:103-135 | all events get consecutive new keys, or the failing transaction leaves the table untouched |
| AgentSpool.SpoolStore.ReadFrom | internal/agent/spool_store.go:139-159 | the row-by-row read equals the limited selection above the key |
| AgentSpool.SpoolStore.DeleteUpTo | internal/agent/spool_store.go:162-177 | exactly the rows at or below the key go, counted when the statement succeeds; a rejected statement deletes nothing, a late error deletes all the same |
| AgentSpool.SpoolStore.DeleteOlderThan | internal/agent/spool_store.go:180-195 | exactly the rows observed before the cutoff go, with the same two kinds of failure |
| AgentSpool.SpoolStore.DeleteOldestBytes | internal/agent/spool_store.go:199-220 | exactly the shortest freeing prefix goes, with the same two kinds of failure |
| AgentSpool.Spool.TrimMemory | internal/agent/spool.go:382-391 | the in-place loop drops exactly the shortest trimming prefix and counts it |
| AgentSpool.Spool.Flush | internal/agent/spool.go:298-363 | the flush equals its specification with every error path: a failed transaction keeps the batch in order, and an error reading the size, deleting or counting after it leaves the batch stored |
| AgentSpool.FlushStores | internal/agent/spool.go:298-363 | after a stored batch, of old rows and new the fewest oldest go whose sizes reach the excess over the budget and a tenth of the budget, or the first 50000, or all; they are counted unless a delete or count error came between |
| AgentSpool.FlushErrors | internal/agent/spool.go:298-363 | a flush reports an error exactly when the transaction fails, the size cannot be read, an over-budget delete reports an error, or dropped rows cannot be counted |
| AgentSpool.FlushElse | internal/agent/spool.go:298-312 | a failed transaction changes nothing; without a table the fewest oldest events go until the rest fits, counted in memory |
| AgentSpool.Spool.EnforceDiskBudget | internal/agent/spool.go:330-363 | over budget the fewest oldest rows go that free the excess and a tenth of the budget, or the first 50000, or all; they are counted unless the delete or the count reports an error, which is returned; otherwise no row goes |
| AgentSpool.Spool.Enqueue | internal/agent/spool.go:179-220 | whatever the flush does, table and buffer together hold the old queue and the new event, less a prefix that is counted unless the database failed to; a background flush is asked for exactly at 500 buffered events below the memory budget |
| AgentSpool.Spool.Acked | internal/agent/spool.go:614-641 | the cursor moves to the ack target; unless the delete is rejected no row the ack newly covers stays and every row above its number or the send cursor does |
| AgentSpool.Spool.SendBatch | internal/agent/spool.go:586-609 | a batch loop sends exactly the readable rows it passes, in order, and leaves the cursor at the last of them, whether it finishes, is cancelled or fails |
| AgentSpool.Spool.DrainOnce | internal/agent/spool.go:564-611 | one drain sends exactly the readable rows between old and new cursor, in row order; one that finishes with a stream attached and not paused leaves none above it; cancellation, failing reads and failing sends stop it in between |
| AgentSpool.Spool.Attach | internal/agent/spool.go:158-165 | binding a stream clears the pause and rewinds the send cursor to the ack cursor |
| AgentSpool.Spool.RateLimited | internal/agent/spool.go:652-662 | the cursor rewinds and the pause lasts the given delay, or one second when none is given |
| AgentSpool.Spool.Discard | internal/agent/spool.go:665-686 | store and buffer are gone and the spool stays consistent |
| AgentSpool.Spool.ResetDropped | internal/agent/spool.go:428-439 | the memory counter is cleared, the stored one unless its write fails |
| AgentSpool.Spool.PurgeExpired | internal/agent/spool.go:449-468 | exactly the rows observed before the retention window go, unless there is no window, no store or the delete is rejected |
| AgentSpool.Spool.Detach | internal/agent/spool.go:168-176 | the stream is unbound and nothing else changes |
| SpoolRefinement.FlushSteps | internal/agent/spool.go:298-363 | a flush is the protocol steps trim, or take and put back, or take and commit with the budget drop and its count |
| SpoolRefinement.FlushTakesSteps | internal/agent/spool.go:298-363 | the flush method takes those steps between protocol states that mirror the object; it leads from reachable states to reachable states |
| SpoolRefinement.EnqueueTakesSteps | internal/agent/spool.go:179-220 | queueing is an enqueue step followed by the flush steps when over budget; it leads from reachable states to reachable states |
| SpoolRefinement.AckTakesSteps | internal/agent/spool.go:614-641 | an ack is the cursor step followed, if it moved, by the purge step; it leads from reachable states to reachable states |
| SpoolRefinement.LimitTakesStep | internal/agent/spool.go:652-662 | a rate limit is one protocol step; it leads from reachable states to reachable states |
| SpoolRefinement.AttachTakesSteps | internal/agent/spool.go:158-165 | attaching is the bind step and the rewind step; it leads from reachable states to reachable states |
| SpoolRefinement.DiscardTakesStep | internal/agent/spool.go:665-686 | discarding is one protocol step; it leads from reachable states to reachable states |
| SpoolRefinement.DetachTakesStep | internal/agent/spool.go:168-176 | detaching is one protocol step; it leads from reachable states to reachable states |
| SpoolRefinement.ResetTakesStep | internal/agent/spool.go:428-439 | a reset is one protocol step, with its write taken or not; it leads from reachable states to reachable states |
| SpoolRefinement.PurgeTakesStep | internal/agent/spool.go:449-468 | an expiry that reaches the database is one protocol step; it leads from reachable states to reachable states |
| SpoolRefinement.ObjectKeepsCursors | internal/agent/spool.go:614-641 | of an object at a reachable mirrored state, and every operation keeps it reachable: the ack cursor is not above the send cursor and every readable stored row at or below that was handed to a stream |
| SpoolRefinement.DrainSteps | internal/agent/spool.go:564-611 | dealing with any consecutive rows above the cursor is a run of drain steps that puts exactly the readable ones on the stream |
| SpoolRefinement.DrainTakesSteps | internal/agent/spool.go:564-611 | the drain method takes the flush steps and then drain steps only, and what its stream received is what those put on the protocol's queue; it leads from reachable states to reachable states |
| SpoolRefinement.NewSpool | internal/agent/spool.go:132-155 | a new spool mirrors the state every run begins with |
| PushLoop.Handler.Serve | internal/agentserver/enrollment.go:233-356 | the loop over any turns, with cancellation, queued commands, receive errors and failing sends, ends in the specified state and replies |
| PushLoop.Handler.MaybeAck | internal/agentserver/enrollment.go:255-271 | an ack is sent exactly at each hundredth event or after five seconds, naming the last accepted event; a failing send ends the loop |
| PushLoop.Handler.Turn | internal/agentserver/enrollment.go:273-355 | one turn of the loop follows its specification on every channel it may find ready |
| PushLoop.EndsRevokedIff | internal/agentserver/enrollment.go:273-291 | the loop ends as agent_revoked if and only if it was still running when it acted on a context cancelled by a revocation; an error met first ends it otherwise |
| PushLoop.PushEndsRevokedOnlyIfTornDown | internal/agentserver/enrollment.go:273-282 | a Push on a stream of the registry ends as agent_revoked only if a revoke or delete tore that stream down while registered, and as session_closed only if none did |
| PushLoop.SeesExactlyAccepted | internal/agentserver/enrollment.go:319-340 | the loop counts exactly the accepted events and remembers the last; refusals and control messages never move it |
| PushLoop.RepliesExactly | internal/agentserver/enrollment.go:255-356 | after any turns an accepted event is acknowledged by its number if and only if the number accepted is a multiple of 100 or 5000 ms have passed since the last ack went out; a refused one is reported; a failing ack ends the loop, a failing report does not |
| PushLoop.RemembersAckTime | internal/agentserver/enrollment.go:255-271 | the remembered time is that of the last ack among the replies, or the start |
| PushLoop.OthersUnanswered | internal/agentserver/enrollment.go:273-307 | control messages, commands, errors and cancellation are not answered, and end the loop exactly as named |
| PushLoop.AcksNameAcceptedEvents | internal/agentserver/enrollment.go:255-356 | every ack of a run names an event accepted before it, and while the loop runs at most (accepted mod 100) accepted events are beyond the last ack |
| PushLoop.RefinesDelivery | internal/agentserver/enrollment.go:309-356 | over any sequence of turns, whatever sends fail, the loop takes the messages and sends the replies of the protocol's server steps |
| AlertEngine.ActiveMapEqualsTable | internal/alert/engine.go:236-497 | in every run with successful writes, from agreement, the tracked alerts equal the active rows, one per dedup key |
| AlertEngine.TrackedAlertsAreActiveRows | internal/alert/engine.go:236-809 | whatever writes fail, every tracked alert is an active row of its key at every point |
| AlertEngine.AgreementBrokenExactlyByLostWrite | internal/alert/engine.go:349-497 | an operation keeps map and table equal if and only if no write it needed was lost; a lost insert of a new alert breaks nothing |
| AlertEngine.AgreesMeansEqual | internal/alert/engine.go:213-234 | agreement means: one active row per key, and the tracked alerts are exactly the active rows |
| AlertEngine.RecordIsFirstOfMaxRank | internal/alert/engine.go:236-416 | from any state, reloaded alerts included, and at every point of every run, a key is tracked exactly while it has events since its opening, and its record comes whole from the first of them to reach the highest rank |
| AlertEngine.RecordIsFirstOfWorst | internal/alert/engine.go:236-416 | at every point of every run a tracked key holds the body of the first critical event since its opening, failing that of the first warning, failing that of the first info, and of the opening event if all severities are unknown |
| AlertEngine.SeverityOrder | internal/alert/engine.go:405-416 | any unknown severity ranks below info, below warning, below critical |
| AlertEngine.FireWrites | internal/alert/engine.go:284-347 | an event of an untracked key writes one new row, active and tracked or silenced and untracked; of a tracked one it touches only that row |
| AlertEngine.RecoverWrites | internal/alert/engine.go:418-497 | a recovery writes a resolved row of its own and resolves the tracked row, naming it; nothing for an untracked key |
| AlertEngine.RemoveWrites | internal/alert/engine.go:779-809 | removing an entity resolves exactly the active rows of the entity, naming no other row |
| AlertEngine.ClosedRowsStay | internal/alert/engine.go:236-809 | whatever writes fail, a resolved or silenced row stays as it is in every continuation |
| AlertEngine.RankNeverFalls | internal/alert/engine.go:349-416 | between any two points of a run through which an alert stays tracked, its rank does not fall and its row stays the same |
| AlertEngine.FireKeeps | internal/alert/engine.go:236-347 | opening or escalating keeps tracking, and agreement when writes succeed |
| AlertEngine.RecoverKeeps | internal/alert/engine.go:418-497 | a recovery keeps tracking, and agreement when writes succeed |
| AlertEngine.ResolveKeeps | internal/alert/engine.go:779-809 | removing an entity keeps tracking, and agreement when writes succeed |
| AlertEngine.Engine.Reload | internal/alert/engine.go:213-234 | the reload loop yields agreement when active rows have unique keys, and tracking in any case |
| AlertEngine.Engine.ProcessEvent | internal/alert/engine.go:236-347 | the in-place engine follows the specified operation and keeps its invariants |
| AlertEngine.Engine.EscalateAlert | internal/alert/engine.go:349-402 | memory is rewritten, the row only when the update succeeds |
| AlertEngine.Engine.ProcessRecovery | internal/alert/engine.go:418-497 | the key is untracked first; the recovery row and the resolution follow as far as the writes succeed |
| AlertEngine.Engine.ResolveEntity | internal/alert/engine.go:779-809 | exactly the entity's alerts are untracked and, in any order, their rows resolved where the update succeeds |
| DownDetector.Check | internal/alert/down.go:53-130 | a pass over any listing and alert list, in any map order, emits exactly one fire per id newly past the threshold and one recovery per firing id that is not, each with the severity and name of the listing or of the alert |
| DownDetector.PassMakesAlertsExactIff | internal/alert/down.go:53-130 | in any engine state, after a delivered pass the active container_down alerts are exactly the containers past the threshold if and only if every such alert of another source is about one of them |
| DownDetector.PassIsExact | internal/alert/down.go:53-130 | after any run of the engine with successful writes, over all its sources, a delivered pass leaves container_down alerts active exactly for the containers past the threshold, and a second pass on the same listing and clock emits nothing |
| DownDetector.NothingForeign | internal/alert/down.go:89-118 | since only the detector sends down events, and with its own key, no run of the engine has a container_down alert of another source |
| DownDetector.PassIsOwn | internal/alert/down.go:89-126 | every event a pass sends is a down event with the detector's own key, as NothingForeign supposes |
| DownDetector.ForeignAlertStays | internal/alert/down.go:73-78 | that hypothesis is needed: the firing alerts are read without their source, so one of another source, which nothing in the code raises, would stay |
| DownDetector.PassSettles | internal/alert/down.go:53-130 | delivered to an agreeing, unsilenced engine, a pass leaves container_down alerts exactly for the containers past the threshold and those another source raised, keeps agreement and touches no other key |
| DownDetector.SendAll | internal/alert/down.go:80-130 | the emitting loops send each pending event once, in any map order |
| DownDetector.SecondPassIsSilentIff | internal/alert/down.go:53-130 | in any engine state a second pass on the same listing and clock emits nothing if and only if the same condition holds |
| DownDetector.FiringMatchesActive | internal/alert/down.go:73-78 | the firing set read from the table equals the tracked container_down alerts |
| DownDetector.CollectDown | internal/alert/down.go:63-71 | the down map holds exactly the ids past the threshold |
| DownDetector.DownMeans | internal/alert/down.go:47-71 | a container counts exactly if it is listed as exited or dead for at least the threshold |
| DownDetector.FiringMeans | internal/alert/down.go:73-78 | an alert counts as firing exactly if it is of type container_down about a container |
| DownDetector.EventsSay | internal/alert/down.go:89-142 | keys, names and severities of the two kinds of event; critical unless the container is set to info or warning |
| Heartbeat.AlertsFollowMonitors | internal/heartbeat/service.go:241-719 | over every run, with failing writes, silencing and other engine traffic, an active heartbeat alert implies an alerting monitor; when no heartbeat event fails or is silenced, it is active exactly for enabled alerting monitors |
| Heartbeat.SuccessClearsBothKeys | internal/app/wiring.go:31-63 | after any run, a stored successful ping or exit code 0 leaves neither failure key active and the monitor up |
| Heartbeat.MissedExactlyAfterPeriod | internal/heartbeat/service.go:598-666 | after a stored ping, start, exit code or resumption at now, whatever happens to other monitors and in the engine, no sweep up to now plus the period changes the monitor or its alerts, and the first later one that is stored marks it down and alerting and raises its alert |
| Heartbeat.PausedIsNeverMissed | internal/heartbeat/service.go:670-692 | after a stored pause the alerts are gone, the deadline is cleared, and no sweep changes the monitor until something else is done to it |
| Heartbeat.EachAlertHasItsReason | internal/app/wiring.go:31-63 | when nothing fails or is silenced, deadline_missed is active exactly from a missed deadline and exit_code_failure exactly from a non-zero exit code until the next success, pause or deletion, and each is critical |
| Heartbeat.CountersAreStreaks | internal/heartbeat/service.go:241-666 | over every run a monitor's counters measure the current streak of its stored outcomes |
| Heartbeat.ExecutionsTallied | internal/heartbeat/service.go:241-666 | a monitor has exactly as many executions of each final outcome as were ended so by successes, failures, interrupting starts and missed deadlines |
| Heartbeat.NothingLeftRunning | internal/heartbeat/service.go:433-576 | an exit code, a completing ping and a missed deadline of a started run leave no execution in progress; a start leaves the one it opens |
| Heartbeat.RunStartedIsOpenRun | internal/heartbeat/service.go:356-431 | a monitor knows when the run in progress was started, at its last stored start until a ping or exit code completes it |
| Heartbeat.OnlyPausedResumes | internal/heartbeat/service.go:694-721 | resuming a monitor that is not paused changes nothing |
| Heartbeat.DeletedIsLeftAlone | internal/heartbeat/service.go:219-237 | after a deletion the alerts are gone and no ping, start, exit code or sweep changes anything |
| Heartbeat.EventsSay | internal/app/wiring.go:31-63 | keys, severities and names of the events the wiring sends |
| Heartbeat.OneExecutionInProgress | internal/heartbeat/service.go:241-666 | while the heartbeat store takes the writes of pings and misses, at most one execution per monitor is ever in progress and a started monitor has one, whatever happens to alerts, pauses and deletions |
| Heartbeat.ExecutionsCloseOnce | internal/store/heartbeats.go:346-369 | what a run has closed, no continuation changes again |
| Heartbeat.Latest | internal/store/heartbeats.go:364-369 | the current execution is one in progress, and absent only if none is |
| Heartbeat.RecoveredClears | internal/app/wiring.go:31-63 | a recovery clears both failure keys of the monitor and no other monitor's, whatever the writes do |
| Heartbeat.AlertedRaises | internal/app/wiring.go:282-290 | an alert touches only its own monitor and, unsilenced with its insert written, is active |
| Heartbeat.ResolvedClears | internal/app/wiring.go:293-310 | pausing or deleting clears the monitor's alerts and no other's |
| Heartbeat.SweepIsRun | internal/heartbeat/service.go:598-666 | a deadline sweep over the listed overdue monitors is a run of single misses, so the run results cover it |
| Heartbeat.Service.ProcessPing | internal/heartbeat/service.go:241-354 | the in-place ping follows its specification, the failing-write paths included |
| Heartbeat.Service.ProcessStartPing | internal/heartbeat/service.go:356-431 | a start ping times out the interrupted run and opens a new one |
| Heartbeat.Service.ProcessExitCodePing | internal/heartbeat/service.go:433-576 | an exit code closes or records an execution and raises or clears the alert; codes outside 0..255 change nothing |
| Heartbeat.Service.CheckDeadlines | internal/heartbeat/service.go:598-666 | the sweep loop applies a miss to each listed monitor in turn |
| Heartbeat.Service.MissOne | internal/heartbeat/service.go:607-665 | a miss marks the monitor down and alerting, closes a started run and alerts, only if the state write succeeds |
| Heartbeat.Service.PauseMonitor | internal/heartbeat/service.go:670-692 | a stored pause clears the alert state and resolves the monitor's alerts |
| Heartbeat.Service.ResumeMonitor | internal/heartbeat/service.go:694-721 | only a paused monitor resumes, with a fresh deadline |
| Heartbeat.Service.DeleteMonitor | internal/heartbeat/service.go:219-237 | a stored deletion disables the monitor and resolves its alerts |
| AgentSessions.EveryStreamRegisteredOrReleased | internal/agentserver/sessions.go:192-289 | in every run each stream ever opened is the registered one of its agent, not released, or has been cancelled with its waiters released; a registered agent is never marked offline |
| AgentSessions.SupersededCloseIsNoop | internal/agentserver/sessions.go:239-289 | once an opened stream is no longer registered, its handler's close changes nothing in any continuation; while it is registered, it does |
| AgentSessions.SupersededForGood | internal/agentserver/sessions.go:192-226 | no continuation registers a superseded stream again |
| AgentSessions.SweepSettles | internal/agentserver/sessions.go:612-650 | from any registry state and for any ids, a sweep tears down exactly the listed streams not younger than it, stale unless ended before, marks their agents offline and announces each once; announces a listed agent without a stream exactly when settled and not reported yet; and leaves every other agent as it was |
| AgentSessions.OpenedStreamAndSweep | internal/agentserver/sessions.go:192-226 | a stream opened at now replaces the previous one, is announced, survives every sweep that began before and falls to every later one that lists its agent |
| AgentSessions.CloseSettles | internal/agentserver/sessions.go:249-289 | closing tears the stream down with the cause its reason stands for and announces it; a revoke or delete is announced even without a stream and clears the offline mark, another closing of a stream sets it; no other agent changes |
| AgentSessions.OwnCloseSettles | internal/agentserver/sessions.go:239-244 | with the registered token a handler's close is that of the agent, with any other or none it leaves a registered stream alone |
| AgentSessions.RevokedExactlyWhenTornDown | internal/agentserver/enrollment.go:273-282 | the cause a handler finds when it acts on its cancelled stream makes it answer agent_revoked if and only if a revoke or delete tore the stream down while registered, before its transport ended |
| AgentSessions.ApplyKeepsRegistry | internal/agentserver/sessions.go:192-656 | open, close, token close, stale reap and transport end keep the registry invariant |
| AgentSessions.StepRevokes | internal/agentserver/sessions.go:39-48 | one step gives a stream the revoked cause exactly when it tears the registered stream down by revoke or delete |
| AgentSessions.Sessions.OpenStream | internal/agentserver/sessions.go:192-226 | opening cancels and releases the previous stream and registers a fresh token |
| AgentSessions.Sessions.RemoveStream | internal/agentserver/sessions.go:249-289 | the in-place removal follows its specification and keeps the invariant |
| AgentSessions.Sessions.CloseAgent | internal/agentserver/sessions.go:231-233 | closing by agent removes whatever stream is registered |
| AgentSessions.Sessions.CloseOwnStream | internal/agentserver/sessions.go:239-244 | closing by token removes only that stream; no token, no effect |
| AgentSessions.Sessions.SweepStale | internal/agentserver/sessions.go:612-650 | the loop has, on every agent, exactly the effect SweepSettles describes |
| AgentSessions.Sessions.ReapOne | internal/agentserver/sessions.go:616-650 | a dead stream is cancelled and announced; an absent agent is announced only when settled and not yet reported |
| AgentOutage.AlertExactlyWhenOffline | internal/app/wiring.go:665-725 | at every point of a run through registry, wiring and engine, with other engine traffic in between, an agent has an active disconnected alert exactly when it is reported offline |
| AgentOutage.OutagesAreWarnings | internal/app/wiring.go:665-691 | every active disconnected alert of a run is a warning |
| AgentOutage.EventSays | internal/app/wiring.go:665-691 | a connect, revoke or delete recovers the agent's disconnected alert, any other end of a stream raises it as a warning |
| AgentOutage.OutageAnnouncedOnce | internal/agentserver/sessions.go:249-289 | between two points with no connect, revoke or delete of the agent, outages announced equal its new offline marks: at most one |
| AgentOutage.OneCall | internal/agentserver/sessions.go:192-289 | one registry operation calls the hook at most once, and the offline set moves exactly as that call says |
| CommandChannels.ChannelsCloseAtMostOnce | internal/agentserver/sessions.go:79-111 | for every lock-level interleaving, repeated ids included, each reply channel is closed at most once, is in exactly one place, and at most 8 commands are pending |
| CommandChannels.ClosedStaysEmpty | internal/agentserver/sessions.go:100-111 | once the stream is closed its pending map is empty in every continuation |
| CommandChannels.NoWaiterLeftBehind | internal/agentserver/sessions.go:344-396 | once closed, every channel ever made was closed, is being closed by a final delivery, was released, or was pushed out by a repeated id; with fresh ids none was pushed out |
| CommandChannels.AdmittedIff | internal/agentserver/sessions.go:344-369 | after any interleaving a command gets a channel of its own exactly while the stream was not torn down and fewer than 8 are pending; otherwise nothing changes |
| CommandChannels.ChannelFate | internal/agentserver/sessions.go:79-111 | the last reply has a pending channel closed, a release gives it up, a teardown closes it, and nothing else moves it |
| CommandChannels.ApplyKeeps | internal/agentserver/sessions.go:79-396 | register, release, deliver, the delayed close and closeAll keep the one-place invariant |
| CommandChannels.ActiveStream.RegisterCommand | internal/agentserver/sessions.go:344-369 | a command is admitted exactly when the stream is open with fewer than 8 pending, on a new channel |
| CommandChannels.ActiveStream.ReleaseCommand | internal/agentserver/sessions.go:371-387 | releasing removes a waiter that is still pending and says whether it was |
| CommandChannels.ActiveStream.DeliverResult | internal/agentserver/sessions.go:79-97 | a final reply removes and closes its channel; any other leaves the state alone |
| CommandChannels.ActiveStream.ReleaseAll | internal/agentserver/sessions.go:100-111 | the loop closes each pending channel once and empties the map; a second call does nothing |
| Containers.LogsArePathsIff | internal/container/service.go:124-466 | over every run of live events, health events, agent reports, inventories and reconciliations with distinct listings, every transition log is a connected path from created to the current state if and only if no listing revived an archived row that had left created |
| Containers.ReconcileKeepsPathsIff | internal/container/service.go:404-461 | one reconciliation keeps all logs paths if and only if nothing reappears over such a row |
| Containers.InsertKeepsPathIff | internal/store/containers.go:42-81 | an upsert keeps the container's log a path if and only if it lands on no row or on a created one |
| Containers.ReappearingContainerBreaksPath | internal/container/service.go:433-461 | three reconciliations after which a log is not a path |
| Containers.RunPathsOrBroken | internal/container/service.go:124-466 | a run that revives something leaves a log that no later operation repairs |
| Containers.ApplyBroken | internal/container/service.go:124-466 | no operation repairs a broken log |
| Containers.PathIsChain | internal/container/service.go:201-206 | the path property is the chain property: starts at created, each step leaves where the previous arrived, ends at the state |
| Containers.InventoryConverges | internal/container/agent_event.go:120-161 | from any store, after an inventory that is complete or non-empty, the agent's unarchived containers are exactly the non-empty ids whose last entry is not destroyed; no other agent changes; logs that are paths stay paths |
| Containers.ReconcileConverges | internal/container/service.go:366-466 | after reconciling distinct ids, the local unarchived containers are exactly the discovered ones: a stored one changes in its state only, a new one is stored as discovered, a gone one is archived as it was; no other agent changes |
| Containers.AgentEventKeeps | internal/container/agent_event.go:46-112 | an agent report keeps every log a path |
| Containers.AgentEventSettles | internal/container/agent_event.go:46-112 | a report leaves its container unarchived, or archived when it says destroyed |
| Containers.ProcessEventKeeps | internal/container/service.go:124-330 | a live event that triggers no reconciliation keeps every log a path |
| Containers.LiveEventLeadsTo | internal/container/service.go:124-330 | what each action does to a known container, its log and no other: start and unpause run it, pause pauses, kill exits, a death completes it exactly for exit codes 0, 137 and 143, a stop keeps a completed one, a destroy archives, a health report is a move in place |
| Containers.UnknownEventIgnored | internal/container/service.go:160-177 | an event of an unknown container does nothing, unless it starts on the local runtime and there is one to ask |
| Containers.ReportActsAsEvents | internal/container/agent_event.go:46-112 | a report of a known container refreshes its row and acts like the health event and live event it stands for |
| Containers.ReportInserts | internal/container/agent_event.go:165-223 | a report of an unknown container inserts it in the state it reports, running if none, with its first transition |
| ContainerOutages.EndCountsAsDownIff | internal/container/service.go:124-154 | after a death and a stop a container counts as down past the threshold exactly if its exit code was not 0, 137 or 143, and not after a start, unpause or pause |
| ContainerOutages.KillCountsAfterThreshold | internal/alert/down.go:47-71 | a killed, or stopped and not completed, container counts as down exactly once the threshold has passed |
| Containers.Service.HandleEvent | internal/container/service.go:124-154 | the dispatch of a live event follows its specification |
| Containers.Service.HandleStateChange | internal/container/service.go:160-263 | a known container moves; an unknown one that starts locally triggers a reconciliation; others are ignored |
| Containers.Service.MoveTo | internal/container/service.go:181-225 | a state change rewrites the row and appends one transition from the old state; an equal state does nothing |
| Containers.Service.HandleHealthChange | internal/container/service.go:290-330 | a health event rewrites the health and appends a self-transition |
| Containers.Service.HandleDestroy | internal/container/service.go:265-288 | a destroy archives a known container |
| Containers.Service.HandleAgentEvent | internal/container/agent_event.go:46-112 | upsert, refresh, health and state in the order of the source |
| Containers.Service.RefreshRow | internal/container/agent_event.go:78-96 | image, health-check flag and archive mark are refreshed, and only written when something changed |
| Containers.Service.HandleReportedState | internal/container/agent_event.go:288-305 | of the reported states only running, exited, dead and paused move the container |
| Containers.Service.InsertContainer | internal/container/agent_event.go:165-223 | an insert writes the row and, unless created, the initial transition |
| Containers.Service.HandleAgentInventory | internal/container/agent_event.go:120-161 | the upsert loop and the archiving loop compute the specified inventory |
| Containers.Service.ArchiveOmitted | internal/container/agent_event.go:138-159 | exactly the agent's unarchived containers the snapshot omits are archived, in any order |
| Containers.Service.ReconcileWith | internal/container/service.go:366-466 | both loops of the reconciliation compute the specified result |
| Containers.Service.SyncStored | internal/container/service.go:391-431 | each stored local container follows the listing or is archived, in any order |
| Endpoint.SignalledExactlyOnStreak | internal/alert/endpoint_alerts.go:44-79 | an alert is raised if and only if a live failure completes a streak of at least FailureThreshold live failures with no alert outstanding; a recovery likewise for successes with one outstanding |
| Endpoint.SignalsAlternate | internal/endpoint/service.go:435-463 | over any trace alerts and recoveries strictly alternate, starting with an alert; alerting means an odd number of signals |
| Endpoint.ReplaysErased | internal/endpoint/service.go:389-399 | a trace and its live part give the same status, counters and signals |
| Endpoint.SameLiveSameRun | internal/endpoint/service.go:389-399 | inserting or removing replayed results anywhere changes nothing |
| Endpoint.CountersAreStreaks | internal/endpoint/service.go:401-420 | each counter reaches k exactly when the last k live results have its outcome; the status is down, up or degraded as the last live result failed, succeeded or succeeded degraded |
| Endpoint.AlertingIffLastAlert | internal/endpoint/service.go:444-452 | the endpoint is alerting exactly when its last signal was an alert |
| Endpoint.Monitor.ProcessCheckResult | internal/endpoint/service.go:381-463 | the in-place update follows the specified step whatever the store finds, takes or loses, records each result once and announces a status change exactly when a live result's status differs from the stored one |
| Endpoint.AlternateDespiteLostWrites | internal/endpoint/service.go:413-463 | alerts and recoveries alternate whatever counters, results and reads the store loses, as long as it takes the alert state of each signal; SafeIff is the converse |
| Endpoint.SignalledExactlyOnKeptStreak | internal/endpoint/service.go:401-463 | whatever the store loses, an alert is raised if and only if a live failure reaches the detector, the live results whose counters were taken end in at least FailureThreshold failures and the stored state is not alerting; a recovery likewise |
| Endpoint.CountersAreKeptStreaks | internal/endpoint/service.go:401-420 | each stored counter reaches k exactly when the last k live results whose counters were taken have its outcome |
| Endpoint.StatusStored | internal/endpoint/service.go:327-336 | the stored status becomes down, degraded or up as the last live result whose counters or signal the store took, and is otherwise unchanged |
| Endpoint.SafeIff | internal/endpoint/service.go:435-463 | whatever the store has lost, alerts and recoveries alternate in every continuation on a working store if and only if they do so far and the stored alert state agrees with the number of signals sent |
| Endpoint.SafeIffAlertStateTaken | internal/endpoint/service.go:444-458 | when a check signals and every earlier signal had its alert state taken, alternation is safe if and only if the store takes the alert state of this one |
| Endpoint.LostAlertStateRepeats | internal/endpoint/service.go:444-458 | a lost alert state lets the same alert be raised twice in a row |
| Endpoint.WorkingStore | internal/endpoint/service.go:381-463 | with a working store the step and signal are those of the trace results |
| EndpointAlerts.AlertsFollowEndpoint | internal/app/wiring.go:169-271 | whatever fails, is silenced or happens to other entities, an active outage alert implies an alerting endpoint and an active certificate alert an untrusted last verdict; exactly so when nothing fails |
| EndpointAlerts.OutageAlertIffLastSignal | internal/app/wiring.go:213-271 | the outage alert is active exactly when the last signal of the endpoint's own checks was an alert |
| EndpointAlerts.AlertsAreGraded | internal/app/wiring.go:169-271 | in every run an active outage alert is critical and an active certificate alert a warning |
| EndpointAlerts.KeysAre | internal/app/wiring.go:182-252 | the dedup keys of the two alerts |
| EndpointAlerts.EndpointSeesItsChecks | internal/endpoint/service.go:381-463 | other engine traffic never influences the endpoint |
| Uptime.UpTimeIsMeasure | internal/container/uptime.go:124-150 | for a sorted list the accumulated up time is the number of instants of the window whose latest transition at or before them is up |
| Uptime.UpAtMeans | internal/container/uptime.go:166-175 | up at an instant means the latest transition at or before it went to running and did not report unhealthy |
| Uptime.RoundedMeans | internal/container/uptime.go:152-157 | rounding clamps at 100 and otherwise rounds down to two decimals |
| Uptime.UpTimeAdditive | internal/container/uptime.go:124-150 | splitting the window splits the up time, which lies between 0 and the window length |
| Uptime.ClampNeverFires | internal/container/uptime.go:152-157 | the exact share is within 0..100, is rounded down by less than a hundredth, and reads 100 if and only if every instant is up |
| Uptime.UpTime | internal/container/uptime.go:124-150 | the loop computes the sum of clipped up spans for any list |
| Uptime.ComputeUptime | internal/container/uptime.go:113-158 | 0 for an empty window, 100 for an empty list, otherwise the rounded share; on a sorted list within a hundredth of the share of up instants |
| Uptime.WindowUndercount | internal/store/containers.go:301-324 | the transitions the store returns for a window undercount the whole log by exactly the time before the first of them, when the container was up as the window opened |
| Uptime.EmptyWindowIsUpIff | internal/container/uptime.go:119-122 | reporting 100 for a window without transitions agrees with the log if and only if the last earlier transition exists and is up |
| Uptime.EmptyWindowReadsFull | internal/container/uptime.go:119-122 | a log and window for which 100 is reported and the container was up at no instant |
| Uptime.WindowReadsHalf | internal/store/containers.go:301-324 | a log and window for which 50 is reported and the container was up at every instant |
| Telegram.CutBodyIsEscapedPrefix | internal/alert/telegram.go:148-174 | cutting the escape of valid text anywhere and trimming gives exactly the escape of the longest fitting message prefix less trailing white space: no character and no entity is split |
| Telegram.MessageShowsLongestPrefix | internal/alert/telegram.go:142-160 | the body is the whole escaped message if it fits, otherwise that escaped prefix and the mark |
| Telegram.WithinLimitIff | internal/alert/telegram.go:104-160 | the text is at most 4096 bytes if and only if header, newline and mark fit, or there is no message and the header fits |
| Telegram.CutPointGreatest | internal/alert/telegram.go:151-158 | no longer prefix that ends on a character boundary fits the room |
| Telegram.CutPointFits | internal/alert/telegram.go:151-158 | the cut falls on a character boundary and its escape fits |
| Telegram.MessageValid | internal/alert/telegram.go:122-161 | valid header and message give valid UTF-8 |
| Telegram.TrimValid | internal/alert/telegram.go:166-174 | trimming leaves valid UTF-8 whatever bytes it is given |
| Telegram.DecodeEscape | internal/alert/telegram.go:114-117 | decoding the entities gives back the message |
| Telegram.ValidIffEncoded | internal/alert/telegram.go:166-169 | text passes the validity check exactly if it is the UTF-8 encoding of some sequence of Unicode scalar values, as section 3 of RFC 3629 defines it |
| Telegram.TrimRightMeans | internal/alert/telegram.go:173-173 | exactly the spaces, newlines and tabs at the end go |
| Telegram.TopReads | internal/alert/telegram.go:122-138 | the first line: a check mark once resolved, otherwise a red, orange or green circle by severity, and in bold what happened to which entity |
| Telegram.HeaderReads | internal/alert/telegram.go:138-144 | the lines below: severity unless resolved, source, entity and time, every value of the alert escaped |
| Telegram.MarkReads | internal/alert/telegram.go:108-109 | the mark is a blank line, an ellipsis and the note, 25 bytes |
| Telegram.EscapeInert | internal/alert/telegram.go:114-117 | escaped text holds no markup bytes and every ampersand is closed by a semicolon |
| Telegram.TrimRightEscape | internal/alert/telegram.go:173-173 | trimming white space and escaping commute |
| Telegram.TrimToValid | internal/alert/telegram.go:166-174 | the shortening loops compute the specified trim |
| Telegram.BuildMessage | internal/alert/telegram.go:145-160 | the body part follows the specified message for any header |
| Telegram.BuildTelegramMessage | internal/alert/telegram.go:122-161 | header and message of an alert: within 4096 bytes exactly when the header leaves room, valid UTF-8 whenever the fields are |
| Telegram.HeaderValid | internal/alert/telegram.go:135-144 | the header of an alert with valid fields is valid UTF-8 |

## Left out

- gRPC transport, TLS, protobuf encoding: the stream is a FIFO queue in each direction that may be cut; decoding is a readable flag on a row.
- SQLite and PostgreSQL: tables are sequences or maps with the semantics of the statements; vacuum, page counts and migrations are not modelled.
- Registration, signatures, nonces and tokens: not part of this model.
- The token-bucket limiter, retry backoff and the drain's pacing: refusals and delays may happen at any time.
- Direct sending of snapshots and their resend on reconnect: a snapshot with an arbitrary number may enter the stream at any time.
- A spool that is switched off, and delivery by a spool that has no store: the drain sends nothing then; only the accounting is covered.
- A restart on which a database that was there cannot be opened, or one that was missing can: a restart finds the spool as it was.
- Probing, collectors, host statistics, certificate checks and label parsing: results and listings are inputs.
- Silence rules, triggers, escalation, routing and delivery of notifications: whether an event is silenced is an input; the other effects do not touch the modelled state.
- Acknowledging alerts and deleting old rows from the alert table: easy additions to the table model.
- Alert messages, details and durations: only their identity matters to the results, so the text is abbreviated; the Telegram text is modelled in full.
- Status pages, browser events and logging: no modelled state depends on them.
- Engine, session and heartbeat operations are single steps; what happens between the critical sections of one such operation is covered only for the spool and for command channels.
- Failing container-store writes, empty agent ids, restart-loop and health alerts of containers: the container results are about successful writes and normalised agent ids.
- Endpoint removal and stopped containers: the endpoint results are about a monitored endpoint with fixed thresholds.
- SpoolOrder.OrderSafeIff: for a spool that has a store; once it is discarded the agent sends nothing more and exits.
- SpoolRefinement.DrainTakesSteps: covers a drain that runs alone; a drain interleaved with acks and rate limits is covered by the protocol, not by the object.
- AgentOutage.AlertExactlyWhenOffline: without silencing of outage events, shutdown and failing alert writes, and each hook call reaches the engine before the next registry operation.
- PushLoop.Handler.Serve: event counters do not wrap at 64 bits; the liveness update is left out.
- Telegram.BuildTelegramMessage: the time stamp is given as formatted text.
- Uptime.ComputeUptime: instants are integers and the share is a real number; rounding of floating point is not modelled, nor is the cache of the one-day window.
