# Verified model of a timing-experiment client

The repository sends batches of HTTP/2 requests so that all of them complete in one
TLS record, repeats such batches as trials under a balanced design, and analyses the
order in which the responses arrive. This project models its hardest parts in Dafny
and proves what they promise, for every input, every interleaving and every run.

**The sender** (`tth2`). A peer changes flow-control credit while the sender plans,
reserves and writes records. The model covers the windows, the two record planners,
the sending loops against an arbitrary peer, and three concurrent protocols as step
machines whose runs are arbitrary sequences of enabled steps: credit, the write lock
and the connection pool.

**The pacing scheduler and the trial driver** (`tth2`). The scheduler is a step
machine with a proved invariant, and its loop is proved to take exactly those steps.
Workers draw blocks of trials from a shared counter; one worker primes and replaces
its connection; ranks of a batch are re-keyed and tallied.

**The measurement and the exact tests** (`cmd/tturl`). Cycles are committed whole;
the orbit of assignments is enumerated once each; the shuffle is a bijection and its
sampling uniform; the sign-flip program equals a count over all sign vectors.

**Three compact algorithms** (`cmd/tturl`): the segment diff of request bodies, the
round-robin baseline lookup, and the injective byte-string encoding.

| file | what it holds |
|---|---|
| `Arithmetic`, `Sequences`, `Perms`, `Float64` | products and powers, sums, permutations, rounding to 53 bits |
| `FlowControl`, `CreditProtocol` | windows as objects, and as a step machine with a ledger |
| `Planner`, `ScarcePlanner` | planning one record |
| `Records`, `Transfer` | frames, records, what they deliver |
| `Ledger`, `PeerTurns` | the account of a send, and the peer whose frames enter it |
| `PlannedRecords` | what each record of a send is worth, and what a stalled send has used |
| `BodySender`, `BatchSend` | the sending loops against an arbitrary peer |
| `RecordWriter`, `ConnectionPool` | write lock and pool |
| `Pacing`, `PacingProofs`, `PacingLoop` | the scheduler's steps, their invariant, the loop |
| `TrialRun`, `TrialWorker` | block distribution, priming and replacement |
| `Arrangement`, `BatchResult`, `Tally` | rotation, ranks, rank matrices |
| `MapTotals` | sums of map values, and of values over a grid |
| `Counts`, `Measurement`, `TrialCounts`, `Collector`, `MeasureRun` | evidence of one trial, a list of trials, one cycle, one run |
| `PermutationList`, `Orbit`, `ExactTest` | generator, mixed radix, exact randomisation test |
| `Shuffle`, `SignFlip` | Fisher-Yates with rejection, sign-flip distribution |
| `RollingHash`, `CommonSubstring`, `SegmentDiff`, `Digest` | the segment diff |
| `HashCollision` | bodies on which a hash collision hides the longest common substring |
| `BaselineLookup` | the baseline lookup |
| `Utf8`, `Base64`, `JsonText`, `WireString` | the byte-string encoding |

The environment is nondeterministic throughout: arriving frames, dial and write
results, context ends and random choices are inputs or steps. A long-running loop is
observed through a finite but arbitrary script of such results, so that its contract
speaks about every finite part of every run. Windows are integers with explicit
32-bit bounds; 64-bit products, divisions, hashes and thresholds are modelled with
their width; floating-point values are reals, except that the quotient behind a request
interval is rounded as 64-bit floating point rounds it.

Where code and documentation differ, or a promise fails, the model follows the code and
states when the promise holds.

- The request interval should be at least width/rate. It saturates at the longest
  duration, and the quotient is rounded. `IntervalMeetsRate` and
  `IntervalMeetsRateExactly` say exactly when it is long enough; `TinyRateIsTooFast` and
  `RoundedRateIsTooFast` give an input for either failure. A caller can check beforehand:
  with at most 53 significant bits it is exact (`FittingRateIsMet`), and up to 26 days it
  is short by at most a nanosecond (`ShortByANanosecond`). It is never longer than needed
  by more than rounding (`IntervalIsTight`). The rate theorems hold up to
  the relative rounding loss of four units of the 53rd bit.
- A hash collision can hide a common substring. `CommonOfLength` and
  `LongestCommonSubstring` find what there is if and only if a condition on the hashes of
  the windows holds, and `MissesTheLongest` calls the search on bodies where it fails.
- The orbit is refused if its size exceeds a limit. Without cycles its size is one, and
  it is refused all the same if the factorial exceeds the limit: `AcceptedIsWithin` says
  exactly when the answer is right, and `RefusesOneMember` gives the input.

## Model

| member | source | states |
|---|---|---|
| `FlowControl.Peer.AddConnectionSendCredit` | tth2/conn.go:256-270 | the window grows by the increment, or stays if that would pass 2^31-1, and the result says which |
| `FlowControl.Peer.ApplySettingsValues` | tth2/conn.go:535-571 | all settings of a frame take effect or none: accepted iff every value is legal; then each parameter has the value of the last entry for it, or without one its old value, and the delta is the change of the initial window |
| `FlowControl.Flow.constructor` | tth2/conn.go:140-153 | every stream starts with the peer's initial window |
| `FlowControl.Flow.Take` | tth2/conn.go:155-177 | debits the minimum of request, frame size and both windows from both windows, and nothing if one is exhausted |
| `FlowControl.Flow.Reserve` | tth2/conn.go:182-204 | reserves a whole record iff every stream and the connection cover it, and otherwise changes nothing |
| `FlowControl.Flow.AddStream` | tth2/conn.go:215-234 | credits the named stream, refuses overflow, ignores unknown streams, and leaves a wake-up token exactly on a change |
| `FlowControl.Flow.ApplyInitDelta` | tth2/conn.go:236-254 | shifts all windows by the delta or, if one would leave 32 bits, none |
| `CreditProtocol.StepKeepsLedger` | tth2/readpump.go:84-110 | every sender and pump step keeps the ledger of windows, credits and debits |
| `CreditProtocol.WindowsMatchTheLedger` | tth2/conn.go:140-270 | in every interleaving the connection window is 65535 plus updates minus debits and not negative, and each stream window is initial plus updates minus debits with a SETTINGS change counted once |
| `CreditProtocol.QuiescentWindows` | tth2/readpump.go:148-178 | between SETTINGS frames a stream window is exactly initial plus credits minus debits |
| `CreditProtocol.OnlyShrinkGoesNegative` | tth2/conn.go:236-254 | a stream window turns negative only by applying a SETTINGS shrink |
| `CreditProtocol.NeverOversends` | tth2/conn.go:182-204 | a debit never exceeds stream or connection window, whatever happened since the check |
| `Planner.Mul64` | tth2/conn.go:1361-1361 | the two words are the exact 128-bit product |
| `Planner.Div64` | tth2/conn.go:1362-1362 | quotient and remainder of a 128-by-64 division whose quotient fits |
| `Planner.NoOverflow` | tth2/conn.go:1373-1374 | none of the planner's divisions overflows |
| `Planner.FirstProgressIsExact` | tth2/conn.go:1354-1367 | the shortcut skips a stream iff the direct floor computation gives it nothing |
| `Planner.FirstProgress` | tth2/conn.go:1357-1367 | fills the least useful progress of every stream |
| `Planner.Contribution` | tth2/conn.go:1369-1380 | with the shortcut the amount of a stream is still its floor share within its cap |
| `Planner.Measure` | tth2/conn.go:1368-1388 | plan, payload and record bytes for a common progress |
| `Planner.FitsDownwards` | tth2/conn.go:1391-1399 | if a progress fits credit and record, every smaller one does |
| `Planner.SearchProgress` | tth2/conn.go:1389-1399 | the binary search returns the greatest common progress that fits |
| `Planner.LessBodyProgress` | tth2/conn.go:1434-1443 | compares two progress fractions exactly |
| `Planner.NeediestIsLeast` | tth2/conn.go:1402-1417 | the selected stream has least progress among those with room, the earliest on ties |
| `Planner.Fill` | tth2/conn.go:1401-1427 | the residual pass stays within caps, credit and record, takes nothing back, and leaves no byte that could be added |
| `Planner.SpendSlack` | tth2/conn.go:1400-1427 | the loop computes that filling and its payload |
| `Planner.EmptyMeansStuck` | tth2/conn.go:1428-1431 | a saturated plan is empty iff no byte can be sent |
| `Planner.PlanGreedy` | tth2/conn.go:1342-1432 | the plan is the saturated filling of the greatest fitting progress, within every bound, and absent iff nothing can be sent |
| `Planner.ReachesCommonProgress` | tth2/conn.go:1368-1388 | each stream reaches its cap or the common fraction |
| `ScarcePlanner.PickOpen` | tth2/conn.go:1265-1333 | the chosen stream is open and none that is open has less progress |
| `ScarcePlanner.PlanScarce` | tth2/conn.go:1265-1333 | the substitute obeys caps, credit, lead and record, and exists iff something can be sent, whichever streams lag |
| `ScarcePlanner.ChooseRecord` | tth2/conn.go:1210-1235 | the record sent obeys all bounds and never carries fewer bytes than the greedy plan; the substitute needs a small greedy record |
| `Records.FramesDeliver` | tth2/conn.go:1239-1254 | a planned record carries exactly the planned slice of each listed stream |
| `Records.FramesSize` | tth2/conn.go:1210-1217 | its size is the planned record bytes |
| `Transfer.AppendDelivers` | tth2/conn.go:1239-1254 | a record extends each stream's delivered prefix by its slice |
| `Transfer.PlanIsReservable` | tth2/conn.go:1236-1238 | a plan from unchanged credit is always reservable |
| `Transfer.ReleaseIsWhole` | tth2/conn.go:1161-1184 | the shared release completes every body and ends every carrying stream in the last record only |
| `Transfer.RemainingShrinks` | tth2/conn.go:1239-1254 | what is left after a flushed record is what was left before minus its payload |
| `Transfer.NoPlanMeansNothing` | tth2/conn.go:1186-1204 | nothing can be planned iff the connection window, or the window of every stream with more than the kept byte left, is used up |
| `Transfer.StuckMeansStarved` | tth2/conn.go:1131-1209 | with at most 1024 carrying streams a stalled sender lacks credit: the windows do not cover the rest |
| `PlannedRecords.BestAdvances` | tth2/conn.go:1086-1095 | a best plan carries at least the bytes of a plan to which no byte can be added and, unless that is a small record, takes every stream to its cap or the common progress |
| `PlannedRecords.StalledMeansUsed` | tth2/conn.go:1186-1208 | a stalled sender has delivered exactly the connection credit it was given, or every unfinished stream has used its own, up to the byte kept for the release |
| `PeerTurns.Environment.Dispatch` | tth2/readpump.go:84-110 | a peer frame is accepted iff the windows have room and its settings are legal; then exactly its credit enters the account, and no credit changes without leaving the wake-up token |
| `PeerTurns.Environment.Interfere` | tth2/readpump.go:84-178 | one turn of the peer: the send stays alive iff the turn neither ends it nor holds a refused frame, and nothing is debited |
| `PeerTurns.Environment.Reserve` | tth2/conn.go:182-204 | a record is debited, and entered in the account, iff the windows of that moment cover it |
| `Ledger.Conserved` | tth2/conn.go:140-270 | after any account of gains, shifts and debits each window is its start plus what the peer gave minus what was debited |
| `Ledger.SettledIsAccounted` | tth2/conn.go:182-258 | if the debits are the costs of the flushed records, in order, the windows are what they were plus the credit given minus the bytes delivered, stream by stream |
| `BodySender.ComputeCaps` | tth2/conn.go:1187-1202 | each cap is the remaining body less an owed byte, within frame, record and stream credit |
| `BodySender.TryRelease` | tth2/conn.go:1161-1171 | reserves and debits exactly the remaining suffixes iff the shared release fits one record and the credit covers it; otherwise nothing changes |
| `BodySender.PlanRecord` | tth2/conn.go:1187-1235 | none iff nothing can be sent; otherwise the best plan for the snapshot: the saturated filling of the greatest common progress that fits, or for a small record a substitute with no fewer bytes |
| `BodySender.SendIntermediate` | tth2/conn.go:1203-1258 | starved iff nothing can be sent; otherwise it debits and flushes the best record for the windows it looked at, finds the credit changed, or is ended from outside, and then loses at most that record |
| `BodySender.Drain` | tth2/conn.go:1617-1634 | woken takes the token; an expired wait leaves the credit of the last look or a token that lost the race; only a turn that ends the send interrupts it |
| `BodySender.SendGreedyBodyPhase` | tth2/conn.go:1131-1259 | for all bodies and peers it ends; success means every body delivered and one shared final release; every intermediate record was best for the windows of a moment at which exactly its predecessors were debited; the debits are the costs of the flushed records, each covered when debited, with at most one lost on failure; it fails only if ended from outside, and times out only stalled with all given credit used, or with newer credit waiting; covered credit suffices with a silent peer |
| `BatchSend.MeasureFitting` | tth2/conn.go:1030-1060 | the bodies fit one record iff their frames do |
| `BatchSend.SendFitting` | tth2/conn.go:1030-1084 | one record with everything, debited and flushed, iff the bodies fit it and the credit is there; otherwise nothing changed |
| `BatchSend.SendBody` | tth2/conn.go:807-847 | the same for the fitting record or else the greedy phase; more than 1024 carrying streams are refused before anything is debited |
| `BatchSend.TailReleaseNeeds` | tth2/conn.go:1534-1562 | the tails' needs, or refusal iff a pivot is invalid or they exceed one record |
| `BatchSend.ReserveTails` | tth2/conn.go:849-907 | after a look for a failed send the tails are debited all at once, or not at all; it gives up only if ended from outside or at a deadline with credit that cannot reserve them or a token that lost the race; with a silent peer sufficient credit suffices |
| `BatchSend.ReleaseTails` | tth2/conn.go:1564-1597 | debits exactly the tails and ends every carrying stream with its tail in one record, or flushes nothing |
| `BatchSend.DelayAndRelease` | tth2/conn.go:883-902 | the peer acts during the release delay; then the tails, and nothing else, go out in the last record, or only the prefixes stay behind |
| `BatchSend.PivotsWithhold` | tth2/conn.go:777-791 | cutting at the pivots keeps back exactly the last min(withheld, length) bytes of every body |
| `BatchSend.TailsComeLast` | tth2/conn.go:872-905 | once the prefixes are out, the last record carries exactly the tails |
| `BatchSend.HeldUpMeansUsed` | tth2/conn.go:747-905 | a send that is held up has used the credit for the bodies, or for their prefixes, or the credit given does not cover the bodies |
| `BatchSend.SendWithBody` | tth2/conn.go:747-791 | over both paths: success delivers every body in well-sized records with END_STREAM on all carrying streams in the last record alone; with withheld bytes the last record carries exactly the last min(withheld, length) bytes of every body and the records before it the rest, and a send that does not succeed delivers none of them; unless it failed, windows = before + credit given - bytes delivered, connection and stream by stream; every record was covered when debited; it fails only if refused for too many carrying streams or tails beyond one record, or ended from outside, with open prefixes and at most one lost record; it times out only where no byte, or no tails, could be sent, all credit being used, or with newer credit waiting; covered credit and a silent peer mean success |
| `RecordWriter.StepKeepsInv` | tth2/writer.go:16-122 | every step of writers, control path and reader keeps the write invariant |
| `RecordWriter.FlushesAreWhole` | tth2/writer.go:16-122 | every completed flush is control frames only or one whole record, and the buffer is empty while the lock is free and the connection unbroken |
| `RecordWriter.BrokenIsSilent` | tth2/writer.go:102-122 | nothing is flushed once the write side is broken |
| `RecordWriter.AbandonedRecordSilences` | tth2/writer.go:90-100 | after a record is abandoned nothing is flushed on either path |
| `RecordWriter.WriteSide.SendControl` | tth2/writer.go:102-122 | a control frame is written and flushed under the lock, or refused |
| `RecordWriter.Writer.Begin` | tth2/writer.go:25-42 | takes the lock once, refuses on a broken connection |
| `RecordWriter.Writer.Flush` | tth2/writer.go:44-70 | flushes the begun record and frees the lock |
| `RecordWriter.Writer.Close` | tth2/writer.go:90-100 | leaving an open record breaks the write side |
| `ConnectionPool.PoolIsBounded` | tth2/transport.go:175-263 | in every interleaving tokens plus holders equal the limit, and dialling, held and idle connections never exceed it |
| `ConnectionPool.ReleaseNeverBlocks` | tth2/transport.go:245-263 | a returned token always finds room |
| `ConnectionPool.ClosedStaysOut` | tth2/transport.go:329-346 | no connection from before a close of idle connections is ever idle after it |
| `ConnectionPool.LateDialIsCondemned` | tth2/transport.go:175-206 | a dial that straddles a close yields a connection that never becomes idle |
| `ConnectionPool.OriginPool.TakeOldest` | tth2/transport.go:208-243 | one step of the protocol: evicts the expired prefix and takes the oldest live connection |
| `ConnectionPool.OriginPool.Acquire` | tth2/transport.go:175-206 | a run of the protocol that takes a token and the oldest live connection, or else dials; a failed dial returns the token |
| `ConnectionPool.OriginPool.PutBack` | tth2/transport.go:245-258 | two steps of the protocol: a connection becomes idle iff its epoch is current, and its token returns and finds room |
| `ConnectionPool.OriginPool.GiveBack` | tth2/transport.go:245-263 | a run of the protocol: a healthy connection of the current epoch becomes idle, any other is dropped, and the token returns |
| `ConnectionPool.OriginPool.CloseAllIdle` | tth2/transport.go:329-346 | one step of the protocol: nothing is idle and the epoch is new |
| `ConnectionPool.OriginPool.SendBatch` | tth2/transport.go:463-497 | a run of the protocol: the live idle connections are used oldest first and each once, a new one only after them; every attempt but the last failed on a stale pooled connection; it gives up exactly on a result no other connection repairs or on a failed dial, and keeps the tokens; the idle queue is what lay behind the last connection it took from there, or nothing once it dialled, then its last connection exactly if the attempt kept it |
| `ConnectionPool.OriginPool.TryOnce` | tth2/transport.go:470-485 | one attempt: the oldest live connection or else a new one; afterwards the idle queue is what lay behind it, and it comes last exactly if the attempt kept it |
| `ConnectionPool.TookNext` | tth2/transport.go:208-243 | taking a connection of the queue leaves exactly what lies behind it, however many were taken before |
| `Pacing.IntervalMeetsRate` | tth2/pacing.go:41-50 | up to the rounding loss the interval is at least width/rate iff that does not exceed the longest duration |
| `Pacing.IntervalMeetsRateExactly` | tth2/pacing.go:41-50 | it is at least width/rate exactly iff the computed quotient rounds up to at least the whole nanoseconds of the exact one and does not exceed the longest duration |
| `Pacing.IntervalIsTight` | tth2/pacing.go:41-50 | the interval exceeds width/rate by less than a nanosecond plus the rounding loss |
| `Pacing.FittingRateIsMet` | tth2/pacing.go:41-50 | if the product and the quotient have at most 53 significant bits, the interval is at least width/rate iff that does not exceed the longest duration |
| `Pacing.ShortByANanosecond` | tth2/pacing.go:41-50 | for any rate, up to 2^51 nanoseconds, the interval is short by at most one nanosecond |
| `Pacing.TinyRateIsTooFast` | tth2/pacing.go:41-50 | an input on which the interval is too short |
| `Pacing.RoundedRateIsTooFast` | tth2/pacing.go:41-50 | a rate at which rounding makes the interval too short |
| `Float64.RoundIsClose` | tth2/pacing.go:45-45 | rounding to 53 bits changes a positive number by at most one part in 2^53 |
| `Pacing.Live` | tth2/pacing.go:244-252 | the queue without its leading cancelled entries: every entry dropped is cancelled or done, and the head that is left is neither |
| `PacingProofs.StepKeeps` | tth2/pacing.go:118-298 | every step keeps queues, selection, reports, history and spacing |
| `PacingProofs.SchedulerInvariant` | tth2/pacing.go:118-298 | the invariant holds in every reachable state |
| `PacingProofs.PruneLosesNone` | tth2/pacing.go:244-257 | pruning keeps every waiting call in the queue of its run |
| `PacingProofs.StepLosesNone` | tth2/pacing.go:118-298 | so does every step, whatever ends, is granted or closed |
| `PacingProofs.WaitingIsQueued` | tth2/pacing.go:118-298 | in every reachable state a call that is neither granted, done nor cancelled is in the queue of its run, and that run is in the table |
| `PacingProofs.QueueImpliesRunning` | tth2/pacing.go:157-163 | a non-empty queue has a running loop, and a selection heads its run's queue |
| `PacingProofs.GrantsAreSpaced` | tth2/pacing.go:222-242 | any two grants keep the minimum interval and width/rate interval on the origin clock and, within a run, on the run's clock and in order of arrival |
| `PacingProofs.ReturnsTellTheTruth` | tth2/pacing.go:138-154 | a wait that reports success was granted exactly once, one that reports an error never |
| `PacingProofs.ReportIsFinal` | tth2/pacing.go:138-154 | a report never changes |
| `PacingProofs.OriginRate` | tth2/pacing.go:30-50 | widths granted after the first in any window sum to at most rate times its length, up to the rounding loss, if no interval exceeds the longest duration |
| `PacingProofs.RunRate` | tth2/pacing.go:30-50 | the same for the grants of one run, live or ended, on its own rate |
| `PacingLoop.ReadyIsAfterReadyAt` | tth2/pacing.go:30-39 | a batch may start exactly from the computed ready time on |
| `PacingLoop.PruneQueue` | tth2/pacing.go:244-257 | drops exactly the cancelled head entries and a cancelled selection with them |
| `PacingLoop.PruneAll` | tth2/pacing.go:244-257 | in any order of runs the result is the pruned table, from which no waiting call is lost (`PacingProofs.PruneLosesNone`) |
| `PacingLoop.Scheduler.SelectAdmission` | tth2/pacing.go:268-287 | in any order of runs it selects the ready head that arrived first, and reports when the first waiting head becomes ready |
| `PacingLoop.Scheduler.GrantSelected` | tth2/pacing.go:229-241 | stamps the clocks, records the grant and stops the loop when nothing is left |
| `PacingLoop.Scheduler.DecideSelected` | tth2/pacing.go:212-241 | drops, grants or keeps the selection; the wait ends exactly when both clocks allow it |
| `PacingLoop.Scheduler.Rest` | tth2/pacing.go:201-211 | sleeps until the first head is ready, a day, or for good when no run is left |
| `PacingLoop.Scheduler.Step` | tth2/pacing.go:197-242 | one pass takes exactly one scheduling step of the protocol |
| `TrialRun.StepKeeps` | tth2/trialstream.go:456-496 | every step keeps the ownership of blocks and what was emitted |
| `TrialRun.BlockByIndex` | tth2/trialstream.go:456-467 | a block is available iff its first trial is |
| `TrialRun.NoIndexTwice` | tth2/trialstream.go:671-723 | no index is emitted twice, none is dispatched or emitted at or beyond the bound |
| `TrialRun.CompleteRun` | tth2/trialstream.go:671-723 | a bounded run without stop emits each index below the bound exactly once, for any workers and interleaving |
| `TrialRun.CycleIsBalanced` | tth2/trialstream.go:671-723 | index = cycle * n + shift, and a complete cycle has exactly one trial with a given request in a given position |
| `TrialWorker.Worker.Acquire` | tth2/trials.go:292-301 | a fresh connection gets a number never used before |
| `TrialWorker.Worker.Send` | tth2/connection_owner.go:39-63 | which failures keep the connection, which lose it, and which count as stale |
| `TrialWorker.Worker.Warm` | tth2/trialstream.go:568-599 | a warm connection has exactly the configured number of priming attempts; priming measures nothing |
| `TrialWorker.Worker.SendTrial` | tth2/trialstream.go:608-669 | against any deaths: a completed trial ends with a measured batch on a fully primed connection, which was not lost as stale and whose headers were released unless the connection is still held or the run was cancelled at that moment, so that everything else is sent again; the second counted death, or a fate met that no connection repairs, is terminal; a stop or bad padding was met; connections taken are at most two plus stale losses, and just two if priming is on; headers once released are sent again only after a stale loss |
| `Arrangement.RotatedIsPerm` | tth2/arrangement.go:95-110 | a rotation of a permutation is a permutation |
| `Arrangement.LatinSquare` | tth2/arrangement.go:84-110 | over the shifts every request is in every position exactly once |
| `Arrangement.ShuffleInPlace` | tth2/arrangement.go:84-88 | the swaps make exactly the shuffle of the choices drawn |
| `Arrangement.Arranger.StartCycle` | tth2/arrangement.go:84-88 | under rotation the base is shuffled by exactly the choices drawn, otherwise it stays; it is a permutation throughout |
| `Arrangement.Arranger.Next` | tth2/arrangement.go:93-110 | hands out the rotated base, the identity, or the identity shuffled by the choices drawn, as the policy says, without touching the base |
| `Arrangement.Arrange` | tth2/arrangement.go:139-145 | position p carries the arranged request |
| `Arrangement.Scatter` | tth2/arrangement.go:150-156 | results return to request order |
| `Arrangement.ScatterInvertsArrange` | tth2/arrangement.go:136-156 | scattering undoes arranging |
| `BatchResult.NewBatch` | tth2/result.go:215-246 | a rank is the number of earlier arrivals and the order its inverse; it fails iff the arrivals are malformed |
| `BatchResult.RekeyKeepsInverse` | tth2/arrangement.go:115-125 | re-keying by any permutation makes reply p of the batch reply arrangement[p], and keeps ranks and order inverse |
| `BatchResult.ScatterBatch` | tth2/arrangement.go:115-125 | the loop computes that re-keying, and the order is translated entry by entry |
| `BatchResult.FullArrivalOrder` | tth2/result.go:200-211 | true iff everything arrived and the order is the two-sided inverse of the ranks |
| `BatchResult.FullRanksArePerm` | tth2/result.go:197-211 | then ranks and order are permutations |
| `Tally.RanksKeepBalance` | tth2/trialstream.go:358-368 | adding a permutation of ranks adds one to every row and column sum |
| `Tally.Summary.Count` | tth2/trialstream.go:341-369 | every row and column of both matrices sums to the number of complete trials; warm-ups and failures are kept apart |
| `Counts.AddHistogram` | cmd/tturl/measurement.go:330-336 | merging status counts adds every count and the totals |
| `Counts.AddEvidence` | cmd/tturl/measurement.go:286-304 | committing a cycle adds all matrices and keeps them consistent |
| `Measurement.CheckArrangement` | cmd/tturl/measurement.go:249-257 | accepts exactly the permutations |
| `Measurement.Validate` | cmd/tturl/measurement.go:230-258 | accepts exactly the well-formed complete trials |
| `Measurement.TallyTrial` | cmd/tturl/measurement.go:260-284 | every matrix gains exactly this trial, and all totals grow by one |
| `TrialCounts.TallyTotals` | cmd/tturl/measurement.go:260-284 | evidence that counts a list of trials counts the list with one more: every rank, position, placement, pair and status of every trial exactly once |
| `TrialCounts.JoinTotals` | cmd/tturl/measurement.go:286-304 | added evidence counts both lists of trials |
| `Collector.Advance` | cmd/tturl/measurement.go:184-214 | one trial enters its cycle: evidence, shifts and completeness change by exactly this trial |
| `Collector.AdvancedTells` | cmd/tturl/measurement.go:184-214 | the cycle stays what its trials make of it: its evidence counts exactly the complete ones |
| `Collector.AdvancedShape` | cmd/tturl/measurement.go:195-204 | an unspoilt cycle has as many distinct shifts and complete trials as it received |
| `Collector.WholeTells` | cmd/tturl/measurement.go:286-304 | a cycle is whole iff it has a trial for every shift and none failed, repeated a shift or had an illegal one |
| `Collector.WholeIsUniform` | cmd/tturl/measurement.go:286-304 | a whole cycle of rotations has every request in every position once |
| `MeasureRun.Finalise` | cmd/tturl/measurement.go:286-304 | a whole cycle is added to the committed evidence, matrix by matrix; the complete trials of any other are excluded; the books stay balanced |
| `MeasureRun.BegunTells` | cmd/tturl/measurement.go:184-214 | recording a trial in its cycle keeps the story of the run: which trials count, which are still open |
| `MeasureRun.ClosedTells` | cmd/tturl/measurement.go:286-304 | closing a cycle keeps its trials iff it is whole, and the committed evidence then counts them too |
| `MeasureRun.ObserveInCycle` | cmd/tturl/measurement.go:180-214 | a rotated trial keeps books and story, and closes its cycle at the last one |
| `MeasureRun.Measure.Observe` | cmd/tturl/measurement.go:144-214 | every trial keeps the invariant that the evidence counts exactly the trials kept; warm-ups are only counted, complete and incomplete apart; a malformed complete trial is an error that changes only the attempts |
| `MeasureRun.Measure.Finish` | cmd/tturl/measurement.go:216-228 | afterwards no cycle is open, complete = retained + excluded, the evidence counts exactly the retained trials, any two requests were compared in each, retained is a whole number of cycles under rotation, and positions are balanced if the driver rotated |
| `MeasureRun.Measure.Reconcile` | cmd/tturl/measurement.go:338-379 | never fails under rotation; otherwise fails iff the transport summary disagrees |
| `PermutationList.Visit` | cmd/tturl/analyse_randomisation.go:203-213 | appends the listed visits and restores the array |
| `PermutationList.AllVisited` | cmd/tturl/analyse_randomisation.go:196-216 | a visit lists each permutation that extends the fixed prefix exactly once |
| `PermutationList.Permutations` | cmd/tturl/analyse_randomisation.go:196-216 | the list holds each of the width! permutations exactly once |
| `Orbit.DecodeEncode` | cmd/tturl/analyse_randomisation.go:135-141 | every code names an assignment that gives the code back |
| `Orbit.EncodeDecode` | cmd/tturl/analyse_randomisation.go:135-141 | every assignment has a code within the orbit |
| `Orbit.DecodeInto` | cmd/tturl/analyse_randomisation.go:134-141 | the in-place loop writes the decoded assignment |
| `Orbit.BoundedFactorial` | cmd/tturl/analyse_randomisation.go:179-185 | the factorial, iff it is within the limit |
| `Orbit.BoundedOrbitSize` | cmd/tturl/analyse_randomisation.go:178-194 | the exact size, iff factorial and power are within the limit, with no product beyond it |
| `Orbit.AcceptedIsWithin` | cmd/tturl/analyse_randomisation.go:178-194 | the orbit is accepted iff its size is within the limit, except without cycles; the exceptions exactly |
| `Orbit.RefusesOneMember` | cmd/tturl/analyse_randomisation.go:178-194 | an orbit of one member that is refused |
| `ExactTest.TrialSumIsRank` | cmd/tturl/analyse_randomisation.go:47-60 | a trial adds to each request the rank at the request's own position |
| `ExactTest.ObservedContribution` | cmd/tturl/analyse_core.go:569-587 | on the observed assignment that is the rank the request had in the trial |
| `ExactTest.RankSumIsTotal` | cmd/tturl/analyse_randomisation.go:47-60 | the sum over cycles, shifts and positions is the total over the set of all places that hold the request |
| `ExactTest.ObservedSum` | cmd/tturl/analyse_core.go:569-587 | on the observed assignment each sum is the total of the ranks the request had in all trials |
| `ExactTest.SumRanks` | cmd/tturl/analyse_randomisation.go:47-60 | the triple loop computes, for each request, the total of the ranks at all places of all trials that the assignment gives to that request |
| `ExactTest.ExactGlobal` | cmd/tturl/analyse_randomisation.go:127-161 | the count is the number of all assignments whose rank sums are at least as extreme as the observed ones, at least 1 and at most the orbit size |
| `Shuffle.ShuffleIsInjective` | cmd/tturl/analyse_randomisation.go:21-27 | different choice vectors give different permutations |
| `Shuffle.ShuffleIsSurjective` | cmd/tturl/analyse_randomisation.go:21-27 | every permutation comes from a choice vector |
| `Shuffle.ShuffleInPlace` | cmd/tturl/analyse_randomisation.go:21-27 | the array becomes the permutation of exactly the choices that the values of the source give, and the source keeps the rest |
| `Shuffle.EqualShares` | cmd/tturl/analyse_randomisation.go:29-37 | among the accepted 64-bit values every residue occurs equally often |
| `Shuffle.DrawIsFirstAccepted` | cmd/tturl/analyse_randomisation.go:29-37 | a draw is the first value that is not rejected, modulo the bound, and leaves the values after it |
| `Shuffle.Source.UniformBelow` | cmd/tturl/analyse_randomisation.go:29-37 | returns the first accepted value modulo the bound |
| `Shuffle.RandomAssignment` | cmd/tturl/analyse_randomisation.go:163-176 | one permutation per cycle, each from the choices that the values of the source give where the last one stopped |
| `SignFlip.WaysIsCount` | cmd/tturl/analyse_core.go:784-822 | the recurrence counts the sign vectors with a given sum |
| `SignFlip.Pass` | cmd/tturl/analyse_core.go:796-810 | one pass turns the distribution of n contributions into that of n + 1, with partial clearing and any sign or zero |
| `SignFlip.Distribution` | cmd/tturl/analyse_core.go:791-810 | after all passes each cell is the fraction of all sign vectors with that sum |
| `SignFlip.UpperBound` | cmd/tturl/analyse_core.go:825-838 | the exponential tail between the floor and one |
| `SignFlip.ExactCycleSign` | cmd/tturl/analyse_core.go:784-838 | the p-value is the brute-force two-sided fraction, positive and at most one; it is flagged as a bound iff that fraction is below the reporting floor, and a bound lies above the fraction and at most at the larger of the floor and the exponential tail |
| `RollingHash.RollIsHash` | cmd/tturl/bodydiff.go:346-353 | rolling gives the direct polynomial hash of the next window modulo 2^64 |
| `RollingHash.RollHashes` | cmd/tturl/bodydiff.go:330-354 | the hash of every window, left to right |
| `CommonSubstring.HashTable` | cmd/tturl/bodydiff.go:359-367 | the leftmost window of every hash |
| `CommonSubstring.CommonOfLength` | cmd/tturl/bodydiff.go:299-325 | something is found iff some window of the first body is the leftmost of its hash in every other body; what is found is real and the leftmost such window; equal bodies match at equal places |
| `CommonSubstring.ShorterIsCommon` | cmd/tturl/bodydiff.go:268-272 | feasibility is monotone in the length |
| `CommonSubstring.LongestCommonSubstring` | cmd/tturl/bodydiff.go:273-294 | a common substring of at least the minimal length or none, and the first of its length that the search can find; it has the longest length iff every length the search tries below it is found; without collisions it is the longest |
| `CommonSubstring.FirstIsLeftmost` | cmd/tturl/bodydiff.go:299-325 | without collisions that first one is the leftmost common one in the first body |
| `HashCollision.CollisionHidesCommon` | cmd/tturl/bodydiff.go:299-325 | two bodies with a common substring of nine bytes that the search at length nine misses |
| `HashCollision.MissesTheLongest` | cmd/tturl/bodydiff.go:273-294 | on these bodies the search does not return the longest length |
| `SegmentDiff.CommonPrefix` | cmd/tturl/bodydiff.go:230-246 | the longest common prefix |
| `SegmentDiff.CommonSuffix` | cmd/tturl/bodydiff.go:250-266 | the longest common suffix |
| `SegmentDiff.MiddleDiffers` | cmd/tturl/bodydiff.go:189-221 | what is left between them differs unless empty everywhere |
| `SegmentDiff.SplitRegion` | cmd/tturl/bodydiff.go:173-226 | terminates; the segments tile every body, anchors are identical, equal bodies get equal spans; every change region differs, has no common first or last byte, and within the scan limit holds no common substring of the minimal length unless a collision hides it; every cut is at the first of the longest common substrings unless a collision hides a longer one |
| `SegmentDiff.AnchorIsBest` | cmd/tturl/bodydiff.go:173-226 | without collisions no common substring of a cut region is longer than its anchor, and none as long begins further left in the first body |
| `SegmentDiff.NothingHidden` | cmd/tturl/bodydiff.go:273-294 | without collisions none is hidden |
| `SegmentDiff.Skeleton` | cmd/tturl/bodydiff.go:159-167 | the same for whole bodies |
| `SegmentDiff.EqualIffAgree` | cmd/tturl/bodydiff.go:143-155 | two bodies match on all change regions iff they are equal |
| `SegmentDiff.FirstDifference` | cmd/tturl/bodydiff.go:147-155 | the first differing region, or -1 iff there is none |
| `Digest.Render` | cmd/tturl/bodydiff.go:407-429 | the loop shows as many pieces, and as text, as the line is defined to |
| `Digest.ForcedAreShown` | cmd/tturl/bodydiff.go:409-417 | forced pieces are always shown |
| `Digest.ShownFills` | cmd/tturl/bodydiff.go:407-417 | past the first piece and the forced ones every shown piece ends within the limit, and the first hidden one would not |
| `Digest.ForcingGrows` | cmd/tturl/bodydiff.go:409-417 | forcing more never shows less |
| `Digest.Fix` | cmd/tturl/bodydiff.go:117-128 | only the two colliding lines are extended, up to their first difference; one of them shows strictly more, and the forced numbers grow |
| `Digest.Reconcile` | cmd/tturl/bodydiff.go:93-133 | terminates; then different safe bodies share a line only if both lines already show a region in which they differ; no line is forced beyond its first difference from some other safe body |
| `BaselineLookup.CapacityThrough` | cmd/tturl/detect_plan.go:155-167 | the number of controls in the layers up to this one |
| `BaselineLookup.FindLayer` | cmd/tturl/detect_plan.go:132-140 | the binary search finds the layer that holds the control |
| `BaselineLookup.EntryInLayer` | cmd/tturl/detect_plan.go:141-152 | the countdown finds the entry, and the end of the loop is never reached |
| `BaselineLookup.TemplateIndex` | cmd/tturl/detect_plan.go:111-153 | the control-th entry of the round-robin list, or an error exactly outside it |
| `BaselineLookup.ShareIsSupply` | cmd/tturl/detect_plan.go:111-167 | every template gets exactly its supply |
| `BaselineLookup.EndlessTurns` | cmd/tturl/detect_plan.go:118-120 | the unlimited case is the round-robin list of supplies that never run out |
| `Utf8.EncodeRunes` | cmd/tturl/json_encoding.go:45-50 | a valid text is the encoding of its runes |
| `Utf8.RunesOfEncoded` | cmd/tturl/json_encoding.go:45-50 | encoded runes are a valid text with those runes |
| `Base64.DecodeEncode` | cmd/tturl/json_encoding.go:39-42 | decoding undoes encoding |
| `JsonText.Escape` | cmd/tturl/json_encoding.go:45-86 | every escape is printable ASCII and does not start with a quote |
| `JsonText.AppendString` | cmd/tturl/json_encoding.go:45-75 | the loop appends the printed string |
| `JsonText.TokenRoundTrip` | cmd/tturl/json_encoding.go:45-86 | a printed rune is read back, with short escapes, code units and surrogate pairs |
| `JsonText.ParsePrinted` | cmd/tturl/json_encoding.go:45-75 | parsing a printed valid text gives it back |
| `WireString.MarkerIsMarkedEncoding` | cmd/tturl/json_encoding.go:33-43 | a text is a canonical marker iff it is the marked encoding of some bytes |
| `WireString.DecodedEncoded` | cmd/tturl/json_encoding.go:181-188 | decoding gives every byte string back |
| `WireString.EncodedInjective` | cmd/tturl/json_encoding.go:141-146 | encodings are equal iff the byte strings are |
| `WireString.MarshalRoundTrip` | cmd/tturl/json_encoding.go:17-23 | every byte string survives JSON, which is printable ASCII |
| `WireString.EncodeMap` | cmd/tturl/json_encoding.go:95-113 | distinct keys never collide |
| `WireString.DecodeMap` | cmd/tturl/json_encoding.go:190-201 | decoding the entries restores the map |

## Left out

- TLS, dialling, HPACK, the HTTP/2 framer and timers: frames, results and time are inputs.
- Response reading beyond credit (`responseBodyState.accept`, header projection, pings) and stream identifier allocation: only easy members.
- `sendBytesUpTo`: no modelled path calls it; only the debit it rests on, `Take`, is here.
- The lag filter of the scarce planner is a floating-point comparison; which streams lag is an arbitrary set.
- Automatic flushes of a full 128 KB write buffer: a record and its control frames are assumed to fit it.
- The order of the idle queue by time: entries are stamped before the lock is taken, so it is not strict, and nothing here needs it.
- ConnectionPool.OriginPool.SendBatch: one cutoff serves all its attempts, and the bound on retries assumes that no other caller returns connections meanwhile, because otherwise the code has no bound.
- BatchSend.SendWithBody: a record whose final flush fails partway counts as lost, although its bytes may have left; `RecordWriter` models what such a flush lets through.
- MeasureRun.Measure.Observe: connection numbers and the list of failed batches are not recorded, because they only accumulate.
- ExactTest.ExactGlobal: the statistic is an arbitrary real function of the rank sums, because its square roots are floating-point.
- SignFlip.ExactCycleSign: arithmetic is exact and the exponential is an arbitrary real function, because both are floating-point.
- Shuffle.Source.UniformBelow: the mixing function of the seeded generator is an arbitrary source of 64-bit values.
- Digest.Reconcile: the text of pieces, gaps and the count of hidden differences are inputs, because only their equality and length matter.
- WireString.EncodeMap: an object is a map; the order and punctuation of its printed members are not modelled.
- WireString.DecodeMap: it starts from the entries of the object, for the same reason.
- Evidence validation other than the layout of ranks, pair evidence, Holm's correction, the outlier solvers, `stats`, request padding and parsing, command wiring, reports and the demo server.
- Integer overflow of counters, indices and times beyond what is stated above.
