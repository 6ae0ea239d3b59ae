# Streaming seam and prepare/cancel protocol, verified

A Dafny model of the streaming seam in `crates/auqw-stream` and of the prepare, adopt and cancel
protocol that `crates/host-surface` runs over it. Together they are a concurrent sparse cache, the
fetch engine that fills it, the loopback server and the owners of its sessions. `dafny verify
dfyconfig.toml` checks everything.

Two kinds of module sit side by side. Object modules (`SparseStore`, `SessionObjects`, `Pump`,
`FetchPass`, `FetchCycle`, `PumpLoop`, `PumpRuns`, `Probe`, `RegistryObjects`, `HostObjects`, `Server`, `Connections`)
keep the form of the code: classes whose methods update their fields, and loops, each proved against what it
promises. Machine modules (`Seam*`, `Persist`, `Registry`, `Host*`, `Connections`, `Locks`) are
transition systems in which one action is one critical section (or one step between two), any number
of threads interleave freely, and the theorems hold in every state of every run. The two meet in the
pure step functions of `SessionState`, `Registry` and `Host`, which the methods are proved against and
the machines step by; `SessionInner.ReadPass` and `NextAction` equal the machine's own verdicts, and
`PumpRuns` takes what the pump's own code concludes about the end of stream for a step of the machine.

| module | models |
|---|---|
| `Extents`, `SparseStore` | the coalesced extent map, gap search, sidecar (`store.rs`) |
| `Text`, `Wire` | range headers on both sides (`fetch.rs`, `server.rs`, `pump.rs`) |
| `SessionState`, `SessionObjects` | one session's critical sections (`session.rs`) |
| `Seam`, `SeamDemand`, `SeamTruth`, `SeamRuns`, `SeamLatch`, `SeamDetach` | readers, pump, committers and teardowns of many sessions |
| `Fetch`, `Pump`, `FetchPass`, `FetchPolicy`, `FetchCycle`, `Mints`, `PumpLoop`, `PumpRuns`, `Probe` | one request, the cycle around it, the mint budgets and pins, the pump's loop and its runs, the probe |
| `Persist` | commit, persist worker, eviction and crash |
| `Registry`, `RegistryObjects` | coalesce, supersede, reap, claim, shutdown |
| `Host`, `HostObjects`, `HostOwnership`, `HostRuns`, `HostCancel`, `HostStones`, `HostDelivery`, `HostExample` | admission, tombstones, slots, tickets, generations, cancel |
| `Server`, `Connections` | replies, copy loop, connection counts |
| `Locks` | the nestings of every mutex |

## Assumptions the theorems name

- A 206 body is true to its declared range (`BodyTrueToRange`, `TrueReads`); nothing is assumed about
  framing, order, errors, overruns or shortfalls.
- End-of-stream soundness assumes an honest server and nothing of the client: the totals the server
  names are the true length, and a URL minted inside the current fetch cycle is refused 416 only at or
  past the end. `FetchChunk`, `PumpPass`, `RunPump` and `ProbeAt` derive from these that the total and the
  ceiling stay sound; `EofIsHonest` and `RefusalIsHonest` carry that over to `HonestRun`.
- `probe_bytes` and `chunk_bytes` are at least 1. `u64` is modelled by its range and by the saturating
  or checked operation the code uses.
- Cancel theorems are for ids started once, and for cancels whose first look comes after the start
  returned.

## Results that differ from the documentation

- The store promises that a persisted extent never names bytes the file does not hold. An eviction
  removes the data file before the sidecar, so a crash between the two leaves a sidecar without data.
  `SidecarNeverLies` proves that this is the only exception, as an if-and-only-if over every crash point,
  and `EvictWindowIsReachable` gives a run into it. (The next start's sweep deletes the pair either way.)
- A probe answered by a bare 416 reports end-of-stream even where bytes exist: a dead URL is enough.
  `EofClaimExact` proves that the claim is wrong exactly there, `DeadUrlReadsAsEnd` gives the input.
- An unranged reply whose settled total is zero (a re-mint can hint zero before any wire total) promises
  `Content-Length: 0` and then streams the resource. `LengthKept` proves that no other reply exceeds its
  length, `ZeroPromiseBroken` gives the input.
- A cancel promises that its session ends, is attached, or belongs to another id. `CancelNeverLost` and
  `TakenStaysKept` prove that this fails exactly when the consumer closes the session while no slot names
  it and nobody attaches, ends or commits it afterwards: then it is live, owned by nobody and free for
  the reaper. `ClosedAfterCancel` is such a run, and without a close the promise holds outright.

## Model

| member | source | states |
|---|---|---|
| SparseStore.SparseStore.Insert | crates/auqw-stream/src/store.rs:233-265 | coverage becomes exactly old ∪ [start, start+len) with the new bytes over it, sorted and coalesced; a torn write changes bytes but no coverage |
| SparseStore.Absorb | crates/auqw-stream/src/store.rs:247-262 | one absorb pass over the touched entries keeps the map sorted, non-empty, disjoint and non-adjacent and covers exactly the union |
| SparseStore.SparseStore.FirstGap | crates/auqw-stream/src/store.rs:269-285 | the cursor scan returns the least uncovered offset of the window, or none when it is covered |
| SparseStore.ScanGap | crates/auqw-stream/src/store.rs:269-285 | the loop behind it, from any cursor not preceded by a gap |
| Extents.GapIsLeast | crates/auqw-stream/src/store.rs:269-285 | the specification: in the window, uncovered, and everything before it covered; absent only if all is covered |
| Extents.CanonicalForm | crates/auqw-stream/src/store.rs:140-146 | two well-formed maps with the same coverage are the same map |
| SparseStore.SameContentSameSidecar | crates/auqw-stream/src/store.rs:332-350 | the order in which bytes arrived never shows in what is persisted |
| SparseStore.SparseStore.ReadAt | crates/auqw-stream/src/store.rs:202-229 | serves the maximal covered run at the position, capped by the request and the read limit, errors only when uncovered or on I/O |
| SparseStore.SparseStore.Covers | crates/auqw-stream/src/store.rs:184-189 | true exactly on covered offsets |
| SparseStore.SparseStore.ExtentEnd | crates/auqw-stream/src/store.rs:192-197 | the first uncovered offset after a covered position |
| SparseStore.ServeMatchesExtent | crates/auqw-stream/src/store.rs:202-229 | the extent's end and the plain byte map agree on how much can be served |
| SparseStore.LoadSidecar | crates/auqw-stream/src/store.rs:101-121 | the one-pass validation accepts exactly the ordered, non-empty, disjoint maps inside the wire total |
| SparseStore.WellFormedLoads | crates/auqw-stream/src/store.rs:101-121 | every map the store can hold inside its wire total loads back, whatever the hint |
| SparseStore.SparseStore.HeadCovered | crates/auqw-stream/src/store.rs:289-291 | exactly when every offset below the bound is covered |
| SparseStore.ContentAfterWrite | crates/auqw-stream/src/store.rs:239-262 | a write followed by the extent merge is the old bytes with the new ones over them |
| SparseStore.ContentAfterTornWrite | crates/auqw-stream/src/store.rs:239-246 | a failed write may change covered bytes it reached and nothing else |
| SparseStore.SparseStore.PersistJob | crates/auqw-stream/src/store.rs:332-350 | the snapshot claims the extents as they stand, changes no content, and nothing is due afterwards |
| Wire.RequestRoundTrip | crates/auqw-stream/src/fetch.rs:254-256 | the printed Range header parses to the interval asked for |
| Wire.IntervalRoundTrip | crates/auqw-stream/src/server.rs:357-384 | `bytes=a-b` reads as exactly that interval, reversed as invalid |
| Wire.FromRoundTrip | crates/auqw-stream/src/server.rs:374-377 | `bytes=s-` reads as from s on |
| Wire.SuffixRoundTrip | crates/auqw-stream/src/server.rs:370-373 | `bytes=-n` reads as the last n, and as invalid for none |
| Wire.ListIsInvalid | crates/auqw-stream/src/server.rs:365-368 | a list of ranges is invalid whatever it lists |
| Wire.MalformedIsInvalid | crates/auqw-stream/src/server.rs:369-383 | a number without a dash and a dash without a number are invalid |
| Wire.OversizeIsInvalid | crates/auqw-stream/src/server.rs:369-383 | so is a number past 64 bits on either side |
| Wire.OtherUnitIgnored | crates/auqw-stream/src/server.rs:357-363 | any other unit is no range at all |
| Wire.UnitCaseIgnored | crates/auqw-stream/src/server.rs:357-363 | the unit's case does not matter |
| Wire.SpacesIgnored | crates/auqw-stream/src/server.rs:357-384 | nor does white space around the unit and the range |
| Wire.ResolveExact | crates/auqw-stream/src/server.rs:550-575 | resolution succeeds exactly when the range selects something of a known total, and its bounds are precisely what it selects; otherwise 416 |
| Wire.ContentRangeRoundTrip | crates/auqw-stream/src/pump.rs:595-625 | a printed Content-Range parses back to its three numbers |
| Wire.UnsatisfiedRoundTrip | crates/auqw-stream/src/pump.rs:579-590 | `bytes */t` parses back to t, and `*` to unknown |
| Wire.WireRoundTrip | crates/auqw-stream/src/pump.rs:536-574 | header printed, parsed, resolved, answered and validated: accepted with declared = min(len, t - offset) for every offset < t |
| Wire.AcceptedHead | crates/auqw-stream/src/pump.rs:536-574 | whatever text is accepted starts at the request, fits it, stays below any reported total and never moves a known one |
| Wire.HeadExact | crates/auqw-stream/src/pump.rs:536-574 | a readable head is accepted exactly if it starts at the request, fits it, ends below the total it reports and does not move a known one |
| Wire.UnknownTotalRoundTrip | crates/auqw-stream/src/pump.rs:595-625 | a starred total reads back as unknown |
| Text.DecRoundTrip | crates/auqw-stream/src/pump.rs:609-616 | printing and reading a u64 is the identity under both parsers' rules |
| Text.PlusTolerated | crates/auqw-stream/src/pump.rs:609-616 | the server's numbers tolerate a leading plus, the pump's do not |
| Fetch.StreamBody | crates/auqw-stream/src/fetch.rs:337-394 | the body stream ends with its first error or one byte past the request |
| Fetch.CapIsInvisible | crates/auqw-stream/src/fetch.rs:337-394 | the cap never changes the pump's verdict nor the bytes it takes, for any declared length the request allows |
| Fetch.RedirectInScope | crates/auqw-stream/src/fetch.rs:220-237 | the label walk accepts exactly the mint host, its subdomains and siblings under an edge zone above it |
| SessionState.LifeStaysSane | crates/auqw-stream/src/session.rs:320-369 | lifecycle operations keep abandoned ⇒ attached ⇒ ever attached, and never revive an ended session |
| SessionState.DecisionsAreUseful | crates/auqw-stream/src/session.rs:733-821 | every fetch decided starts uncovered, below the ceiling, inside its window, and asks for at least one byte |
| SessionState.DecisionIsPrescribed | crates/auqw-stream/src/session.rs:733-821 | the decision in offsets and fields: stop on a dead session or whole file, rest on a latch, least fetchable demand first, yield, else the least hole within read-ahead of the consumer (or of the head while detached) below total and ceiling, and rest exactly if there is none; the length reaches to that bound or the probe or chunk limit |
| SessionState.OnlyOnePrescribed | crates/auqw-stream/src/session.rs:733-821 | and no other decision is prescribed |
| SessionState.FillShrinks | crates/auqw-stream/src/session.rs:801-813 | covering an offset takes one hole out of every window it was a hole of and adds none to any |
| SessionObjects.SessionInner.constructor | crates/auqw-stream/src/session.rs:225-290 | a new session is detached, unowned, empty, with no mint spent |
| SessionObjects.SessionInner.PublishDemand | crates/auqw-stream/src/session.rs:1124-1134 | the pool counter moves by the queue-size difference, with a drain notify on reaching zero |
| SessionObjects.SessionInner.QueueThrough | crates/auqw-stream/src/session.rs:1071-1083 | one more hold on the position, the read position at or past it; only a fresh one publishes and signals |
| SessionObjects.SessionInner.DropThrough | crates/auqw-stream/src/session.rs:1088-1100 | one hold less; only the last dequeues and republishes |
| SessionObjects.SessionInner.MarkEofBelow | crates/auqw-stream/src/session.rs:696-706 | the ceiling only falls, demand at or past it is forgotten and published, readers and pump notified |
| SessionObjects.SessionInner.RetainUncovered | crates/auqw-stream/src/session.rs:764-767 | the queue keeps exactly the uncovered positions below the ceiling |
| SessionObjects.SessionInner.TerminateIf | crates/auqw-stream/src/session.rs:394-424 | only under the condition, first error wins: demand drained and published, files evicted, the cancel token fired, the pump aborted, one notify; otherwise nothing |
| SessionObjects.SessionInner.ClaimIfLive | crates/auqw-stream/src/session.rs:332-340 | claims exactly a live session |
| SessionObjects.SessionInner.Abandon | crates/auqw-stream/src/session.rs:353-369 | whatever attaches win its races: it ends on a live session only when that session is attached and marked, else the session has ended Cancelled with its demand drained and its files gone |
| SessionObjects.AbandonYields | crates/auqw-stream/src/session.rs:353-369 | a rival that stays attached keeps the session alive and marked; one that leaves again is as if it had come and gone before the cancel |
| SessionObjects.SessionInner.Attach | crates/auqw-stream/src/session.rs:850-875 | dead: its error; stale first attach: ends Expired; else attached, latch cleared, remaining length reported |
| SessionObjects.SessionInner.Close | crates/auqw-stream/src/session.rs:907-937 | a real detach bumps the epoch, drops an abandoned claim and notifies; otherwise nothing |
| SessionObjects.SessionInner.StallTransient | crates/auqw-stream/src/session.rs:678-690 | latches the error on a live session only |
| SessionObjects.SessionInner.SetCooldown | crates/auqw-stream/src/session.rs:713-718 | a cooldown only ever extends |
| SessionObjects.SessionInner.ReadPass | crates/auqw-stream/src/session.rs:961-984 | one pass of the read loop, field by field: terminal error, detach, bytes (the read position follows), end, or the latch, which is taken with a permit for the pump; it is the transition system's step |
| SessionObjects.SessionInner.Commit | crates/auqw-stream/src/session.rs:564-592 | store first; the counter and notify only on a live session; the head mark is set once, by the first commit that finds the head covered; the persist kick is asked for exactly then, before the first flush, or once 2 MiB are dirty; a failed write commits nothing |
| SessionObjects.SessionInner.NextAction | crates/auqw-stream/src/session.rs:733-821 | the prescribed decision, told in offsets and fields, and the transition system's; a detached session with nothing left to fetch is marked head-ready |
| SessionObjects.SessionInner.WholeFile | crates/auqw-stream/src/session.rs:749-752 | true exactly when the wire total is known and everything below it covered |
| SessionObjects.SessionInner.FillOrPark | crates/auqw-stream/src/session.rs:784-820 | the fill half: the least hole in reach, or rest exactly if there is none |
| SessionObjects.SessionInner.BeginMint | crates/auqw-stream/src/session.rs:476-499 | granted exactly while the budgets last, and both advance as the pure step does |
| SessionObjects.MintGranted | crates/auqw-stream/src/session.rs:476-499 | a mint is granted exactly if some are left and the last ones were not too many in a row without a byte; it is booked at the count it found |
| SeamDemand.ActKeeps | crates/auqw-stream/src/session.rs:949-1011 | every critical section keeps lock, demand, wake and stop invariants of a session |
| SeamRuns.NoDemandLostOrLeaked | crates/auqw-stream/src/session.rs:1071-1134 | in every reachable state a queued position counts its holders, an absent one is held by none or answerable; published = queue size, dead sessions publish zero, the pool is the sum |
| SeamRuns.NoLostWakeup | crates/auqw-stream/src/session.rs:961-1006 | a parked reader with anything to learn has a notify to come, a pump parked on drained demand a wake, and no pump rests on its own session's unlatched demand without a permit |
| SeamDetach.NotifyWakes | crates/auqw-stream/src/session.rs:1000-1006 | a notify wakes every parked reader, which can look again |
| SeamDetach.PumpWakes | crates/auqw-stream/src/pump.rs:48-72 | a permit, a drain, or the end of the session wakes a pump that rests, at every point of the drain park |
| SeamDetach.DetachEndsReads | crates/auqw-stream/src/session.rs:907-937 | in every run, a close ends every read of the attachment it closes: the next time it looks it is told Cancelled, or the session's terminal error |
| SeamDetach.ExpiredRead | crates/auqw-stream/src/session.rs:986-1006 | a read that outlives its patience fails as Transient and gives its hold back |
| SeamLatch.PassOnFields | crates/auqw-stream/src/session.rs:961-984 | what a pass finds and leaves, case by case |
| SeamLatch.LatchAnswersOnce | crates/auqw-stream/src/session.rs:973-981 | in every run a latched error answers at most one reader between two stalls |
| SeamLatch.RetriedAfterLatch | crates/auqw-stream/src/session.rs:973-1006 | and the next read then queues its position and sends a pump parked on the latch to fetch the least one queued |
| SeamRuns.ServedBytesAreTrue | crates/auqw-stream/src/session.rs:1045-1067 | over all runs every covered offset holds the resource's byte and every answer is a slice of it where asked |
| SeamTruth.PeekIsTrue | crates/auqw-stream/src/session.rs:1020-1040 | a peek answers with a true slice, or empty only at or past the end |
| SeamRuns.EofIsSound | crates/auqw-stream/src/session.rs:1059-1066 | against a server that names true totals and whose re-minted URLs refuse only at or past the end, an empty answer is only given at or past the end, whatever the hint |
| SeamRuns.EofIsFinal | crates/auqw-stream/src/session.rs:696-706 | the ceiling never rises in any run |
| SeamTruth.NoFetchPastCeiling | crates/auqw-stream/src/session.rs:761-813 | no decision under a ceiling fetches at or past it |
| SeamRuns.CeilingBoundsTheRun | crates/auqw-stream/src/session.rs:761-813 | once a ceiling is set no later decision fetches at or past it |
| SeamTruth.KnowledgeOnlyGrows | crates/auqw-stream/src/session.rs:564-592 | no step uncovers an offset, moves a known total or raises the ceiling |
| SeamTruth.StoppedPumpAnswersAll | crates/auqw-stream/src/session.rs:749-760 | after a live Stop every fresh read is answered on the spot, from the store or as end-of-stream |
| Pump.DriveFetch | crates/auqw-stream/src/pump.rs:135-197 | the response's verdict, exactly; commits only inside the range, all of the declared span on success, keeps a true store true; any other status changes nothing |
| Pump.CommitBody | crates/auqw-stream/src/pump.rs:173-196 | exactly the bytes received inside the declared span land; the result is the body's verdict, and success means it arrived whole at exactly that length |
| Pump.CleanBodyAccepted | crates/auqw-stream/src/pump.rs:173-196 | a body that arrives whole at the declared length onto a working disk is accepted |
| Pump.BreakIsOwnError | crates/auqw-stream/src/pump.rs:175-190 | a body that breaks within its span fails with its own error |
| Pump.WrongLengthRefused | crates/auqw-stream/src/pump.rs:173-196 | one that delivers more or less than declared is an invalid response |
| Pump.DiskFaultIsInternal | crates/auqw-stream/src/pump.rs:175-190 | a failed write of wanted bytes is an internal error |
| Pump.TakePiece | crates/auqw-stream/src/pump.rs:175-190 | at most the room left of the span is committed; a broken stream, a failed write and an overrun each end the request with their own error |
| Pump.CommitPiece | crates/auqw-stream/src/session.rs:564-592 | a piece lands whole with the byte counter of a live session, or not at all, and keeps a true store true |
| Pump.HeadMeans | crates/auqw-stream/src/pump.rs:536-574 | an accepted head fixes where every later byte belongs |
| FetchCycle.FetchChunk | crates/auqw-stream/src/pump.rs:277-386 | terminates under any server and any acts of the other legs between its sections; requests ≤ (retries+1)(remaining mints+1), remints ≤ remaining mints; every request is for the same range, none before the deadline it owed; every answer is followed by what the policy prescribes (`Policed`); true totals named and honest refusals keep the total and the ceiling sound and put an end-of-stream verdict at or past the end; truth, coverage, cooldown, ceiling and totals only move one way |
| FetchCycle.CycleIsPoliced | crates/auqw-stream/src/pump.rs:277-386 | over a whole cycle, in its requests, the script and the budgets: a request answered 403, or a bare 416 that nothing confirms yet, is followed by a pass under the next mint with every retry back, unless the mint budgets are spent or that mint fails, hangs, is cancelled or drifts, and then that is the outcome; a transient failure is followed by a pass under the same mint while retries last |
| FetchPolicy.PassPolicy | crates/auqw-stream/src/pump.rs:286-385 | for every state a pass may find, every answer of wire, host and clocks, and every status: what comes of the pass |
| FetchPass.Attempt | crates/auqw-stream/src/pump.rs:286-385 | one pass pays a retry or a mint, or ends with the prescribed verdict, justified by what the wire answered |
| FetchPass.Exchange | crates/auqw-stream/src/pump.rs:301-384 | the request of a pass and its dispatch, from the state in which the answer found the session |
| FetchPass.Settle | crates/auqw-stream/src/pump.rs:311-384 | the dispatch of an answer: body, 416, 403, retriable, rate-limited (exactly its capped window staked) and terminal statuses |
| FetchPass.Refused | crates/auqw-stream/src/pump.rs:322-351 | a 416 with a total installs it and its ceiling or is a contradiction; a bare one settles only after a fresh mint or past the wire total |
| FetchPass.RetryOrStall | crates/auqw-stream/src/pump.rs:413-448 | transient retries while budget lasts, a rate limit stakes exactly its window up to the cap and never shortens a longer one, and latches; the rest is terminal |
| FetchPass.Remint | crates/auqw-stream/src/pump.rs:511-530 | the host is called exactly when the budgets allow, each call costs one; a hung resolve is network wobble, a cancelled one ends the cycle, and only a source that keeps the pins is adopted |
| FetchPass.FinishMint | crates/auqw-stream/src/session.rs:506-549 | track, provider and container must be the pinned ones and a named encode never changes; only then are the encode and the hint adopted |
| FetchPass.Depart | crates/auqw-stream/src/pump.rs:287-300 | no request leaves a session found dead or inside the cooldown looked up, whatever other legs do before, between the two looks and during the sleep; only a fill yields |
| FetchPass.LetOthersRun | crates/auqw-stream/src/session.rs:320-940 | any sections of other legs (commits, totals, ceilings, teardowns, cooldowns, demand, reads, attach, close, claim, abandon) only move a session on, and it learns no total or ceiling the wire did not name |
| FetchPass.Send | crates/auqw-stream/src/pump.rs:301-317 | a preempted or cancelled request keeps only true pieces, a demand leg is never preempted |
| FetchPass.ClassifyStatus | crates/auqw-stream/src/pump.rs:632-651 | retriable exactly for 408, 425, 429 and outside 200..499 |
| FetchCycle.EofVerdictIsSound | crates/auqw-stream/src/pump.rs:454-462 | with sound beliefs and honest refusals of re-minted URLs an end-of-stream outcome names a position at or past the end |
| FetchCycle.EofIsSound | crates/auqw-stream/src/pump.rs:322-351 | the same from before the cycle: sound beliefs at its start and true totals named during it are enough |
| Mints.MintBudgetHolds | crates/auqw-stream/src/session.rs:476-499 | over any run of attempts remint is called at most as often as the budget allows |
| Mints.GrantedExactly | crates/auqw-stream/src/session.rs:476-499 | a new session's attempt is granted exactly while it is within the total and its run of attempts without a byte is within the other budget |
| Mints.ZeroProgressBounded | crates/auqw-stream/src/session.rs:479-490 | anywhere in any run at most max_zero_progress_mints + 1 mints in a row pass with no byte committed |
| Mints.PinsNeverDrift | crates/auqw-stream/src/session.rs:501-531 | a run of re-mints is adopted exactly if every answer is the pinned track, provider and container and no named encode ever changes |
| PumpLoop.PumpPass | crates/auqw-stream/src/pump.rs:44-90 | one turn of the loop with other legs acting around it: the prescribed decision on the state it found, a justified outcome applied, stop only when dead or whole; the requests sent and the totals heard are returned, and honest ones keep total and ceiling sound |
| PumpLoop.Decide | crates/auqw-stream/src/session.rs:733-821 | the decision, which touches only the demand queue and is useful |
| PumpLoop.Apply | crates/auqw-stream/src/pump.rs:77-87 | each outcome's effect on the session; only a failure ends the pump |
| PumpLoop.AwaitFetch | crates/auqw-stream/src/pump.rs:206-272 | the wait ends at exactly the first pass that preempts, finishes or is cancelled; a queued position outside the range preempts a fill at once; a demand leg is never preempted |
| PumpLoop.HungOnly | crates/auqw-stream/src/pump.rs:232-266 | a fill is preempted by demand inside its range only after every check of a whole stall budget saw such demand, and only while some is live |
| PumpLoop.HungIsPreempted | crates/auqw-stream/src/pump.rs:235-266 | and a fill is preempted once its timer comes due after every check of a stall budget saw live demand |
| PumpLoop.RidingIsUnbroken | crates/auqw-stream/src/pump.rs:235-242 | the timer stays armed only across checks that saw in-range demand |
| PumpRuns.RunPump | crates/auqw-stream/src/pump.rs:44-90 | any number of turns: the loop ends on its own only on a dead session or a whole file; every turn that fetched bytes took a hole of its own out of every window it started in; honest refusals and true totals keep the session's beliefs sound throughout |
| PumpRuns.FillRunIsFinite | crates/auqw-stream/src/pump.rs:44-90 | a run whose every turn fetches into one window is no longer than the window had holes |
| PumpRuns.EofIsHonest | crates/auqw-stream/src/pump.rs:77-80 | the end-of-stream a cycle concluded, applied, is an enabled step of the transition system that sets the same ceiling, and an honest one when its refusals were |
| PumpRuns.RefusalIsHonest | crates/auqw-stream/src/pump.rs:322-345 | so is a refusal that names a total: its two steps are enabled, set that total and ceiling, and are honest when the total is true |
| Probe.Peek | crates/auqw-stream/src/session.rs:1020-1040 | a hit, a wire-confirmed end, a hole or the terminal error |
| Probe.ProbeAt | crates/auqw-stream/src/registry.rs:404-514 | every branch: dead, committed, known end, no fetch wanted, inside a cooldown, or the one request; leaves liveness, position and latch alone, claims the end exactly when `EofClaim` says, and keeps total and ceiling sound when the total it is told is true |
| Probe.ProbeWire | crates/auqw-stream/src/registry.rs:437-513 | exactly which answer becomes committed bytes, a pinned ceiling, a bare refusal claimed as the end, or which typed error; a rate limit stakes its capped window; a true total keeps total and ceiling sound |
| Probe.EofClaimExact | crates/auqw-stream/src/registry.rs:467-490 | with sound beliefs and an honest wire, what was known proves the end, and the probe's answer claims it below the end exactly on a bare refusal |
| Probe.DeadUrlReadsAsEnd | crates/auqw-stream/src/registry.rs:482-490 | inside any resource, where nothing is covered or known, a bare refusal makes the probe report the end |
| Persist.SidecarNeverLies | crates/auqw-stream/src/store.rs:397-414 | at every crash point the sidecar names only durable, true bytes, except exactly between an eviction's first two unlinks |
| Persist.EvictWindowIsReachable | crates/auqw-stream/src/store.rs:54-58 | a run into that window |
| Persist.NothingResurrects | crates/auqw-stream/src/session.rs:394-415 | once evicted, no worker step or late commit brings a file back |
| Persist.FlushNeverLost | crates/auqw-stream/src/session.rs:600-669 | a live, due store with bytes has a worker running unless some thread is mid-kick |
| Persist.FlushedIsPersisted | crates/auqw-stream/src/session.rs:600-669 | a flush that comes through leaves a sidecar naming exactly what was covered at its snapshot, all of it durable |
| Persist.ActKeeps | crates/auqw-stream/src/session.rs:600-669 | every commit, kick, worker, eviction and flush step keeps the durability invariants |
| Registry.ActKeeps | crates/auqw-stream/src/registry.rs:221-320 | every step of prepare, adoption, scan, reaper, shutdown and every session's own keeps the registry invariants |
| Registry.AtMostOneFresh | crates/auqw-stream/src/registry.rs:221-293 | at most one live session was never attached and never claimed, over all interleavings |
| Registry.ReturnsAreSound | crates/auqw-stream/src/registry.rs:768-802 | what prepare or adoption returned is for the key asked, and its superseded list is all dead and without it |
| Registry.RacingOwnerWins | crates/auqw-stream/src/registry.rs:768-802 | over every way from a scan to its return: a doomed session is struck exactly once, the returned list names it exactly if nobody owned it alive at its strike, and if somebody did no step of the scan ever changed it |
| Registry.DeadAreReported | crates/auqw-stream/src/registry.rs:768-802 | whatever was dead in the map when a scan began, but the survivor, is gone from it and on the list on return, whatever happens meanwhile |
| Registry.ReaperSparesAttached | crates/auqw-stream/src/registry.rs:836-857 | the reaper's recheck never evicts an attached session |
| Registry.ShutdownIsFinal | crates/auqw-stream/src/registry.rs:635-655 | after a completed shutdown no session is ever live again |
| Registry.LiveIsFindable | crates/auqw-stream/src/registry.rs:283-293 | a live session is in the map once its prepare inserted it |
| RegistryObjects.StreamRegistry.SupersedeUnattached | crates/auqw-stream/src/registry.rs:768-802 | the scan ends exactly the unowned, prunes exactly the dead, and reports exactly both |
| RegistryObjects.StreamRegistry.Retain | crates/auqw-stream/src/registry.rs:781-789 | prunes exactly the dead entries but the survivor's, and names them |
| RegistryObjects.StreamRegistry.StrikeAll | crates/auqw-stream/src/registry.rs:791-799 | ends the doomed and reports those that ended |
| RegistryObjects.StreamRegistry.PrepareTimed | crates/auqw-stream/src/registry.rs:221-293 | coalesces onto a session of the key that is live, detached for less than the ttl and whose URL outlasts the margin, or else every session fails one of these and a new one is minted; afterwards the returned session is the only unowned one and every owned one is untouched |
| RegistryObjects.UpToDateOrPassedOver | crates/auqw-stream/src/registry.rs:717-753 | a candidate is exactly what the clocks say, and having none means every session failed one test |
| RegistryObjects.CandidateIsReusable | crates/auqw-stream/src/registry.rs:717-753 | what the object takes for a candidate is what the transition system may reuse, once the clocks agree |
| RegistryObjects.StreamRegistry.FindReusable | crates/auqw-stream/src/registry.rs:717-753 | finds a live, unattached session of the key, within the ttl and outside the expiry margin, or there is none |
| RegistryObjects.StreamRegistry.AdoptReusable | crates/auqw-stream/src/registry.rs:306-320 | the same without minting; a miss changes nothing |
| RegistryObjects.StreamRegistry.ReapPass | crates/auqw-stream/src/registry.rs:826-858 | exactly the live sessions detached past the ttl end Evicted and leave the map; nothing else changes |
| RegistryObjects.StreamRegistry.Shutdown | crates/auqw-stream/src/registry.rs:635-655 | ends every session and raises the flag |
| HostObjects.PluginHost.BeginAdmission | crates/host-surface/src/lib.rs:916-965 | admits exactly when no live slot and no unspent entry owns the id; consumes its tombstone, honoured unless expired; slots, entries and tombstones move as in the transition system's step, which enters its next state with exactly this verdict |
| HostObjects.PluginHost.RetainLive | crates/host-surface/src/lib.rs:922-924 | drops exactly the slots of dead sessions |
| HostObjects.PluginHost.CommitDelivery | crates/host-surface/src/stream.rs:566-643 | owns exactly when live and not cancelled: claimed, slotted and counted at once; otherwise the tombstone is spent; every map moves as in the transition system's steps |
| HostObjects.PluginHost.CommitSlot | crates/host-surface/src/stream.rs:429-447 | the claim is the liveness check and precedes the slot |
| HostObjects.PluginHost.FlipDelivered | crates/host-surface/src/stream.rs:673-688 | marks only the slot of its own generation |
| HostObjects.PluginHost.TrackDelivery | crates/host-surface/src/lib.rs:359-367 | one more ticket for the id |
| HostObjects.PluginHost.DropTicket | crates/host-surface/src/lib.rs:390-402 | one ticket less, the last removes the entry |
| HostObjects.PluginHost.SpendToken | crates/host-surface/src/lib.rs:776-795 | spends the token of whatever owns the id unless it is a settled generic, and decides on a tombstone |
| HostObjects.PluginHost.TakeSlot | crates/host-surface/src/lib.rs:818-845 | removes the slot and abandons the session exactly if no other slot names it, as the transition system's take does |
| HostObjects.PluginHost.LeaveStone | crates/host-surface/src/lib.rs:855-866 | sweeps expired tombstones and leaves one under the cap |
| HostObjects.PluginHost.StreamRelease | crates/host-surface/src/stream.rs:927-933 | the session has ended before its slots go |
| HostObjects.PluginHost.InsertLive | crates/host-surface/src/lib.rs:1050-1072 | the invocation's entry under a fresh generation, pre-cancelled by a tombstone |
| HostObjects.PluginHost.CancelIfUnattached | crates/auqw-stream/src/registry.rs:596-601 | ends only an unattached, unclaimed session |
| HostObjects.PluginHost.SettleInvocation | crates/host-surface/src/lib.rs:1098-1102 | marks the id's entry settled |
| HostObjects.PluginHost.Cleanup | crates/host-surface/src/lib.rs:1104-1111 | removes only the entry of its own generation |
| HostOwnership.StepTasksOk | crates/host-surface/src/stream.rs:355-809 | every step of a request keeps generations, entries and slots with the one request that made them |
| HostOwnership.StepSlotsOk | crates/host-surface/src/stream.rs:602-641 | every slot's live session stays claimed, and its committer is known |
| HostRuns.ActKeeps | crates/host-surface/src/lib.rs:776-866 | every step of every request, cancel, session and release keeps the ownership invariant |
| HostRuns.OwnedExactlyWhileNamed | crates/host-surface/src/lib.rs:818-845 | a live session is claimed and unabandoned exactly while a slot names it; abandoned implies attached |
| HostRuns.OwnedSurvivesOthers | crates/auqw-stream/src/registry.rs:596-601 | no unattached-only teardown and no other id's cancel changes an owned session |
| HostRuns.UndeliveredIsCounted | crates/host-surface/src/lib.rs:341-367 | an undelivered slot's own generation holds a counted ticket |
| HostRuns.IdleMeansFlipped | crates/host-surface/src/lib.rs:372-382 | a cancel back from the idle wait finds no slot mid-delivery |
| HostRuns.OneUnsettled | crates/host-surface/src/lib.rs:934-947 | at most one unsettled invocation per id, however ids are re-admitted |
| HostRuns.FlipsOwnOnly | crates/host-surface/src/stream.rs:769-781 | a post-delivery flip marks only the slot its request committed |
| HostRuns.CleansOwnOnly | crates/host-surface/src/lib.rs:1093-1111 | settling (which ignores generations) and cleaning up touch only their own entry |
| HostCancel.CancelNeverLost | crates/host-surface/src/lib.rs:776-866 | after a cancel and its delivery the id has no slot, and the outcome was a failure or its session has ended, is attached, or is owned by another id, unless and only unless a close while no slot named it was the last that happened to it |
| HostCancel.TakenStaysKept | crates/host-surface/src/lib.rs:776-866 | from the moment the cancel takes the slot, over every continuation: the same guarantee holds if and only if no such close ends the story, and outright when nobody closes the session |
| HostCancel.RunStrays | crates/auqw-stream/src/session.rs:320-369 | over any run a session ends live, detached and unclaimed exactly if it was and nobody took it up, or was closed for good while no slot named it, or was created and never taken up |
| HostCancel.TakeLeavesNoOrphan | crates/host-surface/src/lib.rs:818-845 | at the take a session left live is attached and marked, or another slot owns it |
| HostExample.ClosedAfterCancel | crates/auqw-stream/src/session.rs:907-921 | a run into that exception: cancelled, delivered, then closed for good; live, detached, unclaimed and in no slot |
| HostCancel.CancelSparesDeliveries | crates/host-surface/src/lib.rs:804-817 | a cancel never ends a session between its slot commit and the outcome on the wire |
| HostCancel.FirstLook | crates/host-surface/src/lib.rs:776-795 | after a cancel's first look no commit can follow it |
| HostStones.CancelBeforeStart | crates/host-surface/src/lib.rs:742-866 | a cancel that found nothing delivered and left its tombstone decides the next start of the id: as long as the tombstone stands, it is refused as a duplicate or fails, owning, claiming and delivering nothing |
| HostStones.TombstonedFails | crates/host-surface/src/stream.rs:422-426 | over every run, a prepare admitted against a tombstone commits nothing, owns no slot, claims no session and can only answer that it failed |
| HostStones.ResolveFailsForGood | crates/host-surface/src/stream.rs:566-643 | so does one whose resolve returns to a tombstone, an empty result, a spent token or a dead session |
| HostStones.DroppedIsEnded | crates/host-surface/src/stream.rs:645-672 | and the session it had minted ends unless somebody attached or claimed it |
| HostDelivery.CommitIsDue | crates/host-surface/src/stream.rs:429-447 | a warm session is adopted and a resolve delivered exactly if the session lives and no cancel spent the token |
| HostDelivery.CommittedIsDelivered | crates/host-surface/src/stream.rs:769-809 | over every run whoever commits delivers its session, or fails after that session ended |
| HostDelivery.GenericAnswers | crates/host-surface/src/lib.rs:1050-1111 | a finished generic invocation answered with its result, and one started against a tombstone runs under a spent token |
| Server.Respond | crates/auqw-stream/src/server.rs:615-851 | the exact reply by verb, grant, liveness and range for every request turned away and every HEAD; a body only on a GET that is not, and then exactly the bytes the header asked for on the freshest total; no body after a head that could not be written |
| Server.FaithfulSpans | crates/auqw-stream/src/server.rs:550-613 | a 206 serves, in the request's own numbers, s to the end, the last n, or a to min(b, end), under exactly that Content-Range and length |
| Server.FaithfulPlain | crates/auqw-stream/src/server.rs:580-613 | a plain reply promises the whole total and sends the resource from its first byte |
| Server.OpenIsServed | crates/auqw-stream/src/server.rs:615-810 | through a seam that hides nothing, no request that asks for something is turned away |
| Server.Get | crates/auqw-stream/src/server.rs:724-810 | the probe read, re-resolution and re-read: 200 or 206 replies advertise exactly the resolved bounds, 206 never without bytes |
| Server.Stream | crates/auqw-stream/src/server.rs:805-850 | the copy loop terminates and sends a prefix of the span, all of it when no read and no write fails |
| Server.LengthKept | crates/auqw-stream/src/server.rs:580-613 | the advertised length is never exceeded except by an unranged reply with settled total zero |
| Server.ZeroPromiseBroken | crates/auqw-stream/src/server.rs:595-612 | a one-byte resource served under a promised length of zero |
| Server.BoundsOrdered | crates/auqw-stream/src/server.rs:550-575 | resolved bounds are ordered and inside the total |
| Connections.CountIsHolders | crates/auqw-stream/src/server.rs:487-501 | each handle's count is the number of open connections holding it |
| Connections.ClosesExactlyAtLast | crates/auqw-stream/src/server.rs:514-546 | an ending connection closes the session exactly when no other holds it |
| Connections.ParkedReadUndisturbed | crates/auqw-stream/src/session.rs:954-967 | while a connection holds a session its detach epoch never moves, whatever siblings do |
| Connections.LoopbackShared.AttachCounted | crates/auqw-stream/src/server.rs:487-492 | counts exactly the attaches the registry lets through |
| Connections.LoopbackShared.ConnDropped | crates/auqw-stream/src/server.rs:514-546 | the decrement or removal, and the close at the last |
| Locks.NestingClimbs | crates/auqw-stream/src/session.rs:5-16 | every nesting the code takes climbs one order over all its mutexes |
| Locks.NoWaitCycle | crates/auqw-stream/src/session.rs:5-16 | no set of threads ever waits in a circle |
| Locks.SomeoneMoves | crates/auqw-stream/src/session.rs:5-16 | a blocked thread always leads to one that can move; a condvar waiter is never waited for |

## Left out

- Message texts of errors, JSON, file names and the header block of a reply: not part of the protocol.
- Lock poisoning and panicking callbacks.
- Real clocks: instants are naturals, and a wait ends when the environment says so.
- Unicode white space in header values: `Trim` knows ASCII only.
- URLs, fetch headers, bitrate and timing marks of a source: a re-mint replaces them without a check.
- The `committed` counter does not overflow.
- Directory operations (create, rename, unlink) are durable in program order; only file contents may be lost in a crash.
- Read deadlines are modelled as a reader that may expire at any park.
- HostCancel.CancelNeverLost: ids started more than once, and cancels that overlap the start; such a cancel may land on another generation or leave only a late tombstone.
- SeamRuns.NoLostWakeup: learning a wire total alone notifies nobody in the code, so a reader parked past it waits for the commit or ceiling that follows; totals are not among the events that promise a notify.
- FetchCycle.FetchChunk: other legs act between any two sections of a pass, but not between two pieces of one response body; the `Seam` machine interleaves those.
- FetchPass.Depart: what changes during the cooldown sleep (a dead session, a longer window) is not looked at again before the request leaves, as in the code.
- FetchCycle.FetchChunk: the pool counter's movements during the cycle, which `SessionInner`'s methods state one by one.
- Server.Respond: HTTP parsing, tokens, grants beyond granted or not, and the fixed headers (`Allow`, `Content-Type`, `Accept-Ranges`, `Cache-Control`, `Connection`).
- HostStones.TombstonedFails: the kind a failed outcome names (cancelled, not found or the resolve's own error).
- HostObjects.PluginHost: the waits between sections, which the `Host` machine interleaves.
- Locks.Nests: locks that never nest (accept slot, swept directories, proof-of-origin URL) and the thread join on server drop.
- Fetching over HTTP: redirects are followed at most once; only their scope is modelled.
- Plugin invocation, bindings, user interface, OAuth, signature verification: foreign code or wiring.
