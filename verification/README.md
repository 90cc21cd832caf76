# decsim, modelled and proved

decsim is a discrete-event simulator of the control path of a quantum error correction
machine: rounds of syndrome measurements are read out and packed, windows of them become
decode jobs, jobs are queued, placed on decoder units and answered, and some answers are
decoded again by a stronger pool. This project models the machines inside it that make
promises and proves those promises for every run.

Run `dafny verify dfyconfig.toml` to check everything.

## How it is laid out

Where the source changes things step by step, there are two descriptions of one behaviour.
Functions on values say what a step comes to, so that lemmas can speak of whole runs; classes
with fields, loops and `modifies` clauses run as the source does, and each of their methods is
proved to leave exactly the state the function gives. What is proved of the functions then
holds of the classes.

| part | files |
|---|---|
| the decoder side: units, pool, service, dispatcher, queue, device slots, manager | `decoder_pool`, `decode_steps`, `decode_invariant`, `decode_runs`, `decode_progress`, `decode_slots`, `decode_predictions`; as objects `decoder_units`, `decoder_manager` |
| staging against one central FIFO queue | `central_queue`, `calm_runs`, `planned_dispatch`, `central_fifo` |
| the ledger of escalated requests | `strong_ledger`, `strong_accounts`, `strong_attempts`, `strong_calls`, `strong_runs`, `strong_openings`; as an object `strong_requests` |
| the jobs that serve them: queues that merge, units, batches | `strong_jobs`, `strong_work`, `strong_drain`, `strong_job_runs`; as an object `waiting_jobs` |
| the readout path: assembler, waiting lines, sender, transmitter | `readout`, `readout_invariant`, `readout_steps`, `readout_runs`, `readout_fragments`, `readout_progress`; as objects `round_assembler` |
| protected streams on the engine | `clocks`, `protected_cycle`, `protected_runs`, `protected_engine`, `engine_order`; as objects `feedback_streams` |
| one unit's input memory and its staging | `decoder_memory`, `memory_invariant`, `memory_runs`, `memory_masks`; as objects `input_staging` |
| splitting a fault model by basis | `basis_split` |
| the uses graph's cycle check | `uses_graph` |
| the strong device: resources, walks, split regions | `strong_device`, `strong_walks`, `strong_walk_runs`; as an object `strong_backend` |
| the queue orders and the round robin's turns | `schedulers` |
| each patch life as one stream, on the cycle clock | `patch_lives`, `patch_cycles`, `patch_idle`; as an object `patch_streams` |
| the streams operations share | `shared_streams`, `shared_stream_steps`; as an object `shared_stream_holds` |
| idle rounds and their decode jobs | `idle_rounds` |
| a job's stages on one clock | `staged_walk` |
| the rotated surface code on a rectangle | `surface_code` |
| shared | `options`, `lists` |

## What is assumed of the rest of the machine

- A memory's answer, a store's answer about room, a scheduler's pick, the delay of a link and
  the ticks of a decode are arbitrary, except where a theorem says otherwise. Each delivery,
  landing, publication and decode end is a step of its own, in any order.
- Central FIFO (`CalmRuns.Calm`): every job carries its input, may start on arrival and declares
  a positive occupancy, inputs move in no time, memory is unbounded, the scheduler is FIFO, and
  there is no cancel, no dispatch cost and no shared device. A decode ends its occupancy after
  it starts, and time does not pass an event that is due.
- Escalated requests (`StrongRuns.May`, `StrongJobRuns.May`), all of the window side and none of a
  decode's end, which may come at any time:
  - a request's key is new (`MayAdmit`, and a weak decode's key is no request's); a lead comes when
    nothing of its place is out, while its weak decode may yet ask or as the attempt already asked
    for; a companion's lead is the attempt that is out or asked for;
  - a destination asks once, for an attempt that is out and wanted, or for a lead still to come
    (`MayBegin`);
  - a weak decode is resolved once the destination asked, or once every request out was abandoned
    (`MayResolve`): decsim/windows/window_commits.py:449-467 escalates or ends the edge's work
    before it resolves, and so do lines 508-514 of it;
  - a cancel or an abandon goes down the window's whole chain of pools, none of which it asked
    (`MayEndChain`): decsim/escalation/strong_redecode.py:330-362;
  - a pool that merges takes no companion: a merged decode carries timing alone. Its queue holds
    strong jobs only.
  Conservation alone needs only `StrongRuns.WellFormed`. What the window side does as a result
  arrives comes after the decode's end has answered all its requests.
- Readout (`ReadoutInvariant.IsSettings`): a round has at least one fragment, a round of a run
  with stores has at least one store, and memory rounds have no copies on the memory route.
  Packing may end in any order; formations end in the order they began.
- Protected streams (`ProtectedCycles.MayDo`): a stream's cadence is the QPU's clock period, a
  region starts once, and a region ends in an action set at an earlier tick, on a cycle edge
  after the tick it started at.
- One unit's staging (`MemoryRuns.Enabled`): the jobs of one transfer are cancelled together.
- The strong device (`StrongWalks.StepsOk`): a walk's steps take resources in one fixed order and
  never return to the dispatcher, and a resource has at least one unit.
- Round robin (`Schedulers.IsPolicyQueue`, `Schedulers.HaveTurns`): the jobs that wait are of the
  policy's tier, and each of the program's patches has a turn.
- Patch lives (`PatchCycles.MayStart`): an operation starts once, after every earlier operation on
  its patches has finished; its patches are distinct, and a body that emits runs at least a round.
- Shared streams (`SharedStreams.May`): a protected region is released after its stream is sealed.

## Findings

Each is a lemma with the exact condition, and a run from the start that meets it.

- A cancel of a destination that holds a finished result and has a live request ends both and
  counts only the live ones (`StrongRuns.CancelCountsExactly`, `StrongRuns.CancelUndercounts`).
- Forming or reopening a batch drops a request whose record holds another beside it
  (`StrongAccounts.BatchAccountsExactly`, `StrongRuns.MergeLosesLead`).
- A weak decode resolved while its destination neither asked nor abandoned leaves a result that
  raises when its decode ends (`StrongCalls.ResolveKeepsExactly`, `StrongRuns.ClosedTooEarly`); the
  window side never does so.
- A job of no listed patch, ranked after every patch, may wait while one patch's jobs are served
  again and again (`Schedulers.UnlistedServedLast`, `Schedulers.UnlistedIsPassedOver`).
- On a run with no stores and a bound, a round that waits in front of the packing stage waits
  for ever: the hand-on frees its place and nothing retries the line
  (`ReadoutRuns.WaitsForeverExactly`, `ReadoutRuns.StuckIsReached`).
- The delivery of a copy of a memory round is counted as its round's
  (`ReadoutRuns.DeliveryCountsExactly`, `ReadoutRuns.CopyUncounts`).
- A region that ends in an action set at the tick of its own round, or at the tick it started
  at, fails the assertion that it ends on a boundary (`ProtectedRuns.ClosesOnBoundaryExactly`,
  `ProtectedEngine.ClosesOffBoundary`).
- A cancel of one job of a shared transfer forgets the others' landing, and a cancel of a
  sender that is on no unit leaves its landing behind (`MemoryInvariant.CancelKeepsExactly`,
  `MemoryRuns.SharedCancelForgets`, `MemoryRuns.UnplacedCancelLeaves`).
- The joined answer of a split region differs from the whole model's for some selection of
  faults unless each part sees every committed fault that flips something of the part's
  (`BasisSplit.JoinsRightExactly`, `BasisSplit.CrossingIsLost`).
- Two stages of one name are declared as the last of them, so the declared latency leaves the
  other's cycles out (`StagedWalks.DeclaredExactly`, `StagedWalks.RepeatedNameIsLost`). The decoders
  the repository builds never repeat a stage name.
- An operation that names no patches ends the idle period of its first qubit and claims those of
  all of them: what no job decoded of the others is prepended to its windows and decoded by a job
  again (`IdleRounds.ClaimsNoneExactly`, `IdleRounds.BareOperationClaimsTwice`). Lowering names the
  patches of every operation.

The code disagrees with its own text in three places, and the model follows the code: the tally
`cancelled` is said to count each request cancelled, which the first finding contradicts; stages
are said to sum to the whole job's cycles whatever the partition, which stages of one name do not;
and a policy's idle jobs are said to leave no round for the windows, which an operation without
patches finds on its later qubits.

## Model

| member | source | states |
|---|---|---|
| `CentralFifo.StagingCostsNoStartTime` | decsim/decoders/decoder_pool.py:16-30 | after any calm run over any number of units, each decode reported started is a job of the load, reported once, at exactly the tick one central FIFO queue starts it, and every job whose central start has passed has been reported |
| `CentralQueue.NextIsCentral` | decsim/decoders/decoder_pool.py:199-216 | a job given to a unit free on its arrival, or to the unit free first while every unit computes, starts at the least tick at which fewer earlier jobs are unfinished than there are units |
| `CentralQueue.ServedIsCentral` | decsim/decoders/decoder_pool.py:16-30 | the queue run job by job on the server free first is the table of starts described with no word of servers |
| `CentralQueue.CentralIsUnique` | decsim/decoders/decoder_pool.py:16-30 | at most one table of starts is the central queue's |
| `PlannedDispatch.OfferIsPlanned` | decsim/decoders/decoder_pool.py:122-234 | in a calm run the pool offers a free unit only to a job that has just arrived, a computing unit only when it is free first with one slot empty, and nothing only while every unit free first is full |
| `PlannedDispatch.DispatchFollows` | decsim/decoders/decode_dispatch.py:50-77 | a run of the dispatch loop places jobs at their central starts and leaves jobs waiting only while every unit computes and those free first are full |
| `CentralFifo.EndFollows` | decsim/decoders/decode_service.py:271-284 | when a decode ends at its planned tick the staged job takes the compute at its own planned start, and a unit falls free only when no job that arrived earlier waits |
| `PlannedDispatch.WorkLeftIsPlanned` | decsim/decoders/decoder_unit.py:172-192 | in a calm run a computing unit's work left is the time until its last planned job ends |
| `DecoderPools.OfferMeaning` | decsim/decoders/decoder_pool.py:122-151 | the offer computed is the rule's: a free unit with room, the first that holds the input else the longest free; else, of the units with room and the pool's least work left, one with no more live jobs than any other, of those with as many one that holds the job's input if any does, and of those alike in both the first; else none |
| `DecoderPools.OfferFits` | decsim/decoders/decoder_unit.py:98-126 | a job is offered a unit only with a slot empty and, beside any resident neither cancelled nor completed, only where the memory says yes; it is offered a computing unit or none only when no free unit is such |
| `DecoderPools.EndlessIsStagedLast` | decsim/decoders/decoder_unit.py:172-192 | a unit whose holder outlived its prediction or has none, or that awaits a job of no declared cost, is staged on only when every unit is such |
| `DecoderUnits.OfferIsUnique` | decsim/decoders/decoder_pool.py:218-234 | the rule determines the offer |
| `DecoderUnits.DecoderPool.Offer` | decsim/decoders/decoder_pool.py:122-151 | the loops over the pool's lists find the rule's offer, the fewest live jobs, the input already there and the unit's place told apart in that order |
| `DecoderUnits.DecoderPool.StagingOffer` | decsim/decoders/decoder_pool.py:174-216 | of the units with room and least work left the loop takes one with no more live jobs than any other, of those with as many one that holds the input if any does, and of those alike in both the first; it takes none only when no such unit has room |
| `DecoderUnits.DecoderUnit.WorkLeftTicks` | decsim/decoders/decoder_unit.py:172-192 | the loop sums the holder's remaining time and every unstarted resident's cost, unbounded once the holder outlived its prediction |
| `DecodeRuns.EveryRunKeepsBoundary` | decsim/decoders/decode_service.py:482-525 | at every event boundary of every run: at most two residents a unit, a free list that is exactly the units with no holder, decodes in service only as holders with landed inputs, device lists that are exactly the decodes in service and those waiting for a slot, every admitted request in exactly one place, and no compute free beside a waiting job that may start |
| `DecodeRuns.StepKeepsBoundary` | decsim/decoders/decoder_manager.py:193-314 | each manager call and engine callback keeps that boundary |
| `DecodeProgress.StepBrings` | decsim/decoders/decoder_manager.py:193-471 | each call and callback brings about what it is for: a new request waits with the flags given or, if it may start, is on a unit; a window's requests are released; each request cancelled has gone or its result stands unread; an input asked for, landed or decoded is so marked; an ended decode has gone or stands completed for its reader; a read result has gone; another pool's decode takes, returns or withdraws |
| `DecodeProgress.RunGoesForward` | decsim/decoders/decode_service.py:245-300 | over every run a request on a unit stays on it with every stage it reached, or has gone for good |
| `DecodeProgress.RoundPlaces` | decsim/decoders/decode_dispatch.py:50-77 | a round's placement, told by the memories' answers: a waiting job that may start, on a free unit that takes it and holds its input if any does, or on a computing one only when no free one takes it |
| `DecodeRuns.ReleaseStarts` | decsim/decoders/decoder_manager.py:254-268 | after a window's release from any boundary, its requests still waiting may start and wait from now, every other waits as it did, and beside a free unit each of its queued requests is on a unit |
| `DecodeRuns.CancelEnds` | decsim/decoders/decoder_manager.py:588-665 | a cancel ends its request and no other, once, unless it has ended or its result stands unread, and then changes nothing |
| `DecodePredictions.EveryUnitTimed` | decsim/decoders/decode_service.py:527-545 | in every run, a decode in service frees its unit its declared time after its logged start, and while a holder's input is still to land, later than now, the unit frees the declared time after the landing |
| `DecodeSlots.EveryRunIsFair` | decsim/decoders/execution_slots.py:87-137 | over every run the shared device's slots go to the head of one line that newcomers join at the end, and nobody takes a slot while another waits |
| `DecodeSlots.NotOvertaken` | decsim/decoders/execution_slots.py:87-137 | while a decode stays in that line, whoever is served stood before it |
| `DecodeRuns.DispatchKeeps` | decsim/decoders/decode_dispatch.py:10-77 | on a queue that does not merge, the loop ends, keeps every invariant, leaves the requests where they are or on a unit, and ends with no waiting startable job that would be offered a unit |
| `DecodeRuns.NestedDispatchSettles` | decsim/decoders/decode_dispatch.py:10-14 | calls from inside the loop, of any kind and after any of its rounds, return at once, and the loop still leaves no waiting startable job that would be offered a unit |
| `DecodeRuns.SettledLeavesNoneIdle` | decsim/decoders/decode_dispatch.py:10-14 | a settled queue leaves no unit of the free list beside a waiting job that may start |
| `DecodeRuns.CancelOneIsGood` | decsim/decoders/decoder_manager.py:588-665 | a cancel ends a request queued, staged or running and keeps the slots, claims, device lists and every other request's place |
| `DecodeRuns.DrainKeeps` | decsim/decoders/decode_queue.py:94-98 | a drain of a queue that does not merge is the queue rearranged, whatever the scheduler's order |
| `DecodeRuns.AccountKept` | decsim/decoders/decode_queue.py:94-102 | a step that leaves every slot's request where it was keeps each admitted request in exactly one place |
| `DecodeInvariant.LandKeeps` | decsim/decoders/decode_service.py:482-503 | an input never lands on a unit whose compute has no holder, and a landing keeps the slots, claims and device lists |
| `DecodeInvariant.FreeKeeps` | decsim/decoders/decode_service.py:271-284 | a decode in service that ends gives back a device slot it holds, and its unit's compute passes on or returns to the pool |
| `DecodeInvariant.EvictKeeps` | decsim/decoders/decode_service.py:286-300 | a job that leaves before its start gives up its place among the device's waiting, and what it held passes on |
| `DecodeInvariant.OfferComputeKeeps` | decsim/decoders/decode_service.py:505-525 | free compute goes to a landed resident, stays reserved for one in flight, or returns to the pool, never beside a resident left unserved |
| `DecodeInvariant.StartWaitingKeeps` | decsim/decoders/execution_slots.py:126-137 | the device starts waiting decodes until no slot is free or none waits, never past its slot count |
| `DecodeInvariant.OldestMeaning` | decsim/decoders/decoder_unit.py:148-170 | the resident chosen has not passed its start and has, or has not, landed; none is chosen only when there is none |
| `DecoderManagers.DecoderManager.Dispatch` | decsim/decoders/decode_dispatch.py:50-77 | the loop over the queue leaves the state of the proved dispatch |
| `DecoderManagers.DecoderManager.RunDispatcher` | decsim/decoders/decode_dispatch.py:40-48 | a call from inside the loop changes nothing; any other dispatches to the end |
| `DecoderManagers.DecoderManager.Enqueue` | decsim/decoders/decoder_manager.py:193-228 | inside the loop an admission joins the queue and changes nothing else; outside it leaves the state of its step and a boundary |
| `DecoderManagers.DecoderManager.ReleaseWindow` | decsim/decoders/decoder_manager.py:254-268 | every queued request of the window may start, its wait counted from now, every other waits as it did, the queue is dispatched, and beside a free unit none of the window's still waits |
| `DecoderManagers.DecoderManager.CancelRequests` | decsim/decoders/decoder_manager.py:420-438 | each request is cancelled where it is, then the queue is dispatched |
| `DecoderManagers.DecoderManager.DecodeCompleted` | decsim/decoders/decoder_manager.py:497-584 | an end frees the unit now, or keeps it held for its result, then the queue is dispatched |
| `DecoderManagers.DecoderManager.ReadResult` | decsim/decoders/decoder_manager.py:399-418 | a unit held for its result frees once the result is read |
| `DecoderManagers.DecoderManager.OfferCompute` | decsim/decoders/decode_service.py:505-525 | the method leaves the state the compute's passing on gives |
| `DecoderManagers.DecoderManager.StartTheOldestWaiting` | decsim/decoders/execution_slots.py:126-137 | the loop starts waiting decodes oldest first while a slot is free |
| `DecoderManagers.ExecutionSlots.Take` | decsim/decoders/execution_slots.py:87-101 | a decode starts now just when a slot is free, and otherwise waits behind the others |
| `DecoderManagers.AllButIsWithout` | decsim/decoders/execution_slots.py:110-116 | of distinct waiting decodes, keeping all but one removes exactly that one |
| `StrongRuns.NoRunRaises` | decsim/decoders/strong_requests.py:161-183 | from an empty ledger, in every run of the window side's calls and of decode ends at any time, no call finds a duplicate, a newer request or a result with no destination; a decode's end raises only as one that serves nothing or as a merged one with an accuracy, and afterwards every admitted request is live, held or ended exactly once |
| `StrongRuns.CallKeeps` | decsim/decoders/strong_requests.py:375-441 | what a call raises is read off the call: nothing, but for a decode's end that serves no request or is merged and carries an accuracy |
| `StrongCalls.ResolveKeepsExactly` | decsim/decoders/strong_requests.py:195-207 | closing a weak decode keeps the ledger's promises just when its destination asked or every request still out was abandoned |
| `StrongRuns.ClosedTooEarly` | decsim/decoders/strong_requests.py:384-389 | a weak decode closed with a wanted request out makes that request's decode raise at its end |
| `StrongRuns.CallAccounts` | decsim/decoders/decoder_manager.py:334-471 | whatever the window side does, a call that does not raise keeps every admitted strong request in exactly one of live, held and ended once |
| `StrongOpenings.CallBrings` | decsim/decoders/strong_requests.py:149-399 | each call brings about what it is for: a request admitted is live, a weak decode opened is open and one resolved closed, a destination asks for the lead and its companions, a landed selection leaves no result waiting, an ended decode serves nobody, a cancelled place has nothing live or held, an abandoned one nothing held and its live requests marked, a batch's members are each served by it alone |
| `StrongOpenings.AdmitRaisesExactly` | decsim/decoders/strong_requests.py:161-183 | an admission is refused just when a lead finds a live request at its place |
| `StrongOpenings.AdmitOpens` | decsim/decoders/strong_requests.py:161-183 | an admitted request of a pool that escalates opens a weak decode where it escalates, and no other is opened or closed |
| `StrongOpenings.CancelCloses` | decsim/decoders/strong_requests.py:295-311 | a cancel closes the weak decodes of exactly the requests it takes |
| `StrongOpenings.CompletesExactly` | decsim/decoders/strong_requests.py:375-399 | a finished result is dropped, delivered, refused as older than a live request, refused as wanted by nobody, or held, each under its exact condition |
| `StrongOpenings.CompleteCloses` | decsim/decoders/strong_requests.py:323-332 | a finished result closes its weak decode only when it was abandoned |
| `StrongOpenings.WaitEndsClean` | decsim/decoders/strong_requests.py:441-465 | the delivery that ends a wait leaves nothing of its attempt in the record, any other owes one less |
| `StrongOpenings.AbandonedCounted` | decsim/decoders/decoder_manager.py:440-450 | in every run without a cancel the abandoned tally is the number of requests that ended with their result discarded |
| `StrongOpenings.EveryRunTidies` | decsim/decoders/strong_requests.py:509-523 | in every run from an empty ledger each record kept waits on something |
| `StrongRuns.OneOutcome` | decsim/decoders/decode_outcomes.py:132-182 | an admitted request has ended exactly once, or its result has yet to reach its destination |
| `StrongCalls.SelectionDelivers` | decsim/decoders/decoder_manager.py:334-346 | a landed selection takes every result waiting for its destination, delivers each once in the order the units give them, and never raises; any other selection changes nothing |
| `StrongRuns.WaitIsOwed` | decsim/decoders/strong_requests.py:343-373 | while a destination waits, what it is owed is exactly what is out or still to come, arrived and owed results make one lead and its companions, and none waits in a unit once the selection has landed |
| `StrongRuns.LastResultEndsWait` | decsim/decoders/strong_requests.py:441-465 | a delivery ends the wait just when it is the last of one lead and its companions |
| `StrongAttempts.CompleteKeeps` | decsim/decoders/strong_requests.py:375-399 | a finished result, whatever became of its destination, is dropped, delivered or held, never refused, and what is owed stays what is out |
| `StrongAttempts.OutMayBeTaken` | decsim/decoders/strong_requests.py:243-257 | a request that is out and not abandoned has a destination that waits for it or may yet ask |
| `StrongCalls.DecodeDoneKeeps` | decsim/decoders/decode_outcomes.py:110-130 | the end of a decode that serves a request answers every one it served, abandoned ones included, and raises just when it is merged and carries an accuracy of its own |
| `StrongCalls.ChainKeeps` | decsim/escalation/strong_redecode.py:330-362 | a cancel or an abandon of what a window did not ask for, down its chain of pools, keeps every promise |
| `StrongCalls.CancelOneKeeps` | decsim/decoders/decoder_manager.py:420-438 | a cancel leaves nothing out at its place and touches only the weak decodes of the place below |
| `StrongCalls.AbandonOneKeeps` | decsim/decoders/decoder_manager.py:440-450 | an abandon drops what waits, marks what runs, and changes no record |
| `StrongCalls.AdmitKeeps` | decsim/decoders/strong_requests.py:161-183 | a lead or companion the window side may admit is admitted without an error and owed where its attempt was asked for |
| `StrongCalls.BeginKeeps` | decsim/decoders/strong_requests.py:343-355 | asking for an attempt owes exactly its results that are out, or the lead still to come |
| `StrongAccounts.BatchAccountsExactly` | decsim/decoders/strong_requests.py:256-282 | forming or reopening a batch keeps each request in one place just when each member is the only live request of its record |
| `StrongAccounts.FinishAccounts` | decsim/decoders/strong_requests.py:284-293 | a decode's end takes in hand exactly the requests it served, each once |
| `StrongAccounts.CancelAccounts` | decsim/decoders/strong_requests.py:295-311 | a cancel ends each live and each held request of its destination once |
| `StrongRuns.CancelCountsExactly` | decsim/decoders/decoder_manager.py:420-438 | the tally grows by the requests the cancel ended just when it did not both discard a result and cancel a live request |
| `StrongRuns.CancelUndercounts` | decsim/decoders/strong_requests.py:71-82 | a waiting lead's result and a live companion cancelled together are two ends and one count |
| `StrongRuns.MergeLosesLead` | decsim/decoders/strong_requests.py:256-268 | a lead and its companion merged into one batch leave the lead live nowhere and ended never |
| `StrongJobRuns.NoRunRaises` | decsim/decoders/decode_queue.py:90-155 | in every run from the start, with any merging pools, each live request is served by exactly one job queued or on a unit, each job serves a live request, and the only error is that of a merged decode that carries an accuracy |
| `StrongJobRuns.StepFits` | decsim/decoders/decoder_manager.py:193-228 | each admission, release, call, cancel, decode end and dispatch keeps that, a cancel of one batch member included |
| `StrongJobRuns.EndRaisesExactly` | decsim/decoders/strong_requests.py:401-436 | a decode's end, at any time, raises just when it is merged and carries an accuracy of its own |
| `StrongJobRuns.ServedByOneJob` | decsim/decoders/strong_requests.py:55-67 | a live request is served by exactly one job |
| `StrongJobRuns.JobServesOne` | decsim/decoders/strong_requests.py:231-237 | what a job answers is exactly the live requests it serves, each once, and never nothing |
| `StrongJobRuns.CancelFits` | decsim/decoders/decoder_manager.py:588-676 | a cancel takes its requests' jobs from the queue or their units and leaves a batch with other members where it is |
| `StrongJobRuns.DispatchKeeps` | decsim/decoders/decode_dispatch.py:50-77 | the loop over a queue that merges ends, keeps the live requests and what serves each, and leaves no startable job that would be offered a unit |
| `StrongJobRuns.DrainKeeps` | decsim/decoders/decode_queue.py:90-122 | a drain, merged or not and in any order, keeps the live requests and gives each exactly one job |
| `StrongJobRuns.DrainMerges` | decsim/decoders/decode_queue.py:90-144 | a merging pool's drain leaves one job that may start at most, and first; another pool's is the queue rearranged |
| `StrongJobRuns.RoundPlacesStartable` | decsim/decoders/decode_dispatch.py:64-77 | what a round places may start and takes the unit it was offered |
| `StrongJobRuns.StepBrings` | decsim/decoders/decoder_manager.py:193-268 | an arrival queues its request, blocked or not as told; a release unblocks exactly its requests; an ended job leaves its unit; a dispatch leaves no startable job that would be offered a unit |
| `StrongDrain.OpenKeepsWork` | decsim/decoders/decode_queue.py:146-155 | opening the waiting batches makes each live member its own job and no other request any |
| `StrongDrain.MergeKeepsWork` | decsim/decoders/decode_queue.py:104-144 | of the opened requests those that may start become one batch's, alone if there is one, and each other keeps its job |
| `StrongJobs.RoundNamesFewer` | decsim/decoders/decode_dispatch.py:50-62 | a round that places a job leaves fewer requests in the pool's queue, so the loop ends |
| `WaitingJobObjects.WaitingJobs.DrainInSchedulerOrder` | decsim/decoders/decode_queue.py:90-98 | the loops over the queue leave the queue, the batches and the ledger of the drain |
| `WaitingJobObjects.WaitingJobs.OpenQueued` | decsim/decoders/decode_queue.py:146-155 | the loop opens each batch into the members it still serves |
| `WaitingJobObjects.WaitingJobs.Merge` | decsim/decoders/decode_queue.py:104-144 | the loop splits startable from blocked and registers one batch of the startable |
| `StrongRequestObjects.StrongRequests.CompleteStrong` | decsim/decoders/decode_outcomes.py:132-172 | the method drops, delivers, holds or refuses a result as the ledger says |
| `StrongRequestObjects.StrongRequests.TakeOutputs` | decsim/decoders/decoder_manager.py:452-459 | taking one result at a time, the first unit's oldest, takes them all in that order and leaves every other destination's |
| `StrongRequestObjects.StrongRequests.MembersOf` | decsim/decoders/strong_requests.py:231-237 | the loop over the records finds exactly the requests the decode serves, each once |
| `StrongRequestObjects.StrongRequests.StrongDecodeDone` | decsim/decoders/decoder_manager.py:510-521 | the method answers exactly those requests as the ledger says, or reports its error |
| `StrongRequestObjects.StrongRequests.AcceptTheSelection` | decsim/decoders/decoder_manager.py:334-346 | the method leaves the ledger a landed selection gives |
| `StrongRequestObjects.StrongRequests.CancelTheStrong` | decsim/decoders/decoder_manager.py:420-438 | the method leaves the ledger a cancel gives, its tally included |
| `StrongRequestObjects.StrongRequests.RegisterTheBatch` | decsim/decoders/strong_requests.py:256-268 | the loop makes the batch each member's one service |
| `ReadoutRuns.WrittenInEmissionOrder` | decsim/controller/round_assembly.py:93-116 | for any arrival order and any packing or store delay, with formations ending as they began, in every run the rounds of a stream written to the stores are its first emitted ones, in order, each once, and those held come next |
| `ReadoutFragments.PackedWhole` | decsim/controller/round_assembly.py:118-174 | in every run a round in assembly still collects just while it misses a fragment, and one held, on its way or gone was packed from all its fragments |
| `ReadoutProgress.StepMoves` | decsim/controller/round_assembly.py:93-246 | each event brings about what it is for: a fragment is counted, a round packed is past packing, the oldest formed round is handed on, a flight ends and its round has left |
| `ReadoutRuns.HeldLeaveInOrder` | decsim/controller/syndrome_round_sender.py:74-103 | when store room frees, held rounds leave from the head, each with room, up to the first that has none |
| `ReadoutRuns.CountedWithinBound` | decsim/controller/round_assembly.py:36-67 | the count is the rounds in assembly, held, on route and crossing; it never passes the bound; each entered round is in exactly one of those places or gone |
| `ReadoutRuns.NoDeadlock` | decsim/controller/round_assembly.py:93-116 | with stores, once all fragments are in and nothing is under way, every emitted round has been written in order and has left |
| `ReadoutRuns.NoPredecessorInLine` | decsim/controller/round_assembly.py:103-108 | a round in assembly was emitted before every round still in the line |
| `ReadoutRuns.EveryRunKeepsBoundary` | decsim/controller/round_assembly.py:151-236 | every run keeps order, places, counts and bound, leaves no place free beside a round that waits, and no ready round unretired at the head of its stream |
| `ReadoutRuns.WaitsForeverExactly` | decsim/controller/syndrome_round_sender.py:167-182 | a waiting round is still waiting when nothing is under way just when the run has no stores |
| `ReadoutRuns.StuckIsReached` | decsim/controller/syndrome_round_sender.py:167-182 | two rounds and one fragment, on a bound of one and no stores, reach the state whose waiting round waits for ever |
| `ReadoutRuns.DeliveryCountsExactly` | decsim/controller/round_transmission.py:165-172 | a delivery on the memory route keeps the count right just when it delivers no copy |
| `ReadoutRuns.CopyUncounts` | decsim/controller/round_transmission.py:165-172 | a memory round with one copy takes the count below nothing |
| `ReadoutSteps.ReleaseKept` | decsim/controller/round_assembly.py:172-181 | retiring a stream's ready rounds keeps order, places and counts, leaves no ready head behind and touches no line |
| `RoundAssemblers.RoundAssembler.ReleaseReadyRounds` | decsim/controller/round_assembly.py:176-181 | the loop retires the stream's ready rounds as the path says |
| `RoundAssemblers.RoundAssembler.RetryThePackingLine` | decsim/controller/syndrome_round_sender.py:74-82 | the loop lets rounds in from the line's head while there is room |
| `RoundAssemblers.RoundAssembler.ExpectRound` | decsim/controller/round_assembly.py:93-116 | an emitted round takes a place, or waits behind those that wait |
| `RoundAssemblers.RoundAssembler.AddFragment` | decsim/controller/round_assembly.py:118-140 | a fragment leaves the path its step gives, and a boundary |
| `RoundAssemblers.RoundAssembler.LeaveRoute` | decsim/controller/round_transmission.py:141-144 | a round that left frees its place to the line |
| `RoundAssemblers.RoundSender.AdmitRound` | decsim/controller/syndrome_round_sender.py:147-182 | a round joins those held, leaves, or waits for room |
| `RoundAssemblers.RoundSender.RetryTheHeld` | decsim/controller/syndrome_round_sender.py:74-82 | held rounds leave from the head up to the first refused |
| `ProtectedEngine.NoAssertionFails` | decsim/controller/feedback_streams.py:649-759 | in every run of the engine, each assertion of the cycle code holds at each event, and each close asked for finds its stream on the boundary |
| `ProtectedEngine.OneRoundEachCycle` | decsim/controller/feedback_streams.py:649-730 | a stream's rounds are numbered in order, one at each cycle edge from its first; none of its boundaries before now is without one; only the last is final, just when the stream is sealed, and the sealed length is its round counter |
| `ProtectedEngine.NothingAfterSeal` | decsim/controller/feedback_streams.py:367-377 | a sealed stream emits nothing more and keeps its length |
| `ProtectedEngine.ClosingHoldsTime` | decsim/controller/feedback_streams.py:269-276 | time does not pass a stream asked to close, so its final round is of the tick its end operation finished at |
| `ProtectedRuns.ClosesOnBoundaryExactly` | decsim/controller/feedback_streams.py:751-759 | at a cycle edge an active stream is on its boundary just when it started at an earlier tick and its round of this tick is not out |
| `ProtectedEngine.ClosesOffBoundary` | decsim/controller/feedback_streams.py:751-759 | a run of three events reaches an action that would end a region a cycle off its boundary |
| `ProtectedRuns.PoppedKeeps` | decsim/engine.py:132-140 | the event taken is its stream's only one, a round is taken only when no action of the default priority is due, and none set at an earlier tick follows a round of its tick |
| `FeedbackStreamObjects.Engine.PopFirst` | decsim/engine.py:132-140 | no event is due before the one taken, none due with it has a lesser priority, and of those of its tick and priority it was scheduled first; it sets the time |
| `EngineOrder.EveryRunInOrder` | decsim/engine.py:39-50 | over every run time does not run back, actions of one tick and priority run in the order they were scheduled, and one of a lesser priority runs after another of its tick only if scheduled once that one was taken |
| `EngineOrder.DeedsDo` | decsim/controller/feedback_streams.py:593-597 | a region started runs from now to its next boundary, one asked to end closes, and an action set for later is queued last and due then |
| `FeedbackStreamObjects.FeedbackStreams.EmitProtectedRound` | decsim/controller/feedback_streams.py:698-730 | the method emits, seals or reschedules as the cycle says |
| `FeedbackStreamObjects.FeedbackStreams.RunOne` | decsim/engine.py:132-140 | one event of a run leaves the world its turn gives with no assertion failing |
| `Clocks.EdgesCompose` | decsim/config.py:169-187 | waiting for edges in two parts is waiting once, however the cycles are split |
| `Clocks.EdgeIsNext` | decsim/config.py:169-187 | the edge of no cycles is the first not before now |
| `UsesGraph.Check` | tools/check_uses_graph.py:137-157 | a cycle is reported just when the graph has one, each report is a closed walk, and without one every node's level is its longest path to a leaf and no other number is |
| `UsesGraph.CycleSearch.Search` | tools/check_uses_graph.py:69-101 | the walk over every node reports a cycle just when there is one |
| `UsesGraph.CycleSearch.NoteCycle` | tools/check_uses_graph.py:96-101 | what is noted is a closed walk of the graph |
| `UsesGraph.LevelTable.LevelOf` | tools/check_uses_graph.py:112-127 | the memoized recursion ends on an acyclic graph with the node's longest path |
| `UsesGraph.LevelIsOneAbove` | tools/check_uses_graph.py:119-125 | one above the highest target's longest path is the node's own |
| `UsesGraph.LevelsFall` | tools/check_uses_graph.py:112-130 | levels fall strictly along every edge |
| `UsesGraph.RankedHasNoCycle` | tools/check_uses_graph.py:78-94 | nodes finished each after its targets lie on no closed walk |
| `BasisSplit.PartSyndrome` | decsim/detector_error_model/basis_split.py:61-79 | for every selection of faults, a part's syndrome under the parity-restricted selection is the region's, row for row |
| `BasisSplit.RowsInterleave` | decsim/detector_error_model/basis_split.py:71-79 | each row is in exactly the part of its detector's basis, in increasing order |
| `BasisSplit.MergingKeepsParity` | decsim/detector_error_model/basis_split.py:94-112 | what the merged columns flip is what the columns the part sees flip |
| `BasisSplit.MergedPriors` | decsim/detector_error_model/basis_split.py:107-112 | merged keys are distinct and a merged prior's 1 - 2p is the product over the columns merged |
| `BasisSplit.MergeInAnyOrder` | decsim/detector_error_model/basis_split.py:107-112 | merging any two arrangements of the same priors gives one prior |
| `BasisSplit.JoinsRightExactly` | decsim/decoders/strong_backend.py:252-285 | joined residual and observables are the whole model's for every selection just when every committed column is seen by each part it flips an observable or detector of |
| `BasisSplit.CrossingIsLost` | decsim/decoders/strong_backend.py:252-285 | a Z fault that flips an X observable is lost from the joined answer |
| `BasisSplit.PartsShareNothing` | decsim/decoders/strong_backend.py:433-447 | a part flips no detector or observable of the other basis |
| `BasisSplit.FaultsAreFirst` | decsim/detector_error_model/basis_split.py:107-112 | a merged column carries the id of the first fault it merges |
| `BasisSplit.PartFaults` | decsim/detector_error_model/basis_split.py:218-235 | the loop over the columns gives the part, its priors merged as products |
| `BasisSplit.DetectorIdsFromColumns` | decsim/decoders/decoder.py:480-487 | the symmetric differences taken column by column are the detectors an odd number of committed columns flip |
| `MemoryRuns.EveryRunIsSound` | decsim/decoders/decoder_memory_transfer.py:67-345 | every run that no landing overflows keeps inputs, readers, masks, capacity, holds and landings in order |
| `MemoryRuns.HeldWhileRead` | decsim/decoders/decoder_memory.py:94-236 | an input is here once, and just while some job reads it |
| `MemoryRuns.OneMaskForAll` | decsim/decoders/decoder_memory_transfer.py:135-153 | all jobs that folded read one input, masked exactly once, whichever of them wrote it |
| `MemoryMasks.FoldedReadsFirstMask` | decsim/decoders/decoder_memory_transfer.py:135-153 | over every run a job that folded reads the bits that landed under its key with exactly the mask of the first fold among that input's readers since it landed |
| `MemoryMasks.ReaderReadsLanded` | decsim/decoders/decoder_memory.py:158-224 | over every run any reader reads the bits that landed, with that mask or with none |
| `MemoryMasks.FoldWrites` | decsim/decoders/decoder_memory.py:197-224 | a fold writes its mask into an unmasked input, leaves a masked one, and changes no other job or input |
| `MemoryMasks.EveryRunDropsUnread` | decsim/decoders/decoder_memory_transfer.py:269-333 | in every run a job that reads nothing keeps no input |
| `MemoryMasks.StepBrings` | decsim/decoders/decoder_memory_transfer.py:67-333 | each step brings about what it is for: an arrival as given, a staged job reads or waits, a delivery is read by all that joined, a release reads no more, every job of a cancelled attempt is cancelled |
| `MemoryRuns.HoldsEndOnce` | decsim/decoders/decoder_memory_transfer.py:170-345 | a job's hold on the store ends at most once, has ended once it reads or is cancelled, and a waiting job's transfer is in flight |
| `MemoryInvariant.CancelKeepsExactly` | decsim/decoders/decoder_memory_transfer.py:303-317 | a cancel of one job keeps the landings in order just when, on its unit, no other job sends or joins its transfer, or, on no unit, it is not waiting |
| `MemoryRuns.SharedCancelForgets` | decsim/decoders/decoder_memory_transfer.py:303-317 | the sender of a shared transfer cancelled alone leaves the other job waiting for no landing |
| `MemoryRuns.UnplacedCancelLeaves` | decsim/decoders/decoder_memory_transfer.py:303-317 | a sender on no unit cancelled leaves its landing awaited with nothing in flight |
| `MemoryInvariant.AttemptCancelled` | decsim/decoders/decoder_memory_transfer.py:269-317 | the jobs of one transfer cancelled in one pass keep everything |
| `MemoryInvariant.DeliverKeeps` | decsim/decoders/decoder_memory_transfer.py:170-196 | a delivery deposits once for all that joined, or fails only when the input does not fit |
| `MemoryInvariant.TakeKeeps` | decsim/decoders/decoder_memory.py:226-236 | an ended read leaves every other reader its input and frees the input with the last |
| `InputStagingObjects.DecoderMemory.Deposit` | decsim/decoders/decoder_memory.py:158-170 | a deposit succeeds just when the occupied bits and the input's fit the capacity |
| `InputStagingObjects.DecoderInputStaging.DeliverInput` | decsim/decoders/decoder_memory_transfer.py:170-196 | the method lands the input, served to every job that joined, as the staging says |
| `InputStagingObjects.DecoderInputStaging.FoldTheBoundary` | decsim/decoders/decoder_memory_transfer.py:135-153 | an unmasked input takes the mask given and one masked before stays as it is; the job reads it, and no other job or input changes |
| `StrongWalkRuns.EveryRunKeeps` | decsim/decoders/strong_backend.py:117-232 | every run of arrivals, step ends and cancels keeps units, waiting lines, walks and answers in order |
| `StrongWalkRuns.UnitsConserved` | decsim/decoders/strong_backend.py:339-363 | a resource's free units and its holders are its capacity; while decodes wait none is free; its line is exactly the decodes that wait for it, each once |
| `StrongWalkRuns.NotOvertaken` | decsim/decoders/strong_backend.py:339-354 | over any run, while a decode waits for a resource none that stood behind it in the line is served before it |
| `StrongWalkRuns.GrantsInOrder` | decsim/decoders/strong_backend.py:339-363 | each resource serves its line from the head and takes newcomers at the end; only a cancel takes a decode from within the dispatcher's |
| `StrongWalkRuns.NoDeadlock` | decsim/decoders/strong_backend.py:176-222 | when no step runs, every walk has ended or was withdrawn and every unit is free |
| `StrongWalkRuns.HolderWaitsAbove` | decsim/decoders/strong_backend.py:176-202 | a resource awaited while nothing runs is held by a decode that waits for a later one |
| `StrongWalkRuns.StepEndsRunOut` | decsim/decoders/strong_backend.py:204-232 | each step's end leaves one step fewer, so every walk finishes |
| `StrongWalkRuns.AnswersOnce` | decsim/decoders/strong_backend.py:224-232 | a decode has answered once when it ended uncancelled, and otherwise never |
| `StrongWalkRuns.NeverAfterCancel` | decsim/decoders/strong_backend.py:137-152 | a decode cancelled before it ended never answers, whatever follows |
| `StrongWalkRuns.RegionAnswersOnce` | decsim/decoders/strong_backend.py:366-401 | a region of two parts answers once when both ended uncancelled, and never with a part cancelled |
| `StrongBackends.StrongBackend.ReleaseUnit` | decsim/decoders/strong_backend.py:212-222 | the method leaves the device settled as the walk says, the one waiting longest served first |
| `StrongBackends.StrongBackend.StepDone` | decsim/decoders/strong_backend.py:204-210 | a step's end leaves the device its event gives |
| `StrongBackends.StrongBackend.ArriveForDispatch` | decsim/decoders/strong_backend.py:154-174 | a decode is dispatched now or waits for the dispatcher behind the others |
| `Schedulers.DrainIsPermutation` | decsim/decoders/schedulers.py:320-333 | under any ranking a drain is the queue in another order |
| `Schedulers.OlderDrainsFirst` | decsim/decoders/schedulers.py:335-368 | under any ranking an older job on a critical job's patch is drained before it |
| `Schedulers.LeastIsNext` | decsim/decoders/schedulers.py:320-349 | the job popped has no greater tier than any other, within the policy's tier no greater rank, and of those alike in both it is the oldest |
| `Schedulers.AlikeDrainByAge` | decsim/decoders/schedulers.py:335-349 | jobs of the same patches that a policy ranks alike drain oldest first |
| `Schedulers.TurnDrainsByAge` | decsim/decoders/schedulers.py:163-172 | by turns, of two jobs of the same patches the older drains first |
| `Schedulers.AllServedGoBehind` | decsim/decoders/schedulers.py:174-178 | each of several patches served at once goes behind every other patch |
| `Schedulers.TurnsStay` | decsim/decoders/schedulers.py:174-178 | the turns stay the program's patches, each once |
| `Schedulers.DrainByTurns` | decsim/decoders/schedulers.py:163-172 | while only policy jobs wait, a drain is in the order of their patches' turns, jobs of no listed patch last |
| `Schedulers.ServedHasFirstTurn` | decsim/decoders/schedulers.py:135-178 | the job served has no later turn than any placeable job |
| `Schedulers.NotServedTwice` | decsim/decoders/schedulers.py:135-178 | neither a patch nor a job of no listed patch is served twice while another patch's placeable job waits throughout |
| `Schedulers.PolicyJobsExactly` | decsim/decoders/schedulers.py:335-368 | a queue is all of the policy's tier just when each job is on no listed patch, or is neither critical nor on several |
| `Schedulers.UnlistedServedLast` | decsim/decoders/schedulers.py:251-260 | a job of no listed patch is served only while no patch's placeable job waits |
| `Schedulers.UnlistedIsPassedOver` | decsim/decoders/schedulers.py:163-178 | a run as long as one likes serves one patch's jobs while a job of no listed patch waits |
| `Schedulers.LeastPlace` | decsim/decoders/schedulers.py:320-333 | the loop over the keys finds the least, the one that comes before every other |
| `Schedulers.RoundRobin.Pop` | decsim/decoders/schedulers.py:163-172 | the job removed has no greater tier than any other, within the policy's tier no later turn, and of those alike in both it is the oldest; what is popped, and then what the rest drains to, is what the queue drains to |
| `PatchCycles.EachRoundOnceInOrder` | decsim/controller/patch_streams.py:68-191 | in every run a life's stream sends rounds 1, 2, ... in order, each once and no two at one tick; the rounds given to segments and idle cycles tile its counter; its one seal states exactly the rounds sent |
| `PatchCycles.EveryLifeSealedOnce` | decsim/controller/patch_streams.py:106-111 | when the workload is complete, every decoded life is sealed once, at the rounds it sent |
| `PatchCycles.OneRoundEachBoundary` | decsim/qpu/cycle_clock.py:167-217 | at a boundary a stream sends exactly one round where its patch idles in its life or a body emits into it, and none otherwise; who idles is `PatchIdle.WhoIdles` |
| `PatchIdle.WhoIdles` | decsim/qpu/cycle_clock.py:262-292 | in every run that is not over a patch idles just when an operation that measures it has started since its last discard and no started, unfinished operation runs on it |
| `PatchIdle.RoundsByProgram` | decsim/qpu/cycle_clock.py:186-217 | in every run that is not over a boundary sends one round of each life that an operation has measured and no discard has ended, unless a body that emits nothing runs in it, and no round of any other |
| `PatchCycles.NothingAfterSeal` | decsim/controller/patch_streams.py:178-183 | a sealed stream is given and sends nothing more and is not sealed again |
| `PatchCycles.DiscardFindsItsStream` | decsim/controller/patch_streams.py:91-98 | the stream a discard seals is open and is the one its patch holds |
| `PatchLives.EachRoundGivenOnce` | decsim/controller/patch_streams.py:145-160 | spans that tile a counter hold each of its rounds in exactly one span, in increasing order |
| `PatchStreamObjects.PatchStreams.BindAtStart` | decsim/controller/patch_streams.py:68-89 | the loop makes the body a segment of each of its streams, at the round each had reached |
| `PatchStreamObjects.PatchStreams.RequestCloses` | decsim/controller/patch_streams.py:91-98 | the loop seals each stream a discard ends and takes it from its patch |
| `PatchStreamObjects.PatchStreams.SealFinishedStreams` | decsim/controller/patch_streams.py:106-111 | every life no discard ended is sealed and no other touched |
| `PatchStreamObjects.PatchStreams.ExtendLiveStream` | decsim/controller/patch_streams.py:121-143 | an idle patch's round is its life's next, or is left to the policy |
| `SharedStreams.IntervalsApart` | decsim/controller/feedback_streams.py:236-265 | in every run the rounds given on a stream to segments, idle cycles and the protected cycle are apart and increase, and idle patches continue it at most once a tick |
| `SharedStreams.StepKeepsOne` | decsim/controller/feedback_streams.py:319-349 | each issue, start, idle cycle, protected round and seal keeps that |
| `SharedStreams.PendingIsNotContinued` | decsim/controller/feedback_streams.py:444-460 | once a segment is issued at a declared offset, no patch idle after another operation continues its stream |
| `SharedStreamSteps.StepIsMeant` | decsim/controller/feedback_streams.py:228-367 | each issue, start, idle cycle, protected round, release and seal is taken or refused under its exact condition and does what it is for |
| `SharedStreamSteps.HoldsAsMeant` | decsim/controller/feedback_streams.py:379-442 | after an operation is issued its patches hold its stream, whole again; with no stream, nothing if it emits detectors, else what they held; any other patch keeps its hold unless the claim split its group |
| `SharedStreamSteps.ReservesExactly` | decsim/controller/feedback_streams.py:616-645 | a finalizer is refused unless it ends on the last round given, any other segment with an offset unless it begins after it; one taken has exactly its rounds |
| `SharedStreamSteps.IdlesExactly` | decsim/controller/feedback_streams.py:319-365 | an idle cycle gives one round just when its stream is open, dynamic, below its limit and not yet continued this tick, and its whole group idles; a group idle in part is refused unless a claim split it |
| `SharedStreamSteps.SourceIsBound` | decsim/controller/feedback_streams.py:514-564 | a feedback source that has started is refused on any other stream, whatever it declares, and on its own once that has moved on |
| `SharedStreamSteps.SealedStays` | decsim/controller/feedback_streams.py:367-377 | over every run a sealed stream stays sealed and is given no more idle rounds |
| `SharedStreams.SplitEndsTheHold` | decsim/controller/feedback_streams.py:418-442 | claiming part of a group leaves no patch of the group holding its stream |
| `SharedStreamObjects.FeedbackStreams.ReserveStreamRounds` | decsim/controller/feedback_streams.py:616-645 | the method reserves the rounds, or refuses a taken offset or an off-boundary finalizer and changes nothing |
| `SharedStreamObjects.FeedbackStreams.HoldThePatches` | decsim/controller/feedback_streams.py:379-442 | the loops over the patches leave the holds the rule gives |
| `SharedStreamObjects.FeedbackStreams.ExtendLiveStream` | decsim/controller/feedback_streams.py:319-365 | the method extends, leaves or refuses as the rule says |
| `IdleRounds.EveryIdleRoundDecoded` | decsim/controller/idle_rounds.py:113-180 | with SeparateDecodeJobs, at the workload's end the jobs' rounds less their buffers are the idle rounds emitted, patch by patch, no job longer than a commit region and its buffer or without an operation |
| `IdleRounds.JobAtEachRegion` | decsim/controller/idle_rounds.py:133-148 | in every run an idle round makes a job just when it completes a commit region of its idle period, and the job is of that region |
| `IdleRounds.JobAtPeriodEnd` | decsim/controller/idle_rounds.py:150-164 | a shorter job comes only where an idle period ends, and is of what its full regions left |
| `IdleRounds.EveryRunBalanced` | decsim/controller/idle_rounds.py:50-111 | from the start, what is charged and what is not make what is unclaimed after every event just when every claim covers only patches its operation occupies or that have no round outside a job |
| `IdleRounds.ClaimsNoneExactly` | decsim/controller/idle_rounds.py:72-111 | a claim prepends no round and keeps the balance just when every patch it covers is occupied by the operation or has no round outside a job |
| `IdleRounds.BareOperationClaimsTwice` | decsim/controller/idle_rounds.py:83-111 | an operation without patches claims its second qubit's idle round, which a job decodes too |
| `IdleRounds.IgnoreClaimsEachOnce` | decsim/controller/policies.py:37-64 | under Ignore no job is made and a claim finds on a patch exactly its idle rounds since the last claim |
| `IdleRounds.IdleRoundAccounting.Claim` | decsim/controller/idle_rounds.py:90-111 | the loop takes the longest run among the patches, however often one is named, and resets each |
| `IdleRounds.IdleRoundAccounting.StartCommand` | decsim/controller/idle_rounds.py:72-88 | every patch's idle period ends before the claim |
| `IdleRounds.IdleRoundAccounting.EndEveryIdlePeriod` | decsim/controller/idle_rounds.py:113-120 | the loop settles every idle patch under the operation that left it idle |
| `StagedWalks.WalkAgainstLatency` | decsim/decoders/staged_decoder.py:104-115 | a job's walk takes at least the declared latency and, with stages of their own names, at most two ticks short of two periods more |
| `StagedWalks.WalkIsOneWait` | decsim/decoders/staged_decoder.py:244-282 | however the cycles are split into stages, the walk ends at the edge all of them end at |
| `StagedWalks.DeclaredExactly` | decsim/decoders/staged_decoder.py:104-115 | the declared ticks are the stages' own just when no stage that has cycles is followed by one of its name |
| `StagedWalks.RepeatedNameIsLost` | decsim/decoders/staged_decoder.py:104-115 | two stages of one name, of twenty ticks and thirty, are declared as thirty and take fifty |
| `StagedWalks.TicksByName` | decsim/decoders/staged_decoder.py:104-115 | the ticks kept by name sum to those of the stages no later one replaces |
| `StagedWalks.Walk` | decsim/decoders/staged_decoder.py:244-282 | entering one stage after another ends where the walk ends |
| `SurfaceCode.StabilizerCount` | tools/membrane_check.py:198-224 | a rectangle of any size at any origin has width times height less one stabilizers |
| `SurfaceCode.ListCommutes` | tools/membrane_check.py:198-246 | every X and Z stabilizer in the list share an even number of data qubits |
| `SurfaceCode.KeptShape` | tools/membrane_check.py:226-246 | a kept plaquette is whole, or a half along one edge of the rectangle |
| `SurfaceCode.RectangleStabilizers` | tools/membrane_check.py:198-224 | the loops over columns and rows give that list |

## Left out

- Decoding algorithms, Stim, link timing and statistics: a decode is an arbitrary result after a
  number of ticks, and a transfer lands after any delay.
- Detection event formation, merged fragments' contents and the widths of what is sent: a round is
  its key, its fragments and its route.
- The window planner, syndrome stores and the execution runtime: their answers are arbitrary or
  named above as assumptions.
- Memory room (decsim/decoders/decoder_unit.py:98-126) in the scheduling part: a yes or no of the
  unit; the bits themselves are accounted for in the input memory.
- How a batch's input is put together, and the order a reopened batch's members come in: they keep
  the batch's own order.
- A window's own decode in the queue of a pool that merges, and the calls the window side makes
  between two answers of one batch.
- Materialization and row layout checks of the input memory, reading an input where it lies, copy
  folds and formation claims.
- Which kind of cancel ended a request: queued, staged and running are one outcome, cancelled.
- The order in which records, attempts and running lives are walked where no result depends on it.
- What a ledger holds after a call that raised.
- Soft-output walks' delays, confidence values, iteration counts, crossing commits and the other
  figures of a joined answer.
- The ranks of LongestUndecoded and MostCritical: what is proved of a drain holds of any ranking.
- Floating-point rounding of priors: they are real numbers.
- Withdrawing an event from the engine, and the settled-state checks at a run's end.
- How decsim/frontends/patch_lives.py builds its tables: a life is given by counting the discards
  before an operation.
- Readouts a source sends later than their boundary, and bodies that only finalize a round.
- SharedStreams.IntervalsApart: orders the intervals given, not the rounds as they leave; segments
  that run side by side on parts of one group send theirs in any order, as the code lets them.
- Everything in tools/membrane_check.py but the rectangle's geometry.
