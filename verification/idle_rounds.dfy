/** Idle rounds per patch: how many wait to be claimed, and what decode jobs they cost. Under
    SeparateDecodeJobs every idle round is in one job and claims prepend none; under Ignore a
    claim takes the longest run among the operation's patches.
 */
module IdleRounds {
  import opened Options

  datatype Policy = Ignore | SeparateDecodeJobs

  /** The rounds of a commit region and of the buffer that follows it. */
  datatype Geometry = Geometry(commit: nat, buffer: nat)

  datatype Operation = Operation(id: nat, patches: seq<nat>, qubits: seq<nat>)

  /** One patch's counts: rounds no operation claimed yet, those of them in jobs, and those since
      its latest job. */
  datatype PatchIdle = PatchIdle(operation: Option<nat>, unclaimed: nat, charged: nat, uncharged: nat, lastRound: nat)

  const NoneIdle: PatchIdle := PatchIdle(None, 0, 0, 0, 0)

  /** A load-only job: the idle rounds it counts, the rounds it decodes and its label. */
  datatype Job = Job(patch: nat, counted: nat, rounds: nat, operation: Option<nat>, lastRound: nat)

  /** The patches' counts, the jobs submitted, and the patches of the rounds emitted so far. */
  datatype Ledger = Ledger(idles: map<nat, PatchIdle>, jobs: seq<Job>, emitted: multiset<nat>)

  const Empty: Ledger := Ledger(map[], [], multiset{})

  function IdleOf(ledger: Ledger, patch: nat): PatchIdle {
    if patch in ledger.idles then ledger.idles[patch] else NoneIdle
  }

  /** One job of the rounds counted plus the buffer's. */
  function Submit(
    geometry: Geometry, ledger: Ledger, operation: Option<nat>, patch: nat, counted: nat, lastRound: nat): Ledger {
    var idle := IdleOf(ledger, patch);
    ledger.(
      idles := ledger.idles[patch := idle.(charged := idle.charged + counted)],
      jobs := ledger.jobs + [Job(patch, counted, counted + geometry.buffer, operation, lastRound)])
  }

  /** One idle round toward the next job; a full commit region is one. */
  function SubmitIfDue(geometry: Geometry, ledger: Ledger, operation: nat, patch: nat, round: nat): Ledger {
    var idle := IdleOf(ledger, patch);
    var counted := ledger.(idles := ledger.idles[patch := idle.(uncharged := idle.uncharged + 1)]);
    var submitted :=
      if idle.uncharged + 1 == geometry.commit
      then Submit(geometry, counted, Some(operation), patch, idle.uncharged + 1, round)
      else counted;
    var after := IdleOf(submitted, patch);
    var left := if idle.uncharged + 1 == geometry.commit then 0 else after.uncharged;
    submitted.(idles := submitted.idles[patch := after.(uncharged := left, lastRound := round)])
  }

  /** What no full region took, as one shorter job. */
  function EndPeriod(policy: Policy, geometry: Geometry, ledger: Ledger, operation: Option<nat>, patch: nat): Ledger {
    if policy.Ignore? then ledger
    else
      var idle := IdleOf(ledger, patch);
      var settled := ledger.(idles := ledger.idles[patch := idle.(uncharged := 0, lastRound := 0)]);
      if idle.uncharged == 0 then settled
      else Submit(geometry, settled, operation, patch, idle.uncharged, idle.lastRound)
  }

  /** One idle round of a patch, unless a stream carries it. */
  function EmitIdle(policy: Policy, geometry: nat -> Geometry, ledger: Ledger, operation: nat, patch: nat, round: nat,
    isStreamed: bool): Ledger {
    if isStreamed then ledger
    else
      var relayed := if policy.Ignore? then ledger else SubmitIfDue(geometry(patch), ledger, operation, patch, round);
      var idle := IdleOf(relayed, patch);
      relayed.(
        idles := relayed.idles[patch := idle.(operation := Some(operation), unclaimed := idle.unclaimed + 1)],
        emitted := relayed.emitted + multiset{patch})
  }

  /** The patches an operation occupies; its first qubit stands in for none. */
  function PatchesOf(operation: Operation): seq<nat> {
    if operation.patches != [] then operation.patches
    else if operation.qubits != [] then [operation.qubits[0]]
    else [0]
  }

  function ClaimedBy(operation: Operation): seq<nat> {
    if operation.patches != [] then operation.patches else operation.qubits
  }

  function EndPeriods(
    policy: Policy, geometry: nat -> Geometry, ledger: Ledger, operation: nat, patches: seq<nat>): Ledger
    decreases |patches|
  {
    if patches == [] then ledger
    else EndPeriods(policy, geometry, EndPeriod(policy, geometry(patches[0]), ledger, Some(operation), patches[0]),
      operation, patches[1..])
  }

  function Claimed(ledger: Ledger, patch: nat): Ledger {
    if patch !in ledger.idles then ledger
    else ledger.(idles := ledger.idles[patch := ledger.idles[patch].(unclaimed := 0, charged := 0)])
  }

  function ClaimAll(ledger: Ledger, patches: seq<nat>): Ledger
    decreases |patches|
  {
    if patches == [] then ledger else ClaimAll(Claimed(ledger, patches[0]), patches[1..])
  }

  function Undecoded(ledger: Ledger, patch: nat): int {
    IdleOf(ledger, patch).unclaimed - IdleOf(ledger, patch).charged
  }

  /** The rounds a claim takes: no patch waits longer, and some patch as long unless none waits. */
  ghost predicate IsLongest(ledger: Ledger, patches: seq<nat>, count: nat) {
    && (forall p :: p in patches ==> Undecoded(ledger, p) <= count)
    && (count > 0 ==> exists p :: p in patches && Undecoded(ledger, p) == count)
  }

  /** An operation starts: its patches' idle periods end and their rounds are claimed. */
  function Start(policy: Policy, geometry: nat -> Geometry, ledger: Ledger, operation: Operation): Ledger {
    ClaimAll(EndPeriods(policy, geometry, ledger, operation.id, PatchesOf(operation)), ClaimedBy(operation))
  }

  /** The workload's end settles every patch, under the operation that left it idle. */
  function EndAll(policy: Policy, geometry: nat -> Geometry, ledger: Ledger, patches: seq<nat>): Ledger
    decreases |patches|
  {
    if patches == [] then ledger
    else EndAll(policy, geometry,
      EndPeriod(policy, geometry(patches[0]), ledger, IdleOf(ledger, patches[0]).operation, patches[0]), patches[1..])
  }

  datatype Event =
    | IdleRound(operation: nat, patch: nat, round: nat, isStreamed: bool)
    | OperationStarts(starting: Operation)

  function Take(policy: Policy, geometry: nat -> Geometry, ledger: Ledger, event: Event): Ledger {
    match event
    case IdleRound(operation, patch, round, isStreamed) =>
      EmitIdle(policy, geometry, ledger, operation, patch, round, isStreamed)
    case OperationStarts(operation) => Start(policy, geometry, ledger, operation)
  }

  function Run(policy: Policy, geometry: nat -> Geometry, ledger: Ledger, events: seq<Event>): Ledger
    decreases |events|
  {
    if events == [] then ledger else Run(policy, geometry, Take(policy, geometry, ledger, events[0]), events[1..])
  }

  // ---- what is decoded

  /** The idle rounds of the patch the jobs decode. */
  function Decoded(jobs: seq<Job>, patch: nat): nat {
    if jobs == [] then 0
    else Decoded(jobs[..|jobs| - 1], patch) + (if jobs[|jobs| - 1].patch == patch then jobs[|jobs| - 1].counted else 0)
  }

  lemma DecodedGrows(jobs: seq<Job>, job: Job, patch: nat)
    ensures Decoded(jobs + [job], patch) == Decoded(jobs, patch) + (if job.patch == patch then job.counted else 0)
  {
    assert (jobs + [job])[..|jobs|] == jobs;
  }

  /** A job is of one commit region at most, with the buffer, under a known operation. */
  ghost predicate IsJob(geometry: nat -> Geometry, job: Job) {
    && 1 <= job.counted && (geometry(job.patch).commit > 0 ==> job.counted <= geometry(job.patch).commit)
    && job.rounds == job.counted + geometry(job.patch).buffer
    && job.operation.Some?
  }

  ghost predicate Accounted(geometry: nat -> Geometry, ledger: Ledger, patch: nat) {
    && Decoded(ledger.jobs, patch) + IdleOf(ledger, patch).uncharged == ledger.emitted[patch]
    && (geometry(patch).commit > 0 ==> IdleOf(ledger, patch).uncharged < geometry(patch).commit)
    && (IdleOf(ledger, patch).uncharged > 0 ==> IdleOf(ledger, patch).operation.Some?)
  }

  ghost predicate JobsMade(geometry: nat -> Geometry, ledger: Ledger) {
    forall k | 0 <= k < |ledger.jobs| :: IsJob(geometry, ledger.jobs[k])
  }

  ghost predicate Sound(geometry: nat -> Geometry, ledger: Ledger) {
    JobsMade(geometry, ledger) && forall p: nat :: Accounted(geometry, ledger, p)
  }

  /** What is charged and what is not make what is unclaimed. */
  ghost predicate Balanced(ledger: Ledger, patch: nat) {
    IdleOf(ledger, patch).charged + IdleOf(ledger, patch).uncharged == IdleOf(ledger, patch).unclaimed
  }

  lemma EmitKeeps(geometry: nat -> Geometry, ledger: Ledger, operation: nat, patch: nat, round: nat, isStreamed: bool)
    requires Sound(geometry, ledger)
    ensures Sound(geometry, EmitIdle(SeparateDecodeJobs, geometry, ledger, operation, patch, round, isStreamed))
    ensures (forall p: nat :: Balanced(ledger, p)) ==>
      forall p: nat :: Balanced(EmitIdle(SeparateDecodeJobs, geometry, ledger, operation, patch, round, isStreamed), p)
  {
    var next := EmitIdle(SeparateDecodeJobs, geometry, ledger, operation, patch, round, isStreamed);
    var counted := IdleOf(ledger, patch).uncharged + 1;
    assert Accounted(geometry, ledger, patch);
    forall p: nat ensures Accounted(geometry, next, p) && (Balanced(ledger, p) ==> Balanced(next, p)) {
      assert Accounted(geometry, ledger, p);
      DecodedGrows(ledger.jobs, Job(patch, counted, counted + geometry(patch).buffer, Some(operation), round), p);
    }
  }

  lemma EndPeriodKeeps(geometry: nat -> Geometry, ledger: Ledger, operation: Option<nat>, patch: nat)
    requires Sound(geometry, ledger)
    requires IdleOf(ledger, patch).uncharged > 0 ==> operation.Some?
    ensures Sound(geometry, EndPeriod(SeparateDecodeJobs, geometry(patch), ledger, operation, patch))
    ensures IdleOf(EndPeriod(SeparateDecodeJobs, geometry(patch), ledger, operation, patch), patch).uncharged == 0
    ensures forall p: nat :: p != patch ==>
      IdleOf(EndPeriod(SeparateDecodeJobs, geometry(patch), ledger, operation, patch), p) == IdleOf(ledger, p)
    ensures forall p: nat ::
      Balanced(ledger, p) ==> Balanced(EndPeriod(SeparateDecodeJobs, geometry(patch), ledger, operation, patch), p)
    ensures EndPeriod(SeparateDecodeJobs, geometry(patch), ledger, operation, patch).emitted == ledger.emitted
  {
    var next := EndPeriod(SeparateDecodeJobs, geometry(patch), ledger, operation, patch);
    var idle := IdleOf(ledger, patch);
    assert Accounted(geometry, ledger, patch);
    forall p: nat ensures Accounted(geometry, next, p) {
      assert Accounted(geometry, ledger, p);
      DecodedGrows(ledger.jobs,
        Job(patch, idle.uncharged, idle.uncharged + geometry(patch).buffer, operation, idle.lastRound), p);
    }
  }

  lemma {:induction false} EndPeriodsKeep(geometry: nat -> Geometry, ledger: Ledger, operation: nat, patches: seq<nat>)
    requires Sound(geometry, ledger)
    ensures var next := EndPeriods(SeparateDecodeJobs, geometry, ledger, operation, patches);
            && Sound(geometry, next) && next.emitted == ledger.emitted
            && (forall p: nat :: Balanced(ledger, p) ==> Balanced(next, p))
            && (forall p: nat :: p in patches ==> IdleOf(next, p).uncharged == 0)
            && (forall p: nat :: p !in patches ==> IdleOf(next, p) == IdleOf(ledger, p))
            && (forall p: nat :: IdleOf(ledger, p).uncharged == 0 ==> IdleOf(next, p).uncharged == 0)
    decreases |patches|
  {
    if patches != [] {
      var first := EndPeriod(SeparateDecodeJobs, geometry(patches[0]), ledger, Some(operation), patches[0]);
      EndPeriodKeeps(geometry, ledger, Some(operation), patches[0]);
      EndPeriodsKeep(geometry, first, operation, patches[1..]);
      assert forall p :: p in patches <==> p == patches[0] || p in patches[1..];
    }
  }

  lemma {:induction false} ClaimEach(ledger: Ledger, patches: seq<nat>, patch: nat)
    ensures IdleOf(ClaimAll(ledger, patches), patch) == if patch in patches && patch in ledger.idles
      then IdleOf(ledger, patch).(unclaimed := 0, charged := 0) else IdleOf(ledger, patch)
    ensures patch in ClaimAll(ledger, patches).idles <==> patch in ledger.idles
    ensures ClaimAll(ledger, patches).jobs == ledger.jobs && ClaimAll(ledger, patches).emitted == ledger.emitted
    decreases |patches|
  {
    if patches != [] {
      assert patch in patches <==> patch == patches[0] || patch in patches[1..];
      ClaimEach(Claimed(ledger, patches[0]), patches[1..], patch);
    }
  }

  lemma StartKeeps(geometry: nat -> Geometry, ledger: Ledger, operation: Operation)
    requires Sound(geometry, ledger)
    ensures Sound(geometry, Start(SeparateDecodeJobs, geometry, ledger, operation))
  {
    var ended := EndPeriods(SeparateDecodeJobs, geometry, ledger, operation.id, PatchesOf(operation));
    EndPeriodsKeep(geometry, ledger, operation.id, PatchesOf(operation));
    forall p: nat ensures Accounted(geometry, Start(SeparateDecodeJobs, geometry, ledger, operation), p)
      ensures Start(SeparateDecodeJobs, geometry, ledger, operation).jobs == ended.jobs
    {
      assert Accounted(geometry, ended, p);
      ClaimEach(ended, ClaimedBy(operation), p);
    }
    ClaimEach(ended, ClaimedBy(operation), 0);
  }

  /** Every patch the claim covers has its idle period ended, or no round outside a job. */
  ghost predicate ClaimsSettled(ledger: Ledger, operation: Operation) {
    forall p :: p in ClaimedBy(operation) && p !in PatchesOf(operation) ==> IdleOf(ledger, p).uncharged == 0
  }

  /** A claim prepends no round and keeps every patch balanced just when each patch it covers is
      one the operation occupies, or has no round outside a job. */
  lemma ClaimsNoneExactly(geometry: nat -> Geometry, ledger: Ledger, operation: Operation, count: nat)
    requires Sound(geometry, ledger) && forall p: nat :: Balanced(ledger, p)
    requires IsLongest(EndPeriods(SeparateDecodeJobs, geometry, ledger, operation.id, PatchesOf(operation)),
      ClaimedBy(operation), count)
    ensures count == 0 <==> ClaimsSettled(ledger, operation)
    ensures (forall p: nat :: Balanced(Start(SeparateDecodeJobs, geometry, ledger, operation), p)) <==>
      ClaimsSettled(ledger, operation)
  {
    var ended := EndPeriods(SeparateDecodeJobs, geometry, ledger, operation.id, PatchesOf(operation));
    var next := Start(SeparateDecodeJobs, geometry, ledger, operation);
    EndPeriodsKeep(geometry, ledger, operation.id, PatchesOf(operation));
    forall p: nat
      ensures Undecoded(ended, p) == IdleOf(ended, p).uncharged
      ensures Balanced(next, p) <==> !(p in ClaimedBy(operation) && IdleOf(ended, p).uncharged > 0)
    {
      assert Balanced(ended, p);
      ClaimEach(ended, ClaimedBy(operation), p);
    }
    assert ClaimsSettled(ledger, operation) <==> forall p: nat ::
      p in ClaimedBy(operation) ==> IdleOf(ended, p).uncharged == 0;
  }

  /** An operation without patches claims its second qubit's rounds, which a job decodes again. */
  lemma BareOperationClaimsTwice()
    ensures var geometry := (p: nat) => Geometry(2, 1);
            var waiting := EmitIdle(SeparateDecodeJobs, geometry, Empty, 0, 5, 1, false);
            var bare := Operation(9, [], [4, 5]);
            !ClaimsSettled(waiting, bare)
            && IsLongest(EndPeriods(SeparateDecodeJobs, geometry, waiting, 9, PatchesOf(bare)), ClaimedBy(bare), 1)
            && EndAll(SeparateDecodeJobs, geometry, Start(SeparateDecodeJobs, geometry, waiting, bare), [5]).jobs ==
              [Job(5, 1, 2, Some(0), 1)]
  {
    var geometry := (p: nat) => Geometry(2, 1);
    var waiting := EmitIdle(SeparateDecodeJobs, geometry, Empty, 0, 5, 1, false);
    var bare := Operation(9, [], [4, 5]);
    assert waiting.idles == map[5 := PatchIdle(Some(0), 1, 0, 1, 1)] && waiting.jobs == [];
    assert [4][1..] == [];
    var ended := EndPeriods(SeparateDecodeJobs, geometry, waiting, 9, PatchesOf(bare));
    assert PatchesOf(bare) == [4];
    assert ended == EndPeriods(SeparateDecodeJobs, geometry,
      EndPeriod(SeparateDecodeJobs, Geometry(2, 1), waiting, Some(9), 4), 9, []);
    assert ended.idles == map[5 := PatchIdle(Some(0), 1, 0, 1, 1), 4 := NoneIdle];
    assert ClaimedBy(bare)[1..] == [5] && ClaimedBy(bare)[1..][1..] == [];
    assert 5 in ClaimedBy(bare) && Undecoded(ended, 5) == 1 && Undecoded(ended, 4) == 0;
    var started := Start(SeparateDecodeJobs, geometry, waiting, bare);
    assert started == Claimed(Claimed(ended, 4), 5);
    assert started.idles[5] == PatchIdle(Some(0), 0, 0, 1, 1);
    assert [5][1..] == [];
  }

  lemma {:induction false} EndAllKeeps(geometry: nat -> Geometry, ledger: Ledger, patches: seq<nat>)
    requires Sound(geometry, ledger)
    ensures var next := EndAll(SeparateDecodeJobs, geometry, ledger, patches);
            && Sound(geometry, next) && next.emitted == ledger.emitted
            && (forall p: nat :: p in patches ==> IdleOf(next, p).uncharged == 0)
            && (forall p: nat :: IdleOf(ledger, p).uncharged == 0 ==> IdleOf(next, p).uncharged == 0)
    decreases |patches|
  {
    if patches != [] {
      var p := patches[0];
      assert Accounted(geometry, ledger, p);
      EndPeriodKeeps(geometry, ledger, IdleOf(ledger, p).operation, p);
      EndAllKeeps(geometry, EndPeriod(SeparateDecodeJobs, geometry(p), ledger, IdleOf(ledger, p).operation, p),
        patches[1..]);
      assert forall q :: q in patches <==> q == p || q in patches[1..];
    }
  }

  // ---- every run

  lemma {:induction false} EveryRunSound(geometry: nat -> Geometry, ledger: Ledger, events: seq<Event>)
    requires Sound(geometry, ledger)
    ensures Sound(geometry, Run(SeparateDecodeJobs, geometry, ledger, events))
    decreases |events|
  {
    if events != [] {
      match events[0] {
        case IdleRound(operation, patch, round, isStreamed) =>
          EmitKeeps(geometry, ledger, operation, patch, round, isStreamed);
        case OperationStarts(operation) => StartKeeps(geometry, ledger, operation);
      }
      EveryRunSound(geometry, Take(SeparateDecodeJobs, geometry, ledger, events[0]), events[1..]);
    }
  }

  /** Whatever starts and idles, when the workload's end has settled every patch the jobs' rounds
      less their buffers are the idle rounds emitted, patch by patch. */
  lemma EveryIdleRoundDecoded(geometry: nat -> Geometry, events: seq<Event>, patches: seq<nat>, patch: nat)
    requires var ledger := Run(SeparateDecodeJobs, geometry, Empty, events);
             forall p :: p in ledger.idles ==> p in patches
    ensures var ledger := Run(SeparateDecodeJobs, geometry, Empty, events);
            var last := EndAll(SeparateDecodeJobs, geometry, ledger, patches);
            && Decoded(last.jobs, patch) == ledger.emitted[patch]
            && JobsMade(geometry, last)
  {
    assert forall p: nat :: Accounted(geometry, Empty, p);
    EveryRunSound(geometry, Empty, events);
    var ledger := Run(SeparateDecodeJobs, geometry, Empty, events);
    var last := EndAll(SeparateDecodeJobs, geometry, ledger, patches);
    EndAllKeeps(geometry, ledger, patches);
    assert IdleOf(last, patch).uncharged == 0;
    assert Accounted(geometry, last, patch);
  }

  ghost predicate AllBalanced(ledger: Ledger) {
    forall p: nat :: Balanced(ledger, p)
  }

  /** Every operation that starts claims only patches it occupies, or with no round outside a job:
      so for every operation that names its patches, as every lowered one does. */
  ghost predicate StartsSettled(geometry: nat -> Geometry, ledger: Ledger, events: seq<Event>)
    decreases |events|
  {
    events != [] ==>
      && (events[0].OperationStarts? ==> ClaimsSettled(ledger, events[0].starting))
      && StartsSettled(geometry, Take(SeparateDecodeJobs, geometry, ledger, events[0]), events[1..])
  }

  ghost predicate StaysBalanced(geometry: nat -> Geometry, ledger: Ledger, events: seq<Event>)
    decreases |events|
  {
    && AllBalanced(ledger)
    && (events != [] ==> StaysBalanced(geometry, Take(SeparateDecodeJobs, geometry, ledger, events[0]), events[1..]))
  }

  lemma StartBalances(geometry: nat -> Geometry, ledger: Ledger, operation: Operation)
    requires Sound(geometry, ledger) && AllBalanced(ledger)
    ensures AllBalanced(Start(SeparateDecodeJobs, geometry, ledger, operation)) <==> ClaimsSettled(ledger, operation)
  {
    var ended := EndPeriods(SeparateDecodeJobs, geometry, ledger, operation.id, PatchesOf(operation));
    LongestOf(ended, ClaimedBy(operation));
    var count: nat :| IsLongest(ended, ClaimedBy(operation), count);
    ClaimsNoneExactly(geometry, ledger, operation, count);
  }

  lemma {:induction false} BalancedExactly(geometry: nat -> Geometry, ledger: Ledger, events: seq<Event>)
    requires Sound(geometry, ledger) && AllBalanced(ledger)
    ensures StaysBalanced(geometry, ledger, events) <==> StartsSettled(geometry, ledger, events)
    decreases |events|
  {
    if events != [] {
      var next := Take(SeparateDecodeJobs, geometry, ledger, events[0]);
      match events[0] {
        case IdleRound(operation, p, round, isStreamed) => EmitKeeps(geometry, ledger, operation, p, round, isStreamed);
        case OperationStarts(operation) =>
          StartKeeps(geometry, ledger, operation);
          StartBalances(geometry, ledger, operation);
      }
      if AllBalanced(next) {
        BalancedExactly(geometry, next, events[1..]);
      }
    }
  }

  /** From the start, what is charged and what is not make what is unclaimed at every point of the
      run just when every claim of it is settled. */
  lemma EveryRunBalanced(geometry: nat -> Geometry, events: seq<Event>)
    ensures StaysBalanced(geometry, Empty, events) <==> StartsSettled(geometry, Empty, events)
  {
    assert forall p: nat :: Accounted(geometry, Empty, p);
    BalancedExactly(geometry, Empty, events);
  }

  /** An operation that names its patches, or no more than one qubit, claims only what it occupies. */
  lemma NamedIsSettled(ledger: Ledger, operation: Operation)
    requires operation.patches != [] || |operation.qubits| <= 1
    ensures ClaimsSettled(ledger, operation)
  {
  }

  lemma {:induction false} LongestOf(ledger: Ledger, patches: seq<nat>)
    ensures exists count: nat :: IsLongest(ledger, patches, count)
    decreases |patches|
  {
    if patches == [] {
      assert IsLongest(ledger, patches, 0);
    } else {
      LongestOf(ledger, patches[1..]);
      var rest: nat :| IsLongest(ledger, patches[1..], rest);
      var most := if Undecoded(ledger, patches[0]) > rest then Undecoded(ledger, patches[0]) else rest;
      assert forall p :: p in patches <==> p == patches[0] || p in patches[1..];
      assert IsLongest(ledger, patches, most);
    }
  }

  /** The patch's idle rounds since an operation last claimed it. */
  function SinceClaim(events: seq<Event>, patch: nat): nat
    decreases |events|
  {
    if events == [] then 0
    else
      var before := SinceClaim(events[..|events| - 1], patch);
      match events[|events| - 1]
      case IdleRound(_, p, _, isStreamed) => if p == patch && !isStreamed then before + 1 else before
      case OperationStarts(operation) => if patch in ClaimedBy(operation) then 0 else before
  }

  lemma {:induction false} RunSplit(policy: Policy, geometry: nat -> Geometry, ledger: Ledger, events: seq<Event>)
    requires events != []
    ensures Run(policy, geometry, ledger, events) ==
      Take(policy, geometry, Run(policy, geometry, ledger, events[..|events| - 1]), events[|events| - 1])
    decreases |events|
  {
    if |events| > 1 {
      RunSplit(policy, geometry, Take(policy, geometry, ledger, events[0]), events[1..]);
      assert events[1..][..|events| - 2] == events[..|events| - 1][1..];
    } else {
      assert events[1..] == [] && events[..0] == [];
    }
  }

  lemma {:induction false} IgnoreEndsNothing(
    geometry: nat -> Geometry, ledger: Ledger, operation: nat, patches: seq<nat>)
    ensures EndPeriods(Ignore, geometry, ledger, operation, patches) == ledger
    decreases |patches|
  {
    if patches != [] {
      IgnoreEndsNothing(geometry, ledger, operation, patches[1..]);
    }
  }

  /** Under Ignore no job is made, and what a claim finds on a patch is every idle round since the
      last claim, so each is claimed once at most. */
  lemma {:induction false} IgnoreClaimsEachOnce(geometry: nat -> Geometry, events: seq<Event>, patch: nat)
    ensures var ledger := Run(Ignore, geometry, Empty, events);
            && Undecoded(ledger, patch) == SinceClaim(events, patch)
            && IdleOf(ledger, patch).charged == 0 && ledger.jobs == []
    decreases |events|
  {
    if events != [] {
      var before := Run(Ignore, geometry, Empty, events[..|events| - 1]);
      RunSplit(Ignore, geometry, Empty, events);
      IgnoreClaimsEachOnce(geometry, events[..|events| - 1], patch);
      match events[|events| - 1] {
        case IdleRound(_, _, _, _) =>
        case OperationStarts(operation) =>
          IgnoreEndsNothing(geometry, before, operation.id, PatchesOf(operation));
          ClaimEach(before, ClaimedBy(operation), patch);
      }
    }
  }

  // ---- which jobs, and when

  /** The patch's idle rounds since an operation last occupied it. */
  function SincePeriod(events: seq<Event>, patch: nat): nat
    decreases |events|
  {
    if events == [] then 0
    else SinceWith(SincePeriod(events[..|events| - 1], patch), events[|events| - 1], patch)
  }

  function SinceWith(before: nat, event: Event, patch: nat): nat {
    match event
    case IdleRound(_, p, _, isStreamed) => if p == patch && !isStreamed then before + 1 else before
    case OperationStarts(operation) => if patch in PatchesOf(operation) then 0 else before
  }

  /** What full commit regions leave of so many rounds. */
  function Rest(commit: nat, rounds: nat): nat {
    if 0 < commit <= rounds then Rest(commit, rounds - commit) else rounds
  }

  lemma {:induction false} NextRest(commit: nat, rounds: nat)
    ensures Rest(commit, rounds + 1) == if Rest(commit, rounds) + 1 == commit then 0 else Rest(commit, rounds) + 1
  {
    if 0 < commit <= rounds {
      NextRest(commit, rounds - commit);
    }
  }

  /** An idle round of the patch is outside a job, unless it fills a commit region. */
  lemma IdleRoundCounts(
    geometry: nat -> Geometry, ledger: Ledger, operation: nat, at: nat, round: nat, isStreamed: bool, patch: nat)
    ensures var uncharged := IdleOf(ledger, patch).uncharged;
      IdleOf(EmitIdle(SeparateDecodeJobs, geometry, ledger, operation, at, round, isStreamed), patch).uncharged ==
        if at != patch || isStreamed then uncharged
        else if uncharged + 1 == geometry(patch).commit then 0 else uncharged + 1
  {
  }

  lemma StartCounts(geometry: nat -> Geometry, ledger: Ledger, operation: Operation, patch: nat)
    requires Sound(geometry, ledger)
    ensures IdleOf(Start(SeparateDecodeJobs, geometry, ledger, operation), patch).uncharged ==
      if patch in PatchesOf(operation) then 0 else IdleOf(ledger, patch).uncharged
  {
    var ended := EndPeriods(SeparateDecodeJobs, geometry, ledger, operation.id, PatchesOf(operation));
    EndPeriodsKeep(geometry, ledger, operation.id, PatchesOf(operation));
    ClaimEach(ended, ClaimedBy(operation), patch);
  }

  lemma EventCounts(geometry: nat -> Geometry, ledger: Ledger, event: Event, patch: nat, rounds: nat)
    requires Sound(geometry, ledger) && IdleOf(ledger, patch).uncharged == Rest(geometry(patch).commit, rounds)
    ensures IdleOf(Take(SeparateDecodeJobs, geometry, ledger, event), patch).uncharged ==
      Rest(geometry(patch).commit, SinceWith(rounds, event, patch))
  {
    match event {
      case IdleRound(operation, at, round, isStreamed) =>
        NextRest(geometry(patch).commit, rounds);
        IdleRoundCounts(geometry, ledger, operation, at, round, isStreamed, patch);
      case OperationStarts(operation) =>
        StartCounts(geometry, ledger, operation, patch);
    }
  }

  /** In every run, the rounds of a patch outside any job are what full regions leave of its idle
      period so far. */
  lemma {:induction false} UnchargedIsRest(geometry: nat -> Geometry, events: seq<Event>, patch: nat)
    ensures IdleOf(Run(SeparateDecodeJobs, geometry, Empty, events), patch).uncharged ==
      Rest(geometry(patch).commit, SincePeriod(events, patch))
    decreases |events|
  {
    if events != [] {
      var earlier := events[..|events| - 1];
      RunSplit(SeparateDecodeJobs, geometry, Empty, events);
      UnchargedIsRest(geometry, earlier, patch);
      SoundFromStart(geometry, earlier);
      EventCounts(geometry, Run(SeparateDecodeJobs, geometry, Empty, earlier), events[|events| - 1], patch,
        SincePeriod(earlier, patch));
    }
  }

  lemma SoundFromStart(geometry: nat -> Geometry, events: seq<Event>)
    ensures Sound(geometry, Run(SeparateDecodeJobs, geometry, Empty, events))
  {
    assert forall p: nat :: Accounted(geometry, Empty, p);
    EveryRunSound(geometry, Empty, events);
  }

  /** In every run an idle round makes a job just when it completes a commit region of its idle
      period, and the job is of that region. */
  lemma JobAtEachRegion(geometry: nat -> Geometry, events: seq<Event>, operation: nat, patch: nat, round: nat)
    ensures var ledger := Run(SeparateDecodeJobs, geometry, Empty, events);
      EmitIdle(SeparateDecodeJobs, geometry, ledger, operation, patch, round, false).jobs ==
        ledger.jobs + RegionJob(geometry(patch), SincePeriod(events, patch) + 1, operation, patch, round)
  {
    UnchargedIsRest(geometry, events, patch);
    RoundMakesJob(geometry, Run(SeparateDecodeJobs, geometry, Empty, events), SincePeriod(events, patch), operation,
      patch, round);
  }

  /** The job of the commit region that the period's latest round completes, if it completes one. */
  function RegionJob(geometry: Geometry, rounds: nat, operation: nat, patch: nat, round: nat): seq<Job> {
    if Rest(geometry.commit, rounds) == 0
    then [Job(patch, geometry.commit, geometry.commit + geometry.buffer, Some(operation), round)]
    else []
  }

  lemma RoundMakesJob(
    geometry: nat -> Geometry, ledger: Ledger, rounds: nat, operation: nat, patch: nat, round: nat)
    requires IdleOf(ledger, patch).uncharged == Rest(geometry(patch).commit, rounds)
    ensures EmitIdle(SeparateDecodeJobs, geometry, ledger, operation, patch, round, false).jobs ==
      ledger.jobs + RegionJob(geometry(patch), rounds + 1, operation, patch, round)
  {
    NextRest(geometry(patch).commit, rounds);
    assert ledger.jobs + [] == ledger.jobs;
  }

  /** A shorter job comes only where an idle period ends: it is of what its full regions left. */
  lemma JobAtPeriodEnd(geometry: nat -> Geometry, events: seq<Event>, operation: Option<nat>, patch: nat)
    ensures var ledger := Run(SeparateDecodeJobs, geometry, Empty, events);
      var rest := Rest(geometry(patch).commit, SincePeriod(events, patch));
      EndPeriod(SeparateDecodeJobs, geometry(patch), ledger, operation, patch).jobs ==
        ledger.jobs + if rest > 0
          then [Job(patch, rest, rest + geometry(patch).buffer, operation, IdleOf(ledger, patch).lastRound)] else []
  {
    UnchargedIsRest(geometry, events, patch);
    var ledger := Run(SeparateDecodeJobs, geometry, Empty, events);
    assert ledger.jobs + [] == ledger.jobs;
  }

  lemma LongestGrows(ledger: Ledger, patches: seq<nat>, count: nat, patch: nat)
    requires IsLongest(ledger, patches, count)
    ensures var most := if Undecoded(ledger, patch) > count then Undecoded(ledger, patch) else count;
      IsLongest(ledger, patches + [patch], most)
  {
    var all := patches + [patch];
    assert forall p :: p in all <==> p in patches || p == patch;
  }

  // ---- the accounting as an object

  class IdleRoundAccounting {
    const policy: Policy
    const geometry: nat -> Geometry
    var idleByPatch: map<nat, PatchIdle>
    ghost var emitted: multiset<nat>
    var jobs: seq<Job>

    constructor (policy: Policy, geometry: nat -> Geometry)
      ensures this.policy == policy && this.geometry == geometry && Value() == Empty
    {
      this.policy, this.geometry := policy, geometry;
      idleByPatch, jobs, emitted := map[], [], multiset{};
    }

    ghost function Value(): Ledger
      reads this
    {
      Ledger(idleByPatch, jobs, emitted)
    }

    function Idle(patch: nat): PatchIdle
      reads this
    {
      if patch in idleByPatch then idleByPatch[patch] else NoneIdle
    }

    method SubmitIdleDecode(operation: Option<nat>, patch: nat, counted: nat, lastRound: nat)
      modifies this
      ensures Value() == Submit(geometry(patch), old(Value()), operation, patch, counted, lastRound)
    {
      var idle := Idle(patch);
      idleByPatch := idleByPatch[patch := idle.(charged := idle.charged + counted)];
      jobs := jobs + [Job(patch, counted, counted + geometry(patch).buffer, operation, lastRound)];
    }

    method SubmitIdleDecodeIfDue(operation: nat, patch: nat, round: nat)
      modifies this
      ensures Value() == SubmitIfDue(geometry(patch), old(Value()), operation, patch, round)
    {
      var idle := Idle(patch);
      idleByPatch := idleByPatch[patch := idle.(uncharged := idle.uncharged + 1)];
      if idle.uncharged + 1 == geometry(patch).commit {
        SubmitIdleDecode(Some(operation), patch, idle.uncharged + 1, round);
        idleByPatch := idleByPatch[patch := Idle(patch).(uncharged := 0)];
      }
      idleByPatch := idleByPatch[patch := Idle(patch).(lastRound := round)];
    }

    method EmitIdleRound(operation: nat, patch: nat, round: nat, isStreamed: bool)
      modifies this
      ensures Value() == EmitIdle(policy, geometry, old(Value()), operation, patch, round, isStreamed)
    {
      if isStreamed {
        return;
      }
      if policy.SeparateDecodeJobs? {
        SubmitIdleDecodeIfDue(operation, patch, round);
      }
      var idle := Idle(patch);
      idleByPatch := idleByPatch[patch := idle.(operation := Some(operation), unclaimed := idle.unclaimed + 1)];
      emitted := emitted + multiset{patch};
    }

    method EndIdlePeriod(operation: Option<nat>, patch: nat)
      modifies this
      ensures Value() == EndPeriod(policy, geometry(patch), old(Value()), operation, patch)
    {
      if policy.Ignore? {
        return;
      }
      var idle := Idle(patch);
      idleByPatch := idleByPatch[patch := idle.(uncharged := 0, lastRound := 0)];
      if idle.uncharged != 0 {
        SubmitIdleDecode(operation, patch, idle.uncharged, idle.lastRound);
      }
    }

    /** The longest run among the patches of rounds no job decoded; each patch starts afresh. */
    method Claim(patches: seq<nat>) returns (count: nat)
      modifies this`idleByPatch
      ensures Value() == ClaimAll(old(Value()), patches)
      ensures IsLongest(old(Value()), patches, count)
    {
      count := 0;
      var n := 0;
      assert patches[0..] == patches;
      while n < |patches|
        invariant n <= |patches|
        invariant ClaimAll(Value(), patches[n..]) == ClaimAll(old(Value()), patches)
        invariant IsLongest(old(Value()), patches[..n], count)
        invariant forall p: nat ::
          IdleOf(Value(), p) == IdleOf(old(Value()), p) || (p in patches[..n] && Undecoded(Value(), p) == 0)
      {
        var patch := patches[n];
        assert patches[n..][0] == patch && patches[n..][1..] == patches[n + 1..];
        assert patches[..n + 1] == patches[..n] + [patch];
        LongestGrows(old(Value()), patches[..n], count, patch);
        if patch in idleByPatch {
          var idle := idleByPatch[patch];
          if idle.unclaimed - idle.charged > count {
            count := idle.unclaimed - idle.charged;
          }
          idleByPatch := idleByPatch[patch := idle.(unclaimed := 0, charged := 0)];
        }
        n := n + 1;
      }
      assert patches[..n] == patches;
    }

    /** The patches' idle periods end, then the claim is taken. */
    method StartCommand(operation: Operation) returns (count: nat)
      modifies this
      ensures Value() == Start(policy, geometry, old(Value()), operation)
      ensures IsLongest(EndPeriods(policy, geometry, old(Value()), operation.id, PatchesOf(operation)),
        ClaimedBy(operation), count)
    {
      var patches := PatchesOf(operation);
      assert patches[0..] == patches;
      for n := 0 to |patches|
        invariant EndPeriods(policy, geometry, Value(), operation.id, patches[n..]) ==
          EndPeriods(policy, geometry, old(Value()), operation.id, patches)
      {
        assert patches[n..][0] == patches[n] && patches[n..][1..] == patches[n + 1..];
        EndIdlePeriod(Some(operation.id), patches[n]);
      }
      count := Claim(ClaimedBy(operation));
    }

    /** The workload is complete: every idle patch is settled. */
    method EndEveryIdlePeriod(patches: seq<nat>)
      requires forall p :: p in patches ==> p in idleByPatch
      modifies this
      ensures Value() == EndAll(policy, geometry, old(Value()), patches)
    {
      assert patches[0..] == patches;
      for n := 0 to |patches|
        invariant EndAll(policy, geometry, Value(), patches[n..]) == EndAll(policy, geometry, old(Value()), patches)
        invariant forall p :: p in patches ==> p in idleByPatch
      {
        assert patches[n..][0] == patches[n] && patches[n..][1..] == patches[n + 1..];
        var operation := idleByPatch[patches[n]].operation;
        EndIdlePeriod(operation, patches[n]);
      }
    }
  }
}
