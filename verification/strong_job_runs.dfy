/** Every run of the escalated requests together with the jobs that serve them. */
module StrongJobRuns {
  import opened Options
  import opened Lists
  import opened StrongLedgers
  import opened StrongAccounts
  import opened StrongAttempts
  import opened StrongCalls
  import opened StrongJobs
  import opened StrongWork
  import opened StrongDrain
  import Runs = StrongRuns

  ghost predicate Fit(m: Machine) {
    && Sound(m.ledger, []) && Working(m.ledger, Jobs(m)) && Alone(m.ledger, m.merging)
    && (forall job | job in Jobs(m) :: Formed(job, m.merging, m.nextBatch))
    && (forall i | 0 <= i < |m.resident| :: m.resident[i].unit < m.ledger.unitCount)
  }

  /** Each live request is served by exactly one job, queued or on a unit. */
  lemma ServedByOneJob(m: Machine, q: Request)
    requires Fit(m) && IsLive(m.ledger, q)
    ensures exists service :: Serves(m.ledger, service, q) && CountJobs(Jobs(m), service) == 1
  {
    var l := m.ledger;
    var service :| Live(q, service) in RecordAt(l, q.At()).live;
    var i :| 0 <= i < |RecordAt(l, q.At()).live| && RecordAt(l, q.At()).live[i] == Live(q, service);
    assert IsServedAt(l, q.At(), i, service);
    assert Serves(l, service, q) && CountJobs(Jobs(m), service) == 1;
  }

  /** Each job serves a live request of its own, and only such. */
  lemma JobServesOne(m: Machine, job: Job)
    requires Fit(m) && job in Jobs(m)
    ensures var answers := StillServed(m.ledger, ServiceOf(job), MembersOf(job));
      answers != [] && ServedExactly(m.ledger, ServiceOf(job), answers)
  {
    CountMember(Jobs(m), ServiceOf(job));
    SurvivorsAnswer(m.ledger, job, m.merging, m.nextBatch);
    AnswersExactly(m.ledger, job, m.merging, m.nextBatch);
  }

  // -------------------------------------------------------- the dispatch

  lemma JobsSplit(m: Machine, pool: nat, pick: seq<Job> -> nat)
    ensures multiset(Jobs(m)) ==
      multiset(Popped(pick, Mine(m.waiting, pool)) + (Others(m.waiting, pool) + JobsOn(m.resident)))
    ensures forall job | job in Popped(pick, Mine(m.waiting, pool)) :: job in Jobs(m) && PoolOf(job) == pool
    ensures forall job | job in Others(m.waiting, pool) + JobsOn(m.resident) :: job in Jobs(m)
  {
    var mine := Mine(m.waiting, pool);
    var popped, rest := Popped(pick, mine), Others(m.waiting, pool) + JobsOn(m.resident);
    PoppedHolds(pick, mine);
    MineAndOthers(m.waiting, pool);
    forall job | job in popped
      ensures job in mine && job in Jobs(m)
    {
      assert job in multiset(popped);
      assert job in multiset(m.waiting);
    }
    forall job | job in rest
      ensures job in Jobs(m)
    {
      assert job in multiset(popped + rest);
      assert job in multiset(Jobs(m));
    }
  }

  ghost predicate AllFormed(jobs: seq<Job>, merging: set<nat>, nextBatch: nat) {
    forall job | job in jobs :: Formed(job, merging, nextBatch)
  }

  /** A batch not formed yet serves nothing. */
  lemma NextServesNone(l: Ledger, jobs: seq<Job>, merging: set<nat>, nextBatch: nat)
    requires Working(l, jobs) && AllFormed(jobs, merging, nextBatch)
    ensures !HasSurvivors(l, Batch(nextBatch))
  {
    CountMember(jobs, Batch(nextBatch));
  }

  lemma MergedFormed(l: Ledger, requests: seq<Request>, blocked: set<nat>, pool: nat, id: nat, merging: set<nat>)
    requires Distinct(requests) && pool in merging && OnPool(requests, pool)
    ensures var ordered := Merged(l, requests, blocked, pool, id).1;
      AllFormed(ordered, merging, id + 1) && forall job | job in ordered :: PoolOf(job) == pool
  {
    StartableDistinct(requests, blocked);
  }

  lemma {:induction false} StartableDistinct(requests: seq<Request>, blocked: set<nat>)
    requires Distinct(requests)
    ensures Distinct(Startable(requests, blocked))
  {
    if requests != [] {
      DistinctTail(requests);
      StartableDistinct(requests[1..], blocked);
      if requests[0].key !in blocked {
        DistinctWith(requests[0], Startable(requests[1..], blocked));
      }
    }
  }

  /** Requests with a job each are distinct. */
  lemma {:induction false} WorkedDistinct(l: Ledger, requests: seq<Request>, rest: seq<Job>)
    requires Working(l, Singles(requests) + rest)
    ensures Distinct(requests)
  {
    forall i, j | 0 <= i < j < |requests|
      ensures requests[i] != requests[j]
    {
      if requests[i] == requests[j] {
        var jobs := Singles(requests) + rest;
        var s := Own(requests[i].key);
        CountWithout(jobs, j, s);
        assert RemoveAt(jobs, j)[i] == Single(requests[i]);
        CountMember(RemoveAt(jobs, j), s);
      }
    }
  }

  /** A drain in any order, merged or not, keeps the live requests, gives each one job, and keeps
      the ledger's promises. */
  lemma DrainKeeps(m: Machine, pool: nat, pick: seq<Job> -> nat)
    requires Fit(m)
    ensures var (d, ordered) := Drain(m, pool, pick);
      && d == m.(ledger := d.ledger, waiting := Others(m.waiting, pool), nextBatch := d.nextBatch)
      && Sound(d.ledger, []) && SameRequests(m.ledger, d.ledger)
      && Working(d.ledger, ordered + (d.waiting + JobsOn(d.resident)))
      && AllFormed(ordered + (d.waiting + JobsOn(d.resident)), m.merging, d.nextBatch)
      && forall job | job in ordered :: PoolOf(job) == pool
  {
    var popped := Popped(pick, Mine(m.waiting, pool));
    var rest := Others(m.waiting, pool) + JobsOn(m.resident);
    JobsSplit(m, pool, pick);
    WorkSame(m.ledger, Jobs(m), popped + rest);
    if pool in m.merging {
      OpenKeepsWork(m.ledger, popped, rest, pool, m.merging, m.nextBatch);
      var (l, requests) := Open(m.ledger, popped);
      AloneSame(m.ledger, l, m.merging);
      WorkedDistinct(l, requests, rest);
      assert AllFormed(Singles(requests) + rest, m.merging, m.nextBatch);
      NextServesNone(l, Singles(requests) + rest, m.merging, m.nextBatch);
      MergeKeepsWork(l, requests, m.blocked, pool, m.nextBatch, rest, m.merging);
      MergedFormed(l, requests, m.blocked, pool, m.nextBatch, m.merging);
      SameTwice(m.ledger, l, Merged(l, requests, m.blocked, pool, m.nextBatch).0);
    }
  }

  ghost predicate OffersUnits(env: Environment, unitCount: nat) {
    forall k, job :: env.offer(k, job).Some? ==> env.offer(k, job).value < unitCount
  }

  lemma JobsRearranged(m: Machine, ledger: Ledger, jobs: seq<Job>)
    requires Working(ledger, jobs) && AllFormed(jobs, m.merging, m.nextBatch) && multiset(jobs) == multiset(Jobs(m))
    requires ledger == m.ledger
    requires Sound(ledger, []) && Alone(ledger, m.merging)
    requires forall i | 0 <= i < |m.resident| :: m.resident[i].unit < ledger.unitCount
    ensures Fit(m)
  {
    WorkSame(ledger, jobs, Jobs(m));
    forall job | job in Jobs(m)
      ensures Formed(job, m.merging, m.nextBatch)
    {
      assert job in multiset(jobs);
    }
  }

  lemma PlacedOne(waiting: seq<Job>, ordered: seq<Job>, p: nat, resident: seq<Resident>, unit: nat)
    requires p < |ordered|
    ensures multiset((waiting + RemoveAt(ordered, p)) + JobsOn(resident + [Resident(ordered[p], unit)])) ==
            multiset(ordered + (waiting + JobsOn(resident)))
  {
    RemovedHolds(ordered, p);
    assert JobsOn(resident + [Resident(ordered[p], unit)]) == JobsOn(resident) + [ordered[p]];
  }

  ghost predicate OffersWithin(offer: Job -> Option<nat>, unitCount: nat) {
    forall job :: offer(job).Some? ==> offer(job).value < unitCount
  }

  lemma PlacedKeeps(d: Machine, ordered: seq<Job>, offer: Job -> Option<nat>)
    requires Sound(d.ledger, []) && Alone(d.ledger, d.merging) && OffersWithin(offer, d.ledger.unitCount)
    requires Working(d.ledger, ordered + (d.waiting + JobsOn(d.resident)))
    requires AllFormed(ordered + (d.waiting + JobsOn(d.resident)), d.merging, d.nextBatch)
    requires forall i | 0 <= i < |d.resident| :: d.resident[i].unit < d.ledger.unitCount
    ensures Fit(Placed(d, ordered, offer).0)
  {
    var p := FirstPlaced(ordered, d.blocked, offer);
    var next := Placed(d, ordered, offer).0;
    if p < |ordered| {
      PlacedOne(d.waiting, ordered, p, d.resident, offer(ordered[p]).value);
    }
    JobsRearranged(next, d.ledger, ordered + (d.waiting + JobsOn(d.resident)));
  }

  lemma RoundKeeps(m: Machine, pool: nat, env: Environment, k: nat)
    requires Fit(m) && OffersUnits(env, m.ledger.unitCount)
    ensures Fit(Round(m, pool, env, k).0) && SameRequests(m.ledger, Round(m, pool, env, k).0.ledger)
    ensures Round(m, pool, env, k).0.ledger.unitCount == m.ledger.unitCount
  {
    DrainKeeps(m, pool, PickAt(env, k));
    var (d, ordered) := Drain(m, pool, PickAt(env, k));
    AloneSame(m.ledger, d.ledger, m.merging);
    PlacedKeeps(d, ordered, OfferAt(env, k));
  }

  /** A merging pool's drain leaves one job that may start at most, and it comes first; a pool that
      does not merge serves the jobs it had. */
  lemma DrainMerges(m: Machine, pool: nat, pick: seq<Job> -> nat)
    ensures var (d, ordered) := Drain(m, pool, pick);
      if pool in m.merging
      then forall i | 0 < i < |ordered| :: !IsStartable(ordered[i], m.blocked)
      else d.ledger == m.ledger && multiset(ordered) == multiset(Mine(m.waiting, pool))
  {
    var popped := Popped(pick, Mine(m.waiting, pool));
    PoppedHolds(pick, Mine(m.waiting, pool));
    if pool in m.merging {
      var (l, requests) := Open(m.ledger, popped);
      MergedStartsOne(l, requests, m.blocked, pool, m.nextBatch);
    }
  }

  lemma MergedStartsOne(l: Ledger, requests: seq<Request>, blocked: set<nat>, pool: nat, id: nat)
    ensures var ordered := Merged(l, requests, blocked, pool, id).1;
      forall i | 0 < i < |ordered| :: !IsStartable(ordered[i], blocked)
  {
    var late := Late(requests, blocked);
    forall i | 0 <= i < |late|
      ensures !IsStartable(Singles(late)[i], blocked)
    {
      assert late[i] in late;
    }
  }

  /** A round's placement is of a job that may start, on the unit it was offered. */
  lemma RoundPlacesStartable(m: Machine, pool: nat, env: Environment, k: nat)
    requires Round(m, pool, env, k).1
    ensures var next := Round(m, pool, env, k).0;
      && |next.resident| == |m.resident| + 1 && next.resident[..|m.resident|] == m.resident
      && (var placed := next.resident[|m.resident|];
        && (placed.job.Single? ==> placed.job.request.key !in m.blocked)
        && env.offer(k, placed.job) == Some(placed.unit))
  {
    var (d, ordered) := Drain(m, pool, PickAt(env, k));
    var p := FirstPlaced(ordered, d.blocked, OfferAt(env, k));
    assert OfferAt(env, k)(ordered[p]) == env.offer(k, ordered[p]);
  }

  /** In some round every job of the pool that waits and may start was offered nothing. */
  ghost predicate NoneOffered(m: Machine, pool: nat, env: Environment, k: nat) {
    forall job | job in Mine(m.waiting, pool) && IsStartable(job, m.blocked) :: env.offer(k, job).None?
  }

  lemma RoundSettles(m: Machine, pool: nat, env: Environment, k: nat)
    requires !Round(m, pool, env, k).1
    ensures NoneOffered(Round(m, pool, env, k).0, pool, env, k)
  {
    DrainNames(m, pool, PickAt(env, k));
    var (d, ordered) := Drain(m, pool, PickAt(env, k));
    assert FirstPlaced(ordered, d.blocked, OfferAt(env, k)) == |ordered|;
    var next := Round(m, pool, env, k).0;
    MineAppend(d.waiting, ordered, pool);
    NoneMine(m.waiting, pool);
    MineMembers(ordered, pool);
    forall job | job in Mine(next.waiting, pool) && IsStartable(job, next.blocked)
      ensures env.offer(k, job).None?
    {
      assert job in ordered;
      var i :| 0 <= i < |ordered| && ordered[i] == job;
      assert OfferAt(env, k)(job) == env.offer(k, job);
    }
  }

  lemma {:induction false} MineMembers(jobs: seq<Job>, pool: nat)
    ensures forall job | job in Mine(jobs, pool) :: job in jobs
  {
    if jobs != [] {
      MineMembers(jobs[1..], pool);
    }
  }

  /** The loop ends, keeps the live requests, what serves each and the promises, and leaves no job
      that may start and would be offered a unit, merged or not. */
  lemma {:induction false} DispatchKeeps(m: Machine, pool: nat, env: Environment, k: nat)
    requires Fit(m) && OffersUnits(env, m.ledger.unitCount)
    ensures Fit(Dispatch(m, pool, env, k)) && SameRequests(m.ledger, Dispatch(m, pool, env, k).ledger)
    ensures exists last :: NoneOffered(Dispatch(m, pool, env, k), pool, env, last)
    decreases Named(Mine(m.waiting, pool))
  {
    if Mine(m.waiting, pool) == [] {
      assert NoneOffered(m, pool, env, k);
    } else {
      var (next, isPlaced) := Round(m, pool, env, k);
      RoundNamesFewer(m, pool, env, k);
      RoundKeeps(m, pool, env, k);
      if isPlaced {
        DispatchKeeps(next, pool, env, k + 1);
        SameTwice(m.ledger, next.ledger, Dispatch(next, pool, env, k + 1).ledger);
      } else {
        RoundSettles(m, pool, env, k);
      }
    }
  }

  // ------------------------------------------------------------ the steps

  /** A call of the window side or of the manager, and the decodes' ends. */
  datatype Step =
    | Arrives(request: Request, isBlocked: bool)
    | Released(keys: set<nat>)
    | Asked(call: Runs.Call)
    | JobEnds(index: nat, isMerged: bool, hasOwnAccuracy: bool)
    | Dispatches(pool: nat, env: Environment)

  datatype Result = Done(machine: Machine) | Raised(error: Error)

  /** The jobs that still serve a request; a decode left with none is withdrawn or stopped. */
  ghost function StillNeeded(l: Ledger, jobs: seq<Job>): seq<Job> {
    if jobs == [] then []
    else if HasSurvivors(l, ServiceOf(jobs[0])) then [jobs[0]] + StillNeeded(l, jobs[1..])
    else StillNeeded(l, jobs[1..])
  }

  ghost function StillOn(l: Ledger, residents: seq<Resident>): seq<Resident> {
    if residents == [] then []
    else if HasSurvivors(l, ServiceOf(residents[0].job)) then [residents[0]] + StillOn(l, residents[1..])
    else StillOn(l, residents[1..])
  }

  function ResidentsBut(residents: seq<Resident>, i: nat): seq<Resident>
    requires i < |residents|
  {
    residents[..i] + residents[i + 1..]
  }

  function Answers(m: Machine, job: Job): seq<Request> {
    StillServed(m.ledger, ServiceOf(job), MembersOf(job))
  }

  ghost function Perform(m: Machine, step: Step): Result {
    match step
    case Arrives(q, isBlocked) =>
      (match AdmitStrong(m.ledger, q)
       case Raised(error) => Result.Raised(error)
       case Done(l) =>
         Result.Done(m.(
           ledger := l, waiting := m.waiting + [Single(q)],
           blocked := if isBlocked then m.blocked + {q.key} else m.blocked)))
    case Released(keys) => Result.Done(m.(blocked := m.blocked - keys))
    case Asked(call) =>
      (match Runs.Perform(m.ledger, call)
       case Raised(error) => Result.Raised(error)
       case Done(l) =>
         Result.Done(
           if call.Cancel?
             then m.(ledger := l, waiting := StillNeeded(l, m.waiting), resident := StillOn(l, m.resident))
           else m.(ledger := l)))
    case JobEnds(i, isMerged, hasOwnAccuracy) =>
      if i >= |m.resident| then Result.Done(m)
      else
        var on := m.resident[i];
        (match DecodeDone(m.ledger, ServiceOf(on.job), Answers(m, on.job), on.unit, isMerged, hasOwnAccuracy)
         case Raised(error) => Result.Raised(error)
         case Done(l) => Result.Done(m.(ledger := l, resident := ResidentsBut(m.resident, i))))
    case Dispatches(pool, env) => Result.Done(Dispatch(m, pool, env, 0))
  }

  /** What a step leaves true of what it names. */
  ghost predicate Brings(m: Machine, step: Step, next: Machine) {
    match step
    case Arrives(q, isBlocked) =>
      && next.waiting == m.waiting + [Single(q)]
      && (forall key :: key in next.blocked <==> key in m.blocked || (isBlocked && key == q.key))
    case Released(keys) => forall key :: key in next.blocked <==> key in m.blocked && key !in keys
    case Asked(call) => call.Cancel? || (next.waiting == m.waiting && next.resident == m.resident)
    case JobEnds(i, _, _) => i < |m.resident| ==> next.resident == m.resident[..i] + m.resident[i + 1..]
    case Dispatches(pool, env) => exists last :: NoneOffered(next, pool, env, last)
  }

  /** The window side's calls; admissions, decode ends and batches are the manager's. */
  predicate IsWindowCall(call: Runs.Call) {
    call.OpenWeak? || call.Resolve? || call.Ask? || call.SelectionLanded? || call.Cancel? || call.Abandon?
  }

  /** What the window side promises, and what a merging pool is built for: it takes no companion.
      Nothing is asked of a decode's end. */
  ghost predicate May(m: Machine, step: Step) {
    match step
    case Arrives(q, _) => MayAdmit(m.ledger, q) && (q.pool in m.merging ==> q.lead == q.key)
    case Asked(call) => IsWindowCall(call) && Runs.May(m.ledger, call)
    case Dispatches(_, env) => OffersUnits(env, m.ledger.unitCount)
    case _ => true
  }

  // ---------------------------------------------------- what steps keep

  ghost predicate NarrowedAt(l: Ledger, r: Ledger, k: Place) {
    |RecordAt(r, k).live| <= |RecordAt(l, k).live| && forall x | x in RecordAt(r, k).live :: x in RecordAt(l, k).live
  }

  /** Records that only lost live requests. */
  ghost predicate Narrowed(l: Ledger, r: Ledger) {
    forall k :: NarrowedAt(l, r, k)
  }

  lemma NarrowedServes(l: Ledger, r: Ledger, k: Place, i: int, s: Service) returns (j: int)
    requires Narrowed(l, r) && IsServedAt(r, k, i, s)
    ensures IsServedAt(l, k, j, s) && RecordAt(l, k).live[j] == RecordAt(r, k).live[i]
  {
    assert NarrowedAt(l, r, k);
    assert RecordAt(r, k).live[i] in RecordAt(l, k).live;
    j :| 0 <= j < |RecordAt(l, k).live| && RecordAt(l, k).live[j] == RecordAt(r, k).live[i];
  }

  lemma NarrowedOwn(l: Ledger, r: Ledger, job: Job)
    requires Narrowed(l, r) && ServesOwn(l, job)
    ensures ServesOwn(r, job)
    ensures HasSurvivors(r, ServiceOf(job)) ==> HasSurvivors(l, ServiceOf(job))
  {
    forall k, i | IsServedAt(r, k, i, ServiceOf(job))
      ensures RecordAt(r, k).live[i].request in MembersOf(job) && RecordAt(r, k).live[i].request.pool == PoolOf(job)
      ensures HasSurvivors(l, ServiceOf(job))
    {
      var j := NarrowedServes(l, r, k, i, ServiceOf(job));
    }
  }

  lemma NarrowedAlone(l: Ledger, r: Ledger, merging: set<nat>)
    requires Narrowed(l, r) && Alone(l, merging)
    ensures Alone(r, merging)
  {
    forall k: Place | k.target.Some? && k.target.value in merging
      ensures |RecordAt(r, k).live| <= 1
    {
      assert NarrowedAt(l, r, k);
    }
  }

  /** Jobs that are fewer, with those that serve a request kept. */
  lemma NarrowedWork(l: Ledger, r: Ledger, jobs: seq<Job>, fewer: seq<Job>)
    requires Narrowed(l, r) && Working(l, jobs)
    requires forall job | job in fewer :: job in jobs
    requires forall s :: CountJobs(fewer, s) == if HasSurvivors(r, s) then CountJobs(jobs, s) else 0
    ensures Working(r, fewer)
  {
    forall s
      ensures CountJobs(fewer, s) == if HasSurvivors(r, s) then 1 else 0
    {
      if HasSurvivors(r, s) {
        var k, i :| IsServedAt(r, k, i, s);
        var j := NarrowedServes(l, r, k, i, s);
      }
    }
    forall job | job in fewer
      ensures ServesOwn(r, job)
    {
      NarrowedOwn(l, r, job);
    }
  }

  /** A change that leaves every record's live requests. */
  lemma SameLiveFits(m: Machine, r: Ledger)
    requires Fit(m) && Sound(r, []) && SameLive(m.ledger, r) && r.unitCount == m.ledger.unitCount
    ensures Fit(m.(ledger := r))
  {
    forall k
      ensures NarrowedAt(m.ledger, r, k)
    {
    }
    forall s
      ensures HasSurvivors(r, s) <==> HasSurvivors(m.ledger, s)
    {
      if k, i :| IsServedAt(m.ledger, k, i, s) {
        assert IsServedAt(r, k, i, s);
      }
      if k, i :| IsServedAt(r, k, i, s) {
        assert IsServedAt(m.ledger, k, i, s);
      }
    }
    NarrowedWork(m.ledger, r, Jobs(m), Jobs(m));
    NarrowedAlone(m.ledger, r, m.merging);
  }

  lemma {:induction false} CompleteAllEffect(l: Ledger, hand: seq<Completion>)
    requires CompleteAll(l, hand).Done?
    ensures var r := CompleteAll(l, hand).ledger; SameLive(l, r) && r.unitCount == l.unitCount
    decreases |hand|
  {
    if hand != [] {
      CompleteEffect(l, hand[0]);
      CompleteAllEffect(Complete(l, hand[0]).ledger, hand[1..]);
    }
  }

  lemma {:induction false} AbandonLive(l: Ledger, window: nat, chain: seq<nat>)
    ensures var r := AbandonChain(l, window, chain); SameLive(l, r) && r.unitCount == l.unitCount
    decreases |chain|
  {
    if chain != [] {
      var next := AbandonStrong(l, Place(window, Some(chain[0])));
      assert forall k :: RecordAt(next, k) == RecordAt(l, k);
      AbandonLive(next, window, chain[1..]);
    }
  }

  lemma {:induction false} CancelLive(l: Ledger, window: nat, chain: seq<nat>)
    ensures var r := CancelChain(l, window, chain); Narrowed(l, r) && r.unitCount == l.unitCount
    decreases |chain|
  {
    if chain != [] {
      var k := Place(window, Some(chain[0]));
      var d := DiscardOutputs(l, k);
      var next := CancelStrong(l, k);
      TakenLive(d, k);
      forall j
        ensures NarrowedAt(l, next, j)
      {
        assert RecordAt(d, j) == RecordAt(l, j) && RecordAt(next, j) == RecordAt(TakeLive(d, k), j);
      }
      CancelLive(next, window, chain[1..]);
      forall j
        ensures NarrowedAt(l, CancelChain(l, window, chain), j)
      {
        assert NarrowedAt(l, next, j) && NarrowedAt(next, CancelChain(next, window, chain[1..]), j);
      }
    }
  }

  lemma {:induction false} NeededCounts(l: Ledger, jobs: seq<Job>, s: Service)
    ensures CountJobs(StillNeeded(l, jobs), s) == if HasSurvivors(l, s) then CountJobs(jobs, s) else 0
    ensures forall job | job in StillNeeded(l, jobs) :: job in jobs
  {
    if jobs != [] {
      NeededCounts(l, jobs[1..], s);
      if HasSurvivors(l, ServiceOf(jobs[0])) {
        assert ([jobs[0]] + StillNeeded(l, jobs[1..]))[1..] == StillNeeded(l, jobs[1..]);
      }
    }
  }

  lemma {:induction false} NeededOn(l: Ledger, residents: seq<Resident>)
    ensures JobsOn(StillOn(l, residents)) == StillNeeded(l, JobsOn(residents))
    ensures forall on | on in StillOn(l, residents) :: on in residents
  {
    if residents != [] {
      NeededOn(l, residents[1..]);
      assert JobsOn(residents)[1..] == JobsOn(residents[1..]);
      if HasSurvivors(l, ServiceOf(residents[0].job)) {
        assert JobsOn([residents[0]] + StillOn(l, residents[1..])) ==
          [residents[0].job] + JobsOn(StillOn(l, residents[1..]));
      }
    }
  }

  /** A cancel takes its requests' jobs from the queue or their units, and leaves a batch with
      other members where it is. */
  lemma CancelFits(m: Machine, window: nat, chain: seq<nat>)
    requires Fit(m) && MayEndChain(m.ledger, window, chain)
    ensures var l := CancelChain(m.ledger, window, chain);
      Fit(m.(ledger := l, waiting := StillNeeded(l, m.waiting), resident := StillOn(l, m.resident)))
  {
    var l := CancelChain(m.ledger, window, chain);
    var next := m.(ledger := l, waiting := StillNeeded(l, m.waiting), resident := StillOn(l, m.resident));
    ChainKeeps(m.ledger, window, chain);
    CancelLive(m.ledger, window, chain);
    NarrowedAlone(m.ledger, l, m.merging);
    NeededOn(l, m.resident);
    NeededCounts(l, m.waiting, Batch(0));
    NeededCounts(l, JobsOn(m.resident), Batch(0));
    forall s
      ensures CountJobs(Jobs(next), s) == if HasSurvivors(l, s) then CountJobs(Jobs(m), s) else 0
    {
      NeededCounts(l, m.waiting, s);
      NeededCounts(l, JobsOn(m.resident), s);
      CountJobsAppend(m.waiting, JobsOn(m.resident), s);
      CountJobsAppend(next.waiting, JobsOn(next.resident), s);
    }
    NarrowedWork(m.ledger, l, Jobs(m), Jobs(next));
    forall i | 0 <= i < |next.resident|
      ensures next.resident[i].unit < l.unitCount
    {
      assert next.resident[i] in m.resident;
    }
  }

  // ------------------------------------------------------- a decode's end

  ghost predicate LosesService(l: Ledger, r: Ledger, service: Service, k: Place) {
    forall x :: x in RecordAt(r, k).live <==> x in RecordAt(l, k).live && x.service != service
  }

  lemma ServedGoneAt(l: Ledger, r: Ledger, service: Service, k: Place)
    requires RecordAt(r, k).live == NotServedBy(RecordAt(l, k).live, service)
    ensures NarrowedAt(l, r, k) && LosesService(l, r, service, k)
  {
    NotServedMembers(RecordAt(l, k).live, service);
  }

  lemma OthersSurvive(l: Ledger, r: Ledger, service: Service, s: Service)
    requires Narrowed(l, r) && forall k :: LosesService(l, r, service, k)
    ensures HasSurvivors(r, s) <==> HasSurvivors(l, s) && s != service
  {
    if k, i :| IsServedAt(r, k, i, s) {
      assert LosesService(l, r, service, k) && RecordAt(r, k).live[i] in RecordAt(r, k).live;
      var j := NarrowedServes(l, r, k, i, s);
    }
    if HasSurvivors(l, s) && s != service {
      var k, i :| IsServedAt(l, k, i, s);
      var x := RecordAt(l, k).live[i];
      assert LosesService(l, r, service, k) && x in RecordAt(l, k).live;
      var j :| 0 <= j < |RecordAt(r, k).live| && RecordAt(r, k).live[j] == x;
      assert IsServedAt(r, k, j, s);
    }
  }

  lemma ServedGone(l: Ledger, r: Ledger, service: Service)
    requires SameLive(FinishService(l, service), r)
    ensures Narrowed(l, r)
    ensures forall s :: HasSurvivors(r, s) <==> HasSurvivors(l, s) && s != service
  {
    FinishedRecords(l, service);
    forall k
      ensures NarrowedAt(l, r, k) && LosesService(l, r, service, k)
    {
      ServedGoneAt(l, r, service, k);
    }
    forall s
      ensures HasSurvivors(r, s) <==> HasSurvivors(l, s) && s != service
    {
      OthersSurvive(l, r, service, s);
    }
  }

  lemma JobGone(m: Machine, i: nat)
    requires i < |m.resident|
    ensures var next := m.(resident := ResidentsBut(m.resident, i));
      forall s ::
        CountJobs(Jobs(m), s) == (CountJobs(Jobs(next), s) + if ServiceOf(m.resident[i].job) == s then 1 else 0)
    ensures forall job | job in Jobs(m.(resident := ResidentsBut(m.resident, i))) :: job in Jobs(m)
  {
    var next := m.(resident := ResidentsBut(m.resident, i));
    assert JobsOn(next.resident) == RemoveAt(JobsOn(m.resident), i);
    forall s
      ensures CountJobs(Jobs(m), s) == CountJobs(Jobs(next), s) + if ServiceOf(m.resident[i].job) == s then 1 else 0
    {
      CountWithout(JobsOn(m.resident), i, s);
      CountJobsAppend(m.waiting, JobsOn(m.resident), s);
      CountJobsAppend(next.waiting, JobsOn(next.resident), s);
    }
  }

  /** A decode's end, whatever its destinations did meanwhile, raises just when it is merged and
      carries an accuracy of its own. */
  lemma EndRaisesExactly(m: Machine, i: nat, isMerged: bool, hasOwnAccuracy: bool)
    requires Fit(m) && i < |m.resident|
    ensures var result := Perform(m, JobEnds(i, isMerged, hasOwnAccuracy));
      if CarriesMergedAccuracy(Answers(m, m.resident[i].job), isMerged, hasOwnAccuracy)
      then result == Result.Raised(MergedAccuracy)
      else result.Done? && Fit(result.machine)
  {
    var on := m.resident[i];
    var service, answers := ServiceOf(on.job), Answers(m, on.job);
    assert Jobs(m)[|m.waiting| + i] == on.job;
    JobServesOne(m, on.job);
    DecodeDoneKeeps(m.ledger, service, answers, on.unit, isMerged, hasOwnAccuracy);
    if !CarriesMergedAccuracy(answers, isMerged, hasOwnAccuracy) {
      var l := DecodeDone(m.ledger, service, answers, on.unit, isMerged, hasOwnAccuracy).ledger;
      CompleteAllEffect(FinishService(m.ledger, service), CompletionsOf(answers, on.unit));
      EndFits(m, i, l);
    }
  }

  lemma EndFits(m: Machine, i: nat, l: Ledger)
    requires Fit(m) && i < |m.resident| && Sound(l, []) && l.unitCount == m.ledger.unitCount
    requires SameLive(FinishService(m.ledger, ServiceOf(m.resident[i].job)), l)
    ensures Fit(m.(ledger := l, resident := ResidentsBut(m.resident, i)))
  {
    var service := ServiceOf(m.resident[i].job);
    var next := m.(ledger := l, resident := ResidentsBut(m.resident, i));
    ServedGone(m.ledger, l, service);
    JobGone(m, i);
    assert Jobs(next) == Jobs(m.(resident := ResidentsBut(m.resident, i)));
    CountMember(Jobs(m), service);
    assert m.resident[i].job == Jobs(m)[|m.waiting| + i];
    NarrowedWork(m.ledger, l, Jobs(m), Jobs(next));
    NarrowedAlone(m.ledger, l, m.merging);
  }

  // -------------------------------------------------------- an admission

  lemma ArrivedLive(l: Ledger, q: Request)
    requires AdmitStrong(l, q).Done?
    ensures IsArrived(l, AdmitStrong(l, q).ledger, q) && AdmitStrong(l, q).ledger.unitCount == l.unitCount
  {
  }

  lemma ArrivedServes(l: Ledger, r: Ledger, q: Request)
    requires IsArrived(l, r, q)
    ensures forall s :: HasSurvivors(r, s) <==> HasSurvivors(l, s) || s == Own(q.key)
    ensures forall k, i, s ::
      IsServedAt(r, k, i, s) ==> IsServedAt(l, k, i, s) || (s == Own(q.key) && RecordAt(r, k).live[i].request == q)
    ensures forall k, i, s ::
      IsServedAt(l, k, i, s) ==> IsServedAt(r, k, i, s) && RecordAt(r, k).live[i] == RecordAt(l, k).live[i]
  {
    assert IsServedAt(r, q.At(), |RecordAt(l, q.At()).live|, Own(q.key));
    forall s
      ensures HasSurvivors(r, s) <==> HasSurvivors(l, s) || s == Own(q.key)
    {
      if k, i :| IsServedAt(l, k, i, s) {
        assert IsServedAt(r, k, i, s);
      }
      if k, i :| IsServedAt(r, k, i, s) {
        assert IsServedAt(l, k, i, s) || s == Own(q.key);
      }
    }
  }

  ghost predicate IsArrived(l: Ledger, r: Ledger, q: Request) {
    forall k ::
      RecordAt(r, k).live == if k == q.At() then RecordAt(l, k).live + [Live(q, Own(q.key))] else RecordAt(l, k).live
  }

  lemma ArrivedWorks(l: Ledger, r: Ledger, q: Request, jobs: seq<Job>, more: seq<Job>)
    requires Known(l, []) && Working(l, jobs) && q.key !in l.admitted && IsArrived(l, r, q)
    requires multiset(more) == multiset(jobs) + multiset{Single(q)}
    ensures Working(r, more)
  {
    ArrivedServes(l, r, q);
    NewServesNone(l, jobs, q);
    assert multiset(jobs + [Single(q)]) == multiset(more);
    forall s
      ensures CountJobs(more, s) == if HasSurvivors(r, s) then 1 else 0
    {
      SameCounts(more, jobs + [Single(q)], s);
      CountJobsAppend(jobs, [Single(q)], s);
      CountOne(Single(q), s);
    }
    CountMember(jobs, Own(q.key));
    forall job | job in more
      ensures ServesOwn(r, job)
    {
      assert job in multiset(jobs + [Single(q)]);
      assert job == Single(q) || (job in jobs && ServesOwn(l, job));
    }
  }

  lemma ArrivedAlone(l: Ledger, r: Ledger, q: Request, merging: set<nat>)
    requires Accounted(l, []) && Alone(l, merging) && IsArrived(l, r, q)
    requires q.pool in merging ==> Out(l, [], q.At()) == {}
    ensures Alone(r, merging)
  {
    if q.pool in merging {
      NothingLive(l, q.At());
    }
    forall k: Place | k.target.Some? && k.target.value in merging
      ensures |RecordAt(r, k).live| <= 1
    {
      assert |RecordAt(l, k).live| <= 1;
    }
  }

  /** A request admitted takes a job of its own at the queue's end. */
  lemma ArriveFits(m: Machine, q: Request, isBlocked: bool)
    requires Fit(m) && May(m, Arrives(q, isBlocked))
    ensures Perform(m, Arrives(q, isBlocked)).Done? && Fit(Perform(m, Arrives(q, isBlocked)).machine)
  {
    var l := m.ledger;
    AdmitKeeps(l, q);
    var r := AdmitStrong(l, q).ledger;
    var next := Perform(m, Arrives(q, isBlocked)).machine;
    ArrivedLive(l, q);
    ArrivedAlone(l, r, q, m.merging);
    assert next.waiting == m.waiting + [Single(q)] && next.resident == m.resident;
    ArrivedWorks(l, r, q, Jobs(m), Jobs(next));
    forall job | job in Jobs(next)
      ensures Formed(job, m.merging, m.nextBatch)
    {
      assert job == Single(q) || job in Jobs(m);
    }
  }

  lemma NewServesNone(l: Ledger, jobs: seq<Job>, q: Request)
    requires Known(l, []) && Working(l, jobs) && q.key !in l.admitted
    ensures !HasSurvivors(l, Own(q.key))
  {
    forall k, i
      ensures !IsServedAt(l, k, i, Own(q.key))
    {
      if IsServedAt(l, k, i, Own(q.key)) {
        OwnServesItself(l, jobs, k, i, q.key);
      }
    }
  }

  // ------------------------------------------------------------ every run

  lemma AskedFits(m: Machine, call: Runs.Call)
    requires Fit(m) && May(m, Asked(call))
    ensures Perform(m, Asked(call)).Done? && Fit(Perform(m, Asked(call)).machine)
  {
    var l := m.ledger;
    Runs.CallKeeps(l, call);
    var r := Runs.Perform(l, call).ledger;
    match call {
      case Cancel(window, chain) => CancelFits(m, window, chain);
      case Abandon(window, chain) =>
        AbandonLive(l, window, chain);
        SameLiveFits(m, r);
      case SelectionLanded(k, lead) =>
        if IsSelected(l, k, lead) {
          var landed := Put(l, k, RecordAt(l, k).(phase := WaitingResult)).(held := Elsewhere(l.held, k));
          CompleteAllEffect(landed, OutputsAt(l, k));
          assert SameLive(l, landed);
        }
        SameLiveFits(m, r);
      case OpenWeak(_, _, _) => SameLiveFits(m, r);
      case Resolve(_, _) => SameLiveFits(m, r);
      case Ask(_, _) => SameLiveFits(m, r);
      case _ =>
    }
  }

  /** The error a step answers with: none but a merged decode's that carries an accuracy. */
  ghost predicate RaisesMerged(m: Machine, step: Step) {
    step.JobEnds? && step.index < |m.resident|
    && CarriesMergedAccuracy(Answers(m, m.resident[step.index].job), step.isMerged, step.hasOwnAccuracy)
  }

  lemma StepFits(m: Machine, step: Step)
    requires Fit(m) && May(m, step)
    ensures if RaisesMerged(m, step) then Perform(m, step) == Result.Raised(MergedAccuracy)
            else Perform(m, step).Done? && Fit(Perform(m, step).machine)
  {
    match step {
      case Arrives(q, isBlocked) => ArriveFits(m, q, isBlocked);
      case Released(keys) =>
        var next := m.(blocked := m.blocked - keys);
        assert Jobs(next) == Jobs(m);
      case Asked(call) => AskedFits(m, call);
      case JobEnds(i, isMerged, hasOwnAccuracy) =>
        if i < |m.resident| {
          EndRaisesExactly(m, i, isMerged, hasOwnAccuracy);
        }
      case Dispatches(pool, env) => DispatchKeeps(m, pool, env, 0);
    }
  }

  /** Each step brings about what it is for. */
  lemma StepBrings(m: Machine, step: Step)
    requires Fit(m) && May(m, step) && Perform(m, step).Done?
    ensures Brings(m, step, Perform(m, step).machine)
  {
    match step {
      case Dispatches(pool, env) => DispatchKeeps(m, pool, env, 0);
      case _ =>
    }
  }

  ghost predicate IsRun(m: Machine, steps: seq<Step>)
    decreases |steps|
  {
    steps == [] ||
    (May(m, steps[0]) && (Perform(m, steps[0]).Done? ==> IsRun(Perform(m, steps[0]).machine, steps[1..])))
  }

  ghost function PerformAll(m: Machine, steps: seq<Step>): Result
    decreases |steps|
  {
    if steps == [] then Result.Done(m)
    else
      match Perform(m, steps[0])
      case Raised(error) => Result.Raised(error)
      case Done(next) => PerformAll(next, steps[1..])
  }

  lemma {:induction false} RunFits(m: Machine, steps: seq<Step>)
    requires Fit(m) && IsRun(m, steps)
    ensures PerformAll(m, steps).Done? ==> Fit(PerformAll(m, steps).machine)
    ensures PerformAll(m, steps).Raised? ==> PerformAll(m, steps).error == MergedAccuracy
    decreases |steps|
  {
    if steps != [] {
      StepFits(m, steps[0]);
      if Perform(m, steps[0]).Done? {
        RunFits(Perform(m, steps[0]).machine, steps[1..]);
      }
    }
  }

  function Initial(unitCount: nat, targets: map<nat, nat>, merging: set<nat>): Machine {
    Machine(Runs.Empty(unitCount, targets), merging, [], [], {}, 0)
  }

  /** From the start, under the window side's promises, the only error a run can raise is that of
      a merged decode that carries an accuracy of its own; otherwise every live request is served
      by one job, every job serves a live request, and each request has its one outcome or is
      still owed to a place that may take it. */
  lemma NoRunRaises(unitCount: nat, targets: map<nat, nat>, merging: set<nat>, steps: seq<Step>)
    requires (forall p | p in targets :: targets[p] != p) && IsRun(Initial(unitCount, targets, merging), steps)
    ensures var result := PerformAll(Initial(unitCount, targets, merging), steps);
      && (result.Done? ==> Fit(result.machine))
      && (result.Raised? ==> result.error == MergedAccuracy)
  {
    var m := Initial(unitCount, targets, merging);
    Runs.EmptyIsSound(unitCount, targets);
    assert Jobs(m) == [];
    forall s
      ensures !HasSurvivors(m.ledger, s)
    {
    }
    RunFits(m, steps);
  }
}
