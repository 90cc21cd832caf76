/** The jobs that serve the escalated requests: the queues and units of every pool beside the
    ledger. A pool that merges opens the batches that found no unit and forms one batch of all
    that may start, each time its queue is drained.
 */
module StrongJobs {
  import opened Options
  import opened StrongLedgers

  /** A request's own decode, or the batch that serves several. */
  datatype Job = Single(request: Request) | BatchOf(id: nat, pool: nat, members: seq<Request>)

  datatype Resident = Resident(job: Job, unit: nat)

  /** merging holds the pools that serve their queue as one batch, blocked the keys of the
      requests whose window owes a boundary. */
  datatype Machine = Machine(
    ledger: Ledger,
    merging: set<nat>,
    waiting: seq<Job>,
    resident: seq<Resident>,
    blocked: set<nat>,
    nextBatch: nat)

  function ServiceOf(job: Job): Service {
    match job
    case Single(q) => Own(q.key)
    case BatchOf(id, _, _) => Batch(id)
  }

  function PoolOf(job: Job): nat {
    match job
    case Single(q) => q.pool
    case BatchOf(_, pool, _) => pool
  }

  function MembersOf(job: Job): seq<Request> {
    match job
    case Single(q) => [q]
    case BatchOf(_, _, members) => members
  }

  function JobsOn(residents: seq<Resident>): (jobs: seq<Job>)
    ensures |jobs| == |residents| && forall i | 0 <= i < |jobs| :: jobs[i] == residents[i].job
  {
    seq(|residents|, i requires 0 <= i < |residents| => residents[i].job)
  }

  function Jobs(m: Machine): seq<Job> {
    m.waiting + JobsOn(m.resident)
  }

  // ------------------------------------------------------------ the drain

  function Mine(waiting: seq<Job>, pool: nat): seq<Job> {
    if waiting == [] then []
    else if PoolOf(waiting[0]) == pool then [waiting[0]] + Mine(waiting[1..], pool)
    else Mine(waiting[1..], pool)
  }

  function Others(waiting: seq<Job>, pool: nat): seq<Job> {
    if waiting == [] then []
    else if PoolOf(waiting[0]) == pool then Others(waiting[1..], pool)
    else [waiting[0]] + Others(waiting[1..], pool)
  }

  function RemoveAt(jobs: seq<Job>, i: nat): seq<Job>
    requires i < |jobs|
  {
    jobs[..i] + jobs[i + 1..]
  }

  /** The scheduler's pops, whatever its order. */
  function Popped(pick: seq<Job> -> nat, jobs: seq<Job>): seq<Job>
    decreases |jobs|
  {
    if jobs == [] then []
    else
      var i := pick(jobs) % |jobs|;
      [jobs[i]] + Popped(pick, RemoveAt(jobs, i))
  }

  /** The members a batch still serves. */
  function StillServed(l: Ledger, service: Service, members: seq<Request>): (served: seq<Request>)
    ensures |served| <= |members|
    ensures forall q :: q in served <==> q in members && Serves(l, service, q)
  {
    if members == [] then []
    else
      assert forall q :: q in members <==> q == members[0] || q in members[1..];
      var rest := StillServed(l, service, members[1..]);
      if Serves(l, service, members[0]) then [members[0]] + rest else rest
  }

  /** Each waiting batch is its live members again, each serving itself. */
  function Open(l: Ledger, jobs: seq<Job>): (Ledger, seq<Request>)
    decreases |jobs|
  {
    if jobs == [] then (l, [])
    else
      var members := if jobs[0].Single? then [jobs[0].request] else StillServed(l, ServiceOf(jobs[0]), jobs[0].members);
      var reopened := if jobs[0].Single? then l else Reopen(l, members);
      var (after, rest) := Open(reopened, jobs[1..]);
      (after, members + rest)
  }

  function Startable(requests: seq<Request>, blocked: set<nat>): (ready: seq<Request>)
    ensures forall q :: q in ready <==> q in requests && q.key !in blocked
  {
    if requests == [] then []
    else
      assert forall q :: q in requests <==> q == requests[0] || q in requests[1..];
      var rest := Startable(requests[1..], blocked);
      if requests[0].key in blocked then rest else [requests[0]] + rest
  }

  function Late(requests: seq<Request>, blocked: set<nat>): (late: seq<Request>)
    ensures forall q :: q in late <==> q in requests && q.key in blocked
  {
    if requests == [] then []
    else
      assert forall q :: q in requests <==> q == requests[0] || q in requests[1..];
      var rest := Late(requests[1..], blocked);
      if requests[0].key in blocked then [requests[0]] + rest else rest
  }

  function Singles(requests: seq<Request>): (jobs: seq<Job>)
    ensures |jobs| == |requests| && forall i | 0 <= i < |jobs| :: jobs[i] == Single(requests[i])
  {
    seq(|requests|, i requires 0 <= i < |requests| => Single(requests[i]))
  }

  /** One batch of all that may start, alone if there is one, and the others behind it. */
  function Merged(l: Ledger, requests: seq<Request>, blocked: set<nat>, pool: nat, id: nat): (Ledger, seq<Job>) {
    var ready, late := Startable(requests, blocked), Late(requests, blocked);
    if |ready| <= 1 then (l, Singles(ready) + Singles(late))
    else (RegisterBatch(l, ready, id), [BatchOf(id, pool, ready)] + Singles(late))
  }

  /** The pool's queue taken out in the order it is to be served. */
  function Drain(m: Machine, pool: nat, pick: seq<Job> -> nat): (Machine, seq<Job>) {
    var popped := Popped(pick, Mine(m.waiting, pool));
    var others := m.(waiting := Others(m.waiting, pool));
    if pool !in m.merging then (others, popped)
    else
      var (reopened, requests) := Open(m.ledger, popped);
      var (merged, ordered) := Merged(reopened, requests, m.blocked, pool, m.nextBatch);
      (others.(ledger := merged, nextBatch := m.nextBatch + 1), ordered)
  }

  // --------------------------------------------------------- the dispatch

  /** A batch owes no boundary. */
  predicate IsStartable(job: Job, blocked: set<nat>) {
    job.Single? ==> job.request.key !in blocked
  }

  /** The scheduler's picks and the pool's offers, round by round. */
  datatype Environment = Environment(pick: (nat, seq<Job>) -> nat, offer: (nat, Job) -> Option<nat>)

  function FirstPlaced(jobs: seq<Job>, blocked: set<nat>, offer: Job -> Option<nat>): (p: nat)
    ensures p <= |jobs|
    ensures forall i | 0 <= i < p :: !(IsStartable(jobs[i], blocked) && offer(jobs[i]).Some?)
    ensures p < |jobs| ==> IsStartable(jobs[p], blocked) && offer(jobs[p]).Some?
  {
    if jobs == [] then 0
    else if IsStartable(jobs[0], blocked) && offer(jobs[0]).Some? then 0
    else 1 + FirstPlaced(jobs[1..], blocked, offer)
  }

  function PickAt(env: Environment, k: nat): seq<Job> -> nat {
    (jobs: seq<Job>) => env.pick(k, jobs)
  }

  function OfferAt(env: Environment, k: nat): Job -> Option<nat> {
    (job: Job) => env.offer(k, job)
  }

  /** What a round leaves once the queue is drained. */
  function Placed(drained: Machine, ordered: seq<Job>, offer: Job -> Option<nat>): (Machine, bool) {
    var p := FirstPlaced(ordered, drained.blocked, offer);
    if p == |ordered| then (drained.(waiting := drained.waiting + ordered), false)
    else
      (drained.(
         waiting := drained.waiting + RemoveAt(ordered, p),
         resident := drained.resident + [Resident(ordered[p], offer(ordered[p]).value)]),
       true)
  }

  /** One round of the loop: the first job offered a unit takes it; the rest go back. */
  function Round(m: Machine, pool: nat, env: Environment, k: nat): (Machine, bool) {
    var (drained, ordered) := Drain(m, pool, PickAt(env, k));
    Placed(drained, ordered, OfferAt(env, k))
  }

  /** The requests the jobs name; a batch counts for one at least. */
  function Named(jobs: seq<Job>): nat {
    if jobs == [] then 0
    else (if jobs[0].BatchOf? && jobs[0].members != [] then |jobs[0].members| else 1) + Named(jobs[1..])
  }

  function Dispatch(m: Machine, pool: nat, env: Environment, k: nat): Machine
    decreases Named(Mine(m.waiting, pool))
  {
    if Mine(m.waiting, pool) == [] then m
    else
      var (next, isPlaced) := Round(m, pool, env, k);
      RoundNamesFewer(m, pool, env, k);
      if isPlaced then Dispatch(next, pool, env, k + 1) else next
  }

  // ------------------------------------------------- why the loop ends

  lemma {:induction false} NamedAppend(a: seq<Job>, b: seq<Job>)
    ensures Named(a + b) == Named(a) + Named(b)
  {
    if a == [] {
      assert a + b == b;
    } else {
      NamedAppend(a[1..], b);
      assert (a + b)[1..] == a[1..] + b;
    }
  }

  lemma NamedWithout(jobs: seq<Job>, i: nat)
    requires i < |jobs|
    ensures Named(jobs) == Named(RemoveAt(jobs, i)) + Named([jobs[i]]) && Named([jobs[i]]) >= 1
  {
    assert jobs == jobs[..i] + ([jobs[i]] + jobs[i + 1..]);
    NamedAppend(jobs[..i], [jobs[i]] + jobs[i + 1..]);
    NamedAppend([jobs[i]], jobs[i + 1..]);
    NamedAppend(jobs[..i], jobs[i + 1..]);
  }

  lemma {:induction false} PoppedNames(pick: seq<Job> -> nat, jobs: seq<Job>)
    ensures Named(Popped(pick, jobs)) == Named(jobs)
    decreases |jobs|
  {
    if jobs != [] {
      var i := pick(jobs) % |jobs|;
      PoppedNames(pick, RemoveAt(jobs, i));
      NamedWithout(jobs, i);
      NamedAppend([jobs[i]], Popped(pick, RemoveAt(jobs, i)));
    }
  }

  lemma {:induction false} OpenNames(l: Ledger, jobs: seq<Job>)
    ensures |Open(l, jobs).1| <= Named(jobs)
    decreases |jobs|
  {
    if jobs != [] {
      var members := if jobs[0].Single? then [jobs[0].request] else StillServed(l, ServiceOf(jobs[0]), jobs[0].members);
      OpenNames(if jobs[0].Single? then l else Reopen(l, members), jobs[1..]);
    }
  }

  lemma {:induction false} SinglesNamed(requests: seq<Request>)
    ensures Named(Singles(requests)) == |requests|
  {
    if requests != [] {
      SinglesNamed(requests[1..]);
      assert Singles(requests)[1..] == Singles(requests[1..]);
    }
  }

  lemma {:induction false} SplitSizes(requests: seq<Request>, blocked: set<nat>)
    ensures |Startable(requests, blocked)| + |Late(requests, blocked)| == |requests|
  {
    if requests != [] {
      SplitSizes(requests[1..], blocked);
    }
  }

  lemma MergedNames(l: Ledger, requests: seq<Request>, blocked: set<nat>, pool: nat, id: nat)
    ensures Named(Merged(l, requests, blocked, pool, id).1) == |requests|
  {
    var ready, late := Startable(requests, blocked), Late(requests, blocked);
    SplitSizes(requests, blocked);
    SinglesNamed(ready);
    SinglesNamed(late);
    NamedAppend(Singles(ready), Singles(late));
    var batch := [BatchOf(id, pool, ready)];
    NamedAppend(batch, Singles(late));
    assert batch[1..] == [];
  }

  lemma {:induction false} MineNames(jobs: seq<Job>, pool: nat)
    ensures Named(Mine(jobs, pool)) <= Named(jobs)
  {
    if jobs != [] {
      MineNames(jobs[1..], pool);
      NamedAppend([jobs[0]], Mine(jobs[1..], pool));
      assert [jobs[0]][1..] == [];
    }
  }

  lemma {:induction false} MineAppend(a: seq<Job>, b: seq<Job>, pool: nat)
    ensures Mine(a + b, pool) == Mine(a, pool) + Mine(b, pool)
  {
    if a == [] {
      assert a + b == b;
    } else {
      MineAppend(a[1..], b, pool);
      assert (a + b)[0] == a[0] && (a + b)[1..] == a[1..] + b;
    }
  }

  lemma MineFirst(job: Job, rest: seq<Job>, pool: nat)
    ensures Mine([job] + rest, pool) == if PoolOf(job) == pool then [job] + Mine(rest, pool) else Mine(rest, pool)
  {
    assert ([job] + rest)[1..] == rest;
  }

  lemma {:induction false} NoneMine(waiting: seq<Job>, pool: nat)
    ensures Mine(Others(waiting, pool), pool) == []
  {
    if waiting != [] {
      NoneMine(waiting[1..], pool);
      if PoolOf(waiting[0]) != pool {
        MineFirst(waiting[0], Others(waiting[1..], pool), pool);
      }
    }
  }

  lemma DrainNames(m: Machine, pool: nat, pick: seq<Job> -> nat)
    ensures Named(Drain(m, pool, pick).1) <= Named(Mine(m.waiting, pool))
    ensures Drain(m, pool, pick).0.waiting == Others(m.waiting, pool)
  {
    var popped := Popped(pick, Mine(m.waiting, pool));
    PoppedNames(pick, Mine(m.waiting, pool));
    OpenNames(m.ledger, popped);
    var (reopened, requests) := Open(m.ledger, popped);
    MergedNames(reopened, requests, m.blocked, pool, m.nextBatch);
  }

  /** A round that places a job leaves fewer requests in the pool's queue, merged or not. */
  lemma RoundNamesFewer(m: Machine, pool: nat, env: Environment, k: nat)
    ensures Round(m, pool, env, k).1 ==>
      Named(Mine(Round(m, pool, env, k).0.waiting, pool)) < Named(Mine(m.waiting, pool))
  {
    DrainNames(m, pool, PickAt(env, k));
    var (drained, ordered) := Drain(m, pool, PickAt(env, k));
    var p := FirstPlaced(ordered, drained.blocked, OfferAt(env, k));
    if p < |ordered| {
      RestNames(drained.waiting, m.waiting, ordered, p, pool);
    }
  }

  lemma RestNames(others: seq<Job>, waiting: seq<Job>, ordered: seq<Job>, p: nat, pool: nat)
    requires p < |ordered| && others == Others(waiting, pool)
    ensures Named(Mine(others + RemoveAt(ordered, p), pool)) < Named(ordered)
  {
    NamedWithout(ordered, p);
    MineAppend(others, RemoveAt(ordered, p), pool);
    NoneMine(waiting, pool);
    MineNames(RemoveAt(ordered, p), pool);
    assert [] + Mine(RemoveAt(ordered, p), pool) == Mine(RemoveAt(ordered, p), pool);
  }
}
