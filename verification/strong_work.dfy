/** Every live request is served by exactly one job, queued or on a unit, and every job serves a
    live request: what opening and merging the batches of a queue keep.
 */
module StrongWork {
  import opened Lists
  import opened StrongLedgers
  import opened StrongAccounts
  import opened StrongJobs

  function CountJobs(jobs: seq<Job>, s: Service): nat {
    if jobs == [] then 0 else (if ServiceOf(jobs[0]) == s then 1 else 0) + CountJobs(jobs[1..], s)
  }

  ghost predicate IsServedAt(l: Ledger, k: Place, i: int, s: Service) {
    0 <= i < |RecordAt(l, k).live| && RecordAt(l, k).live[i].service == s
  }

  ghost predicate HasSurvivors(l: Ledger, s: Service) {
    exists k, i :: IsServedAt(l, k, i, s)
  }

  ghost predicate SurvivesBut(l: Ledger, s: Service, x: Place) {
    exists k, i :: k != x && IsServedAt(l, k, i, s)
  }

  /** What the job's decode serves are members of its own, on its pool. */
  ghost predicate ServesOwn(l: Ledger, job: Job) {
    forall k, i :: IsServedAt(l, k, i, ServiceOf(job)) ==>
      RecordAt(l, k).live[i].request in MembersOf(job) && RecordAt(l, k).live[i].request.pool == PoolOf(job)
  }

  /** A decode is one job just when it serves a live request, and otherwise none. */
  ghost predicate Working(l: Ledger, jobs: seq<Job>) {
    && (forall s :: CountJobs(jobs, s) == if HasSurvivors(l, s) then 1 else 0)
    && (forall job | job in jobs :: ServesOwn(l, job))
  }

  // ------------------------------------------------------------- counting

  lemma {:induction false} CountJobsAppend(a: seq<Job>, b: seq<Job>, s: Service)
    ensures CountJobs(a + b, s) == CountJobs(a, s) + CountJobs(b, s)
  {
    if a == [] {
      assert a + b == b;
    } else {
      CountJobsAppend(a[1..], b, s);
      assert (a + b)[0] == a[0] && (a + b)[1..] == a[1..] + b;
    }
  }

  lemma CountOne(job: Job, s: Service)
    ensures CountJobs([job], s) == if ServiceOf(job) == s then 1 else 0
  {
    assert [job][1..] == [];
  }

  lemma {:induction false} CountMember(jobs: seq<Job>, s: Service)
    ensures CountJobs(jobs, s) > 0 <==> exists job :: job in jobs && ServiceOf(job) == s
  {
    if jobs != [] {
      CountMember(jobs[1..], s);
      assert forall job :: job in jobs <==> job == jobs[0] || job in jobs[1..];
      assert jobs[0] in jobs;
    }
  }

  lemma CountWithout(jobs: seq<Job>, i: nat, s: Service)
    requires i < |jobs|
    ensures CountJobs(jobs, s) == CountJobs(RemoveAt(jobs, i), s) + if ServiceOf(jobs[i]) == s then 1 else 0
  {
    assert jobs == jobs[..i] + ([jobs[i]] + jobs[i + 1..]);
    CountJobsAppend(jobs[..i], [jobs[i]] + jobs[i + 1..], s);
    CountJobsAppend([jobs[i]], jobs[i + 1..], s);
    CountJobsAppend(jobs[..i], jobs[i + 1..], s);
    CountOne(jobs[i], s);
  }

  lemma SameWithout(a: seq<Job>, b: seq<Job>, i: nat)
    requires multiset(a) == multiset(b) && a != [] && i < |b| && b[i] == a[0]
    ensures multiset(a[1..]) == multiset(RemoveAt(b, i))
  {
    RemovedHolds(a, 0);
    RemovedHolds(b, i);
    assert RemoveAt(a, 0) == a[1..];
    assert multiset(a[1..]) == multiset(a) - multiset{a[0]};
    assert multiset(RemoveAt(b, i)) == multiset(b) - multiset{b[i]};
  }

  lemma {:induction false} SameCounts(a: seq<Job>, b: seq<Job>, s: Service)
    requires multiset(a) == multiset(b)
    ensures CountJobs(a, s) == CountJobs(b, s)
    decreases |a|
  {
    if a == [] {
      assert |multiset(b)| == |b| && b == [];
    } else {
      assert a[0] in multiset(b);
      var i: nat :| i < |b| && b[i] == a[0];
      SameWithout(a, b, i);
      SameCounts(a[1..], RemoveAt(b, i), s);
      CountWithout(b, i, s);
    }
  }

  lemma WorkSame(l: Ledger, a: seq<Job>, b: seq<Job>)
    requires Working(l, a) && multiset(a) == multiset(b)
    ensures Working(l, b)
  {
    forall s
      ensures CountJobs(b, s) == CountJobs(a, s)
    {
      SameCounts(a, b, s);
    }
    forall job | job in b
      ensures ServesOwn(l, job)
    {
      assert job in multiset(b);
    }
  }

  lemma {:induction false} PoppedHolds(pick: seq<Job> -> nat, jobs: seq<Job>)
    ensures multiset(Popped(pick, jobs)) == multiset(jobs)
    decreases |jobs|
  {
    if jobs != [] {
      var i := pick(jobs) % |jobs|;
      PoppedHolds(pick, RemoveAt(jobs, i));
      RemovedHolds(jobs, i);
    }
  }

  lemma RemovedHolds(jobs: seq<Job>, i: nat)
    requires i < |jobs|
    ensures multiset(jobs) == multiset(RemoveAt(jobs, i)) + multiset{jobs[i]}
  {
    assert jobs == jobs[..i] + ([jobs[i]] + jobs[i + 1..]);
  }

  lemma {:induction false} MineAndOthers(jobs: seq<Job>, pool: nat)
    ensures multiset(Mine(jobs, pool)) + multiset(Others(jobs, pool)) == multiset(jobs)
    ensures forall job | job in Mine(jobs, pool) :: PoolOf(job) == pool
  {
    if jobs != [] {
      MineAndOthers(jobs[1..], pool);
      assert jobs == [jobs[0]] + jobs[1..];
    }
  }

  // ------------------------------------------------------ one request moves

  lemma Moved(l: Ledger, q: Request, s0: Service, s1: Service)
    requires RecordAt(l, q.At()).live == [Live(q, s0)]
    ensures var r := Put(l, q.At(), RecordAt(l, q.At()).(live := [Live(q, s1)]));
      && (forall s :: HasSurvivors(l, s) <==> s == s0 || SurvivesBut(l, s, q.At()))
      && (forall s :: HasSurvivors(r, s) <==> s == s1 || SurvivesBut(l, s, q.At()))
      && (forall k | k != q.At() :: RecordAt(r, k) == RecordAt(l, k))
      && RecordAt(r, q.At()).live == [Live(q, s1)]
  {
    var x := q.At();
    var r := Put(l, x, RecordAt(l, x).(live := [Live(q, s1)]));
    assert IsServedAt(l, x, 0, s0) && IsServedAt(r, x, 0, s1);
    forall s
      ensures HasSurvivors(l, s) <==> s == s0 || SurvivesBut(l, s, x)
      ensures HasSurvivors(r, s) <==> s == s1 || SurvivesBut(l, s, x)
    {
      if k, i :| k != x && IsServedAt(l, k, i, s) {
        assert IsServedAt(r, k, i, s);
      }
      if HasSurvivors(r, s) && s != s1 {
        var k, i :| IsServedAt(r, k, i, s);
        assert k != x && IsServedAt(l, k, i, s);
      }
      if HasSurvivors(l, s) && s != s0 {
        var k, i :| IsServedAt(l, k, i, s);
        assert k != x;
      }
    }
  }

  function Held(isHeld: bool, job: Job): seq<Job> {
    if isHeld then [job] else []
  }

  /** A request that stands alone in its record passes from one job to another, which may be new;
      the first stays while it serves others. */
  lemma MoveOne(l: Ledger, q: Request, from: Job, to: Job, staysFrom: bool, hasTo: bool, rest: seq<Job>)
    requires RecordAt(l, q.At()).live == [Live(q, ServiceOf(from))] && ServiceOf(from) != ServiceOf(to)
    requires Working(l, [from] + (Held(hasTo, to) + rest))
    requires q in MembersOf(to) && q.pool == PoolOf(to)
    requires hasTo || (!HasSurvivors(l, ServiceOf(to)) && ServesOwn(l, to))
    requires staysFrom <==> SurvivesBut(l, ServiceOf(from), q.At())
    ensures Working(Put(l, q.At(), RecordAt(l, q.At()).(live := [Live(q, ServiceOf(to))])),
      Held(staysFrom, from) + ([to] + rest))
  {
    var r := Put(l, q.At(), RecordAt(l, q.At()).(live := [Live(q, ServiceOf(to))]));
    var before, after := [from] + (Held(hasTo, to) + rest), Held(staysFrom, from) + ([to] + rest);
    Moved(l, q, ServiceOf(from), ServiceOf(to));
    forall s
      ensures CountJobs(after, s) == if HasSurvivors(r, s) then 1 else 0
    {
      CountJobsAppend([from], Held(hasTo, to) + rest, s);
      CountJobsAppend(Held(hasTo, to), rest, s);
      CountJobsAppend(Held(staysFrom, from), [to] + rest, s);
      CountJobsAppend([to], rest, s);
      CountOne(from, s);
      CountOne(to, s);
      assert CountJobs(before, s) == if HasSurvivors(l, s) then 1 else 0;
    }
    CountMember(rest, ServiceOf(to));
    CountJobsAppend([from], Held(hasTo, to) + rest, ServiceOf(to));
    CountJobsAppend(Held(hasTo, to), rest, ServiceOf(to));
    CountOne(to, ServiceOf(to));
    assert CountJobs(rest, ServiceOf(to)) == 0;
    forall job | job in after
      ensures ServesOwn(r, job)
    {
      assert job == to || job == from || job in rest;
      MovedOwn(l, r, q, from, to, job, before);
    }
  }

  lemma MovedOwn(l: Ledger, r: Ledger, q: Request, from: Job, to: Job, job: Job, before: seq<Job>)
    requires forall k | k != q.At() :: RecordAt(r, k) == RecordAt(l, k)
    requires RecordAt(r, q.At()).live == [Live(q, ServiceOf(to))]
    requires q in MembersOf(to) && q.pool == PoolOf(to)
    requires forall other | other in before :: ServesOwn(l, other)
    requires job == to || job in before
    requires ServesOwn(l, to)
    requires job != to ==> ServiceOf(job) != ServiceOf(to)
    ensures ServesOwn(r, job)
  {
    assert ServesOwn(l, job);
    forall k, i | IsServedAt(r, k, i, ServiceOf(job))
      ensures RecordAt(r, k).live[i].request in MembersOf(job) && RecordAt(r, k).live[i].request.pool == PoolOf(job)
    {
      if k != q.At() {
        assert IsServedAt(l, k, i, ServiceOf(job));
      }
    }
  }

  // --------------------------------------------------- opening a batch

  /** A batch is of distinct members, formed before the next, on a pool that merges. */
  ghost predicate Formed(job: Job, merging: set<nat>, nextBatch: nat) {
    job.BatchOf? ==>
      job.id < nextBatch && job.pool in merging && Distinct(job.members)
  }

  /** No two requests of a merging pool stand in one record. */
  ghost predicate Alone(l: Ledger, merging: set<nat>) {
    forall k: Place :: k.target.Some? && k.target.value in merging ==> |RecordAt(l, k).live| <= 1
  }

  lemma DistinctWith(x: Request, rest: seq<Request>)
    requires Distinct(rest) && x !in rest
    ensures Distinct([x] + rest)
  {
  }

  lemma {:induction false} ServedDistinct(l: Ledger, service: Service, members: seq<Request>)
    requires Distinct(members)
    ensures Distinct(StillServed(l, service, members))
  {
    if members != [] {
      DistinctTail(members);
      ServedDistinct(l, service, members[1..]);
      if Serves(l, service, members[0]) {
        DistinctWith(members[0], StillServed(l, service, members[1..]));
      }
    }
  }

  /** What a job answers is exactly what it serves, each once. */
  lemma AnswersExactly(l: Ledger, job: Job, merging: set<nat>, nextBatch: nat)
    requires Known(l, []) && ServesOwn(l, job) && Formed(job, merging, nextBatch)
    ensures ServedExactly(l, ServiceOf(job), StillServed(l, ServiceOf(job), MembersOf(job)))
  {
    forall q | Serves(l, ServiceOf(job), q)
      ensures q in MembersOf(job)
    {
      var live := RecordAt(l, q.At()).live;
      var i :| 0 <= i < |live| && live[i] == Live(q, ServiceOf(job));
      assert IsServedAt(l, q.At(), i, ServiceOf(job));
    }
    ServedDistinct(l, ServiceOf(job), MembersOf(job));
  }

  lemma SurvivorsAnswer(l: Ledger, job: Job, merging: set<nat>, nextBatch: nat)
    requires Known(l, []) && ServesOwn(l, job) && Formed(job, merging, nextBatch) && HasSurvivors(l, ServiceOf(job))
    ensures StillServed(l, ServiceOf(job), MembersOf(job)) != []
  {
    var k, i :| IsServedAt(l, k, i, ServiceOf(job));
    var q := RecordAt(l, k).live[i].request;
    assert LiveKnown(l, k);
    assert Serves(l, ServiceOf(job), q);
    AnswersExactly(l, job, merging, nextBatch);
    assert q in StillServed(l, ServiceOf(job), MembersOf(job));
  }

  lemma ServedIsLive(l: Ledger, s: Service, q: Request)
    requires Known(l, []) && Serves(l, s, q)
    ensures IsLive(l, q) && IsAdmitted(l, q)
    ensures |RecordAt(l, q.At()).live| <= 1 ==> RecordAt(l, q.At()).live == [Live(q, s)] && IsAlone(l, q)
  {
    assert LiveKnown(l, q.At());
    var live := RecordAt(l, q.At()).live;
    var i :| 0 <= i < |live| && live[i] == Live(q, s);
  }

  /** A request's own decode serves that request. */
  lemma OwnServesItself(l: Ledger, jobs: seq<Job>, k: Place, i: int, key: nat)
    requires Known(l, []) && Working(l, jobs) && IsServedAt(l, k, i, Own(key))
    ensures var q := RecordAt(l, k).live[i].request; q.key == key && IsAdmitted(l, q) && q.At() == k
  {
    CountMember(jobs, Own(key));
    assert HasSurvivors(l, Own(key));
    var job :| job in jobs && ServiceOf(job) == Own(key);
    assert ServesOwn(l, job) && LiveKnown(l, k);
  }

  /** A request that stands alone served by another decode has no job of its own. */
  lemma NoOwnJob(l: Ledger, jobs: seq<Job>, q: Request, s: Service)
    requires Known(l, []) && Working(l, jobs) && IsAdmitted(l, q) && RecordAt(l, q.At()).live == [Live(q, s)]
    requires s != Own(q.key)
    ensures !HasSurvivors(l, Own(q.key)) && ServesOwn(l, Single(q))
  {
    forall k, i
      ensures !IsServedAt(l, k, i, Own(q.key))
    {
      if IsServedAt(l, k, i, Own(q.key)) {
        OwnServesItself(l, jobs, k, i, q.key);
      }
    }
  }

  /** The members of a batch serve themselves again; the batch is gone. */
  lemma {:induction false} ReopenWorks(l: Ledger, batch: Job, members: seq<Request>, rest: seq<Job>)
    requires Accounted(l, []) && batch.BatchOf? && Working(l, [batch] + rest) && members != []
    requires ServedExactly(l, ServiceOf(batch), members)
    requires forall i | 0 <= i < |members| :: |RecordAt(l, members[i].At()).live| <= 1
    ensures Working(Reopen(l, members), Singles(members) + rest)
    decreases |members|
  {
    var q := members[0];
    var serve := (p: Request) => Own(p.key);
    var next := Put(l, q.At(), RecordAt(l, q.At()).(live := [Live(q, Own(q.key))]));
    ReopenOne(l, batch, members, rest);
    if |members| > 1 {
      ReopenWorks(next, batch, members[1..], [Single(q)] + rest);
      assert Reopen(l, members) == Reopen(next, members[1..]);
      WorkSame(Reopen(l, members), Singles(members[1..]) + ([Single(q)] + rest), Singles(members) + rest) by {
        assert Singles(members) == [Single(q)] + Singles(members[1..]);
      }
    } else {
      assert members[1..] == [] && Singles(members) == [Single(q)];
      assert Reopen(l, members) == ServeBy(next, [], serve) == next;
    }
  }

  lemma ReopenOne(l: Ledger, batch: Job, members: seq<Request>, rest: seq<Job>)
    requires Accounted(l, []) && batch.BatchOf? && Working(l, [batch] + rest) && members != []
    requires ServedExactly(l, ServiceOf(batch), members)
    requires forall i | 0 <= i < |members| :: |RecordAt(l, members[i].At()).live| <= 1
    ensures var q := members[0];
      var next := Put(l, q.At(), RecordAt(l, q.At()).(live := [Live(q, Own(q.key))]));
      && Accounted(next, [])
      && (if |members| > 1 then Working(next, [batch] + ([Single(q)] + rest)) else Working(next, [Single(q)] + rest))
      && ServedExactly(next, ServiceOf(batch), members[1..])
      && forall i | 0 <= i < |members[1..]| :: |RecordAt(next, members[1..][i].At()).live| <= 1
  {
    var q, s := members[0], ServiceOf(batch);
    var next := Put(l, q.At(), RecordAt(l, q.At()).(live := [Live(q, Own(q.key))]));
    assert Serves(l, s, q);
    ServedIsLive(l, s, q);
    ServeOneAlone(l, q, Own(q.key));
    NoOwnJob(l, [batch] + rest, q, s);
    ServedAfter(l, next, s, members);
    MoveOne(l, q, batch, Single(q), |members| > 1, false, rest) by {
      assert [] + rest == rest;
    }
    assert Held(|members| > 1, batch) + ([Single(q)] + rest) == if |members| > 1 then [batch] + ([Single(q)] + rest)
      else [Single(q)] + rest;
  }

  /** After one member of a batch left it, the batch serves the others. */
  lemma ServedAfterOne(l: Ledger, next: Ledger, s: Service, q: Request, x: Request)
    requires Known(l, []) && s.Batch? && Serves(l, s, q) && |RecordAt(l, q.At()).live| <= 1
    requires next == Put(l, q.At(), RecordAt(l, q.At()).(live := [Live(q, Own(q.key))]))
    ensures Serves(next, s, x) <==> Serves(l, s, x) && x != q
    ensures Serves(l, s, x) && x != q ==> x.At() != q.At()
  {
    ServedIsLive(l, s, q);
  }

  lemma ServedAfter(l: Ledger, next: Ledger, s: Service, members: seq<Request>)
    requires Known(l, []) && members != [] && ServedExactly(l, s, members) && s.Batch?
    requires forall i | 0 <= i < |members| :: |RecordAt(l, members[i].At()).live| <= 1
    requires var q := members[0]; next == Put(l, q.At(), RecordAt(l, q.At()).(live := [Live(q, Own(q.key))]))
    ensures ServedExactly(next, s, members[1..])
    ensures SurvivesBut(l, s, members[0].At()) <==> |members| > 1
    ensures forall i | 0 <= i < |members[1..]| :: |RecordAt(next, members[1..][i].At()).live| <= 1
  {
    var q := members[0];
    assert q in members && Serves(l, s, q);
    assert members == [q] + members[1..];
    forall x
      ensures x in members[1..] <==> Serves(next, s, x)
    {
      ServedAfterOne(l, next, s, q, x);
      assert x in members <==> Serves(l, s, x);
      assert x in members <==> x == q || x in members[1..];
    }
    forall i | 0 <= i < |members[1..]|
      ensures |RecordAt(next, members[1..][i].At()).live| <= 1
    {
      assert members[1..][i] == members[i + 1];
    }
    SurvivesWith(l, s, members);
  }

  lemma SurvivesWith(l: Ledger, s: Service, members: seq<Request>)
    requires Known(l, []) && members != [] && ServedExactly(l, s, members)
    requires forall i | 0 <= i < |members| :: |RecordAt(l, members[i].At()).live| <= 1
    ensures SurvivesBut(l, s, members[0].At()) <==> |members| > 1
  {
    var q := members[0];
    assert q in members && Serves(l, s, q);
    if k, i :| k != q.At() && IsServedAt(l, k, i, s) {
      assert LiveKnown(l, k);
      var x := RecordAt(l, k).live[i].request;
      assert Serves(l, s, x);
      assert x in members && x != q;
    }
    if |members| > 1 {
      var x := members[1];
      assert x in members && Serves(l, s, x) && x != q;
      ServedIsLive(l, s, x);
      ServedIsLive(l, s, q);
      assert IsServedAt(l, x.At(), 0, s);
    }
  }
}
