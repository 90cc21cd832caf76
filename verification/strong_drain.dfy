/** A drain of a pool's queue, merged or not, keeps the live requests, what serves each of them,
    and the ledger's promises.
 */
module StrongDrain {
  import opened StrongLedgers
  import opened StrongAccounts
  import opened StrongAttempts
  import opened StrongCalls
  import opened StrongJobs
  import opened StrongWork

  // ------------------------------------------------------ forming a batch

  /** A request of a merging pool with a job of its own stands alone in its record. */
  lemma SingleStands(l: Ledger, jobs: seq<Job>, q: Request)
    requires Known(l, []) && Working(l, jobs) && Single(q) in jobs && |RecordAt(l, q.At()).live| <= 1
    ensures RecordAt(l, q.At()).live == [Live(q, Own(q.key))] && IsAdmitted(l, q) && IsLive(l, q) && IsAlone(l, q)
    ensures !SurvivesBut(l, Own(q.key), q.At())
  {
    CountMember(jobs, Own(q.key));
    assert ServiceOf(Single(q)) == Own(q.key) && HasSurvivors(l, Own(q.key)) && ServesOwn(l, Single(q));
    forall k, i | IsServedAt(l, k, i, Own(q.key))
      ensures k == q.At() && RecordAt(l, k).live[i] == Live(q, Own(q.key)) && IsAdmitted(l, q)
    {
      assert LiveKnown(l, k) && ServiceOf(Single(q)) == Own(q.key);
      assert RecordAt(l, k).live[i].request in MembersOf(Single(q));
    }
    var k, i :| IsServedAt(l, k, i, Own(q.key));
    assert Live(q, Own(q.key)) in RecordAt(l, q.At()).live;
  }

  ghost predicate MayJoin(l: Ledger, batch: Job, q: Request) {
    q in MembersOf(batch) && q.pool == PoolOf(batch) && |RecordAt(l, q.At()).live| <= 1
  }

  function JoinedBy(l: Ledger, q: Request, batch: Job): Ledger {
    Put(l, q.At(), RecordAt(l, q.At()).(live := [Live(q, ServiceOf(batch))]))
  }

  /** One request's decode becomes the batch's. */
  lemma JoinOne(l: Ledger, batch: Job, q: Request, hasBatch: bool, rest: seq<Job>)
    requires Accounted(l, []) && batch.BatchOf? && MayJoin(l, batch, q)
    requires Working(l, [Single(q)] + (Held(hasBatch, batch) + rest))
    requires hasBatch || !HasSurvivors(l, ServiceOf(batch))
    ensures Working(JoinedBy(l, q, batch), [batch] + rest) && Accounted(JoinedBy(l, q, batch), [])
    ensures forall p: Request :: |RecordAt(JoinedBy(l, q, batch), p.At()).live| == |RecordAt(l, p.At()).live|
  {
    var jobs := [Single(q)] + (Held(hasBatch, batch) + rest);
    assert jobs[0] == Single(q);
    SingleStands(l, jobs, q);
    ServeOneAlone(l, q, ServiceOf(batch));
    if !hasBatch {
      assert ServesOwn(l, batch);
    }
    MoveOne(l, q, Single(q), batch, false, hasBatch, rest);
    assert Held(false, Single(q)) + ([batch] + rest) == [batch] + rest;
  }

  lemma WorkSwaps(l: Ledger, a: seq<Job>, b: seq<Job>, c: seq<Job>)
    requires Working(l, a + (b + c))
    ensures Working(l, b + (a + c))
  {
    assert multiset(a + (b + c)) == multiset(a) + multiset(b) + multiset(c);
    assert multiset(b + (a + c)) == multiset(a) + multiset(b) + multiset(c);
    WorkSame(l, a + (b + c), b + (a + c));
  }

  lemma Regrouped(a: seq<Job>, b: seq<Job>, c: seq<Job>)
    ensures (a + b) + c == a + (b + c)
  {
  }

  lemma SinglesOfFirst(requests: seq<Request>)
    requires requests != []
    ensures Singles(requests) == [Single(requests[0])] + Singles(requests[1..])
  {
  }

  /** The requests join a batch one after another; the first forms it. */
  lemma {:induction false} JoinWorks(l: Ledger, batch: Job, todo: seq<Request>, hasBatch: bool, rest: seq<Job>)
    requires Accounted(l, []) && batch.BatchOf? && (hasBatch || (todo != [] && !HasSurvivors(l, ServiceOf(batch))))
    requires Working(l, Singles(todo) + (Held(hasBatch, batch) + rest))
    requires forall i | 0 <= i < |todo| :: MayJoin(l, batch, todo[i])
    ensures Working(RegisterBatch(l, todo, batch.id), [batch] + rest)
    decreases |todo|
  {
    if todo == [] {
      assert Singles(todo) + ([batch] + rest) == [batch] + rest;
    } else {
      var q := todo[0];
      var singles := Singles(todo[1..]);
      var later := singles + rest;
      JoinFirst(l, batch, todo, hasBatch, rest);
      JoinOne(l, batch, q, hasBatch, later);
      var next := JoinedBy(l, q, batch);
      WorkSwaps(next, [batch], singles, rest);
      forall i | 0 <= i < |todo[1..]|
        ensures MayJoin(next, batch, todo[1..][i])
      {
        assert todo[1..][i] == todo[i + 1] && MayJoin(l, batch, todo[i + 1]);
      }
      JoinWorks(next, batch, todo[1..], true, rest);
      assert RegisterBatch(l, todo, batch.id) == RegisterBatch(next, todo[1..], batch.id);
    }
  }

  lemma JoinFirst(l: Ledger, batch: Job, todo: seq<Request>, hasBatch: bool, rest: seq<Job>)
    requires todo != [] && Working(l, Singles(todo) + (Held(hasBatch, batch) + rest))
    ensures Working(l, [Single(todo[0])] + (Held(hasBatch, batch) + (Singles(todo[1..]) + rest)))
  {
    var first, singles, held := [Single(todo[0])], Singles(todo[1..]), Held(hasBatch, batch);
    SinglesOfFirst(todo);
    Regrouped(first, singles, held + rest);
    assert multiset(first + (singles + (held + rest))) ==
      multiset(first) + multiset(singles) + multiset(held) + multiset(rest);
    assert multiset(first + (held + (singles + rest))) ==
      multiset(first) + multiset(singles) + multiset(held) + multiset(rest);
    WorkSame(l, first + (singles + (held + rest)), first + (held + (singles + rest)));
  }

  // -------------------------------------------------- what a drain keeps

  /** The same requests are live, in records of the same size. */
  ghost predicate SameRequests(l: Ledger, r: Ledger) {
    && r == l.(records := r.records)
    && (forall q :: IsLive(r, q) <==> IsLive(l, q))
    && (forall k :: |RecordAt(r, k).live| == |RecordAt(l, k).live|)
  }

  lemma SameTwice(a: Ledger, b: Ledger, c: Ledger)
    requires SameRequests(a, b) && SameRequests(b, c)
    ensures SameRequests(a, c)
  {
  }

  lemma {:induction false} ServeSame(l: Ledger, requests: seq<Request>, service: Request -> Service)
    requires Accounted(l, []) && AllLive(l, requests) && forall i | 0 <= i < |requests| :: IsAlone(l, requests[i])
    ensures SameRequests(l, ServeBy(l, requests, service))
    decreases |requests|
  {
    if requests != [] {
      var q := requests[0];
      var next := Put(l, q.At(), RecordAt(l, q.At()).(live := [Live(q, service(q))]));
      ServeOneAlone(l, q, service(q));
      ServeSame(next, requests[1..], service);
      SameTwice(l, next, ServeBy(next, requests[1..], service));
    }
  }

  /** A list of requests served by others than a job of theirs, now rewritten: sound and the same. */
  lemma RewriteKeeps(l: Ledger, requests: seq<Request>, service: Request -> Service)
    requires Sound(l, []) && AllLive(l, requests) && forall i | 0 <= i < |requests| :: IsAlone(l, requests[i])
    ensures Sound(ServeBy(l, requests, service), []) && SameRequests(l, ServeBy(l, requests, service))
  {
    ServeKeeps(l, requests, service);
    ServeSame(l, requests, service);
  }

  lemma AloneSame(l: Ledger, r: Ledger, merging: set<nat>)
    requires Alone(l, merging) && SameRequests(l, r)
    ensures Alone(r, merging)
  {
  }

  ghost predicate OnPool(requests: seq<Request>, pool: nat) {
    forall q | q in requests :: q.pool == pool
  }

  /** Opening one batch of a merging pool. */
  lemma OpenBatchKeeps(l: Ledger, batch: Job, rest: seq<Job>, merging: set<nat>, nextBatch: nat)
    requires Sound(l, []) && Alone(l, merging) && batch.BatchOf? && Formed(batch, merging, nextBatch)
    requires Working(l, [batch] + rest)
    ensures var members := StillServed(l, ServiceOf(batch), batch.members);
      var r := Reopen(l, members);
      Sound(r, []) && SameRequests(l, r) && Working(r, Singles(members) + rest) && OnPool(members, batch.pool)
  {
    var s := ServiceOf(batch);
    var members := StillServed(l, s, batch.members);
    var jobs := [batch] + rest;
    assert jobs[0] == batch;
    assert ServesOwn(l, batch);
    CountMember(jobs, s);
    SurvivorsAnswer(l, batch, merging, nextBatch);
    AnswersExactly(l, batch, merging, nextBatch);
    forall i | 0 <= i < |members|
      ensures IsLive(l, members[i]) && IsAlone(l, members[i]) && members[i].pool == batch.pool
    {
      var q := members[i];
      assert q in members && Serves(l, s, q);
      var j :| 0 <= j < |RecordAt(l, q.At()).live| && RecordAt(l, q.At()).live[j] == Live(q, s);
      assert IsServedAt(l, q.At(), j, s);
      ServedIsLive(l, s, q);
    }
    ReopenWorks(l, batch, members, rest);
    RewriteKeeps(l, members, (q: Request) => Own(q.key));
  }

  /** The first job of a queue opened: its members are jobs of their own. */
  lemma OpenFirst(l: Ledger, job: Job, later: seq<Job>, rest: seq<Job>, merging: set<nat>, nextBatch: nat)
    requires Sound(l, []) && Alone(l, merging) && Formed(job, merging, nextBatch) && Working(l, [job] + (later + rest))
    ensures var members := if job.Single? then [job.request] else StillServed(l, ServiceOf(job), job.members);
      var next := if job.Single? then l else Reopen(l, members);
      && Sound(next, []) && SameRequests(l, next) && Alone(next, merging) && OnPool(members, PoolOf(job))
      && Working(next, later + (Singles(members) + rest))
  {
    var members := if job.Single? then [job.request] else StillServed(l, ServiceOf(job), job.members);
    var next := if job.Single? then l else Reopen(l, members);
    if job.Single? {
      assert Singles(members) == [job];
    } else {
      OpenBatchKeeps(l, job, later + rest, merging, nextBatch);
      AloneSame(l, next, merging);
    }
    WorkSwaps(next, Singles(members), later, rest);
  }

  lemma OpenedTogether(r: Ledger, members: seq<Request>, later: seq<Request>, rest: seq<Job>, pool: nat)
    requires Working(r, Singles(later) + (Singles(members) + rest)) && OnPool(members, pool) && OnPool(later, pool)
    ensures Working(r, Singles(members + later) + rest) && OnPool(members + later, pool)
  {
    WorkSwaps(r, Singles(later), Singles(members), rest);
    assert Singles(members + later) == Singles(members) + Singles(later);
    Regrouped(Singles(members), Singles(later), rest);
  }

  /** Opening a queue's batches: each live request is one job again. */
  lemma {:induction false} OpenKeepsWork(
    l: Ledger, jobs: seq<Job>, rest: seq<Job>, pool: nat, merging: set<nat>, nextBatch: nat)
    requires Sound(l, []) && Alone(l, merging) && Working(l, jobs + rest)
    requires forall job | job in jobs :: Formed(job, merging, nextBatch) && PoolOf(job) == pool
    ensures var (r, requests) := Open(l, jobs);
      Sound(r, []) && SameRequests(l, r) && Working(r, Singles(requests) + rest) && OnPool(requests, pool)
    decreases |jobs|
  {
    if jobs == [] {
      assert Singles([]) + rest == [] + rest;
    } else {
      var job := jobs[0];
      assert job in jobs && jobs + rest == [job] + (jobs[1..] + rest);
      var members := if job.Single? then [job.request] else StillServed(l, ServiceOf(job), job.members);
      var next := if job.Single? then l else Reopen(l, members);
      OpenFirst(l, job, jobs[1..], rest, merging, nextBatch);
      OpenKeepsWork(next, jobs[1..], Singles(members) + rest, pool, merging, nextBatch);
      var (r, later) := Open(next, jobs[1..]);
      SameTwice(l, next, r);
      OpenedTogether(r, members, later, rest, pool);
    }
  }

  // ------------------------------------------------------ merging a queue

  lemma {:induction false} SplitHolds(requests: seq<Request>, blocked: set<nat>)
    ensures multiset(Singles(Startable(requests, blocked))) + multiset(Singles(Late(requests, blocked))) ==
      multiset(Singles(requests))
  {
    if requests != [] {
      var ready, late := Startable(requests[1..], blocked), Late(requests[1..], blocked);
      SplitHolds(requests[1..], blocked);
      SinglesOfFirst(requests);
      if requests[0].key in blocked {
        SinglesOfFirst([requests[0]] + late);
        assert ([requests[0]] + late)[1..] == late;
      } else {
        SinglesOfFirst([requests[0]] + ready);
        assert ([requests[0]] + ready)[1..] == ready;
      }
    }
  }

  /** Merging the requests of a queue: each is served by one job, the batch or its own. */
  lemma MergeKeepsWork(
    l: Ledger, requests: seq<Request>, blocked: set<nat>, pool: nat, id: nat, rest: seq<Job>, merging: set<nat>)
    requires Sound(l, []) && Alone(l, merging) && pool in merging && OnPool(requests, pool)
    requires Working(l, Singles(requests) + rest) && !HasSurvivors(l, Batch(id))
    ensures var (r, ordered) := Merged(l, requests, blocked, pool, id);
      Sound(r, []) && SameRequests(l, r) && Working(r, ordered + rest)
  {
    var ready, late := Startable(requests, blocked), Late(requests, blocked);
    SplitHolds(requests, blocked);
    WorkSame(l, Singles(requests) + rest, Singles(ready) + (Singles(late) + rest));
    if |ready| <= 1 {
      Regrouped(Singles(ready), Singles(late), rest);
    } else {
      var batch := BatchOf(id, pool, ready);
      var r := RegisterBatch(l, ready, id);
      var others := Singles(late) + rest;
      forall i | 0 <= i < |ready|
        ensures MayJoin(l, batch, ready[i]) && IsLive(l, ready[i]) && IsAlone(l, ready[i])
      {
        assert ready[i] in ready && ready[i] in requests;
        assert (Singles(ready) + others)[i] == Single(ready[i]);
        SingleStands(l, Singles(ready) + others, ready[i]);
      }
      assert [] + others == others;
      JoinWorks(l, batch, ready, false, others);
      RewriteKeeps(l, ready, (_: Request) => Batch(id));
      Regrouped([batch], Singles(late), rest);
    }
  }
}
