/** One pool's queue as an object beside the ledger's: popped, opened, split, merged and put back
    in place. Each method leaves the queue and the ledger the functions of StrongJobs give.
 */
module WaitingJobObjects {
  import opened StrongLedgers
  import opened StrongRequestObjects
  import opened StrongJobs

  lemma {:induction false} AllMine(waiting: seq<Job>, pool: nat)
    requires forall job | job in waiting :: PoolOf(job) == pool
    ensures Mine(waiting, pool) == waiting && Others(waiting, pool) == []
  {
    if waiting != [] {
      assert waiting[0] in waiting;
      AllMine(waiting[1..], pool);
      assert waiting == [waiting[0]] + waiting[1..];
    }
  }

  function Opened(l: Ledger, job: Job): seq<Request> {
    if job.Single? then [job.request] else StillServed(l, ServiceOf(job), job.members)
  }

  lemma OpenNext(l: Ledger, jobs: seq<Job>, n: nat)
    requires n < |jobs|
    ensures var found := Opened(l, jobs[n]);
      var next := Open(if jobs[n].Single? then l else Reopen(l, found), jobs[n + 1..]);
      Open(l, jobs[n..]) == (next.0, found + next.1)
  {
    assert jobs[n..][0] == jobs[n] && jobs[n..][1..] == jobs[n + 1..];
  }

  lemma PopsFirst(pick: seq<Job> -> nat, jobs: seq<Job>, i: nat, popped: seq<Job>)
    requires jobs != [] && i == pick(jobs) % |jobs|
    ensures popped + Popped(pick, jobs) == (popped + [jobs[i]]) + Popped(pick, RemoveAt(jobs, i))
  {
  }

  lemma Joined(a: seq<Request>, b: seq<Request>, c: seq<Request>)
    ensures a + (b + c) == (a + b) + c
  {
  }

  class WaitingJobs {
    const pool: nat
    const mergesStrong: bool
    const requests: StrongRequests
    var waiting: seq<Job>
    var blocked: set<nat>
    var nextBatch: nat

    constructor (pool: nat, mergesStrong: bool, requests: StrongRequests)
      ensures this.pool == pool && this.mergesStrong == mergesStrong && this.requests == requests
      ensures waiting == [] && blocked == {} && nextBatch == 0
    {
      this.pool, this.mergesStrong, this.requests := pool, mergesStrong, requests;
      waiting, blocked, nextBatch := [], {}, 0;
    }

    /** The queue beside its ledger, with no unit of the pool in sight. */
    ghost function Value(): Machine
      reads this, requests
    {
      Machine(requests.State(), if mergesStrong then {pool} else {}, waiting, [], blocked, nextBatch)
    }

    /** The queue emptied, the next job first; on a merging pool as one batch of all that may
        start and the others behind it. */
    method DrainInSchedulerOrder(pick: seq<Job> -> nat) returns (ordered: seq<Job>)
      requires forall job | job in waiting :: PoolOf(job) == pool
      modifies this, requests`records
      ensures (Value(), ordered) == Drain(old(Value()), pool, pick) && waiting == []
    {
      AllMine(waiting, pool);
      if !mergesStrong {
        ordered := PopAll(pick);
        return;
      }
      var popped := PopAll(pick);
      var members := OpenQueued(popped);
      ordered := Merge(members);
    }

    method PopAll(pick: seq<Job> -> nat) returns (popped: seq<Job>)
      modifies this`waiting
      ensures popped == Popped(pick, old(waiting)) && waiting == []
    {
      popped := [];
      while waiting != []
        invariant popped + Popped(pick, waiting) == Popped(pick, old(waiting))
        decreases |waiting|
      {
        var i := pick(waiting) % |waiting|;
        PopsFirst(pick, waiting, i, popped);
        popped := popped + [waiting[i]];
        waiting := RemoveAt(waiting, i);
      }
    }

    /** Each batch that found no unit is its live members again. */
    method OpenQueued(jobs: seq<Job>) returns (members: seq<Request>)
      modifies requests`records
      ensures requests.State() == Open(old(requests.State()), jobs).0 && members == Open(old(requests.State()), jobs).1
    {
      members := [];
      var n := 0;
      assert jobs[0..] == jobs;
      while n < |jobs|
        invariant n <= |jobs|
        invariant Open(requests.State(), jobs[n..]).0 == Open(old(requests.State()), jobs).0
        invariant members + Open(requests.State(), jobs[n..]).1 == Open(old(requests.State()), jobs).1
      {
        OpenNext(requests.State(), jobs, n);
        var found := OpenOne(jobs[n]);
        Joined(members, found, Open(requests.State(), jobs[n + 1..]).1);
        members := members + found;
        n := n + 1;
      }
      assert jobs[n..] == [] && members + [] == members;
    }

    method OpenOne(job: Job) returns (found: seq<Request>)
      modifies requests`records
      ensures found == Opened(old(requests.State()), job)
      ensures requests.State() == if job.Single? then old(requests.State()) else Reopen(old(requests.State()), found)
    {
      if job.Single? {
        return [job.request];
      }
      found := ReopenBatch(job);
    }

    method ReopenBatch(batch: Job) returns (members: seq<Request>)
      requires batch.BatchOf?
      modifies requests`records
      ensures members == StillServed(old(requests.State()), ServiceOf(batch), batch.members)
      ensures requests.State() == Reopen(old(requests.State()), members)
    {
      members := LiveMembers(batch);
      ghost var serve := (q: Request) => Own(q.key);
      var n := 0;
      assert members[0..] == members;
      while n < |members|
        invariant n <= |members|
        invariant ServeBy(requests.State(), members[n..], serve) == ServeBy(old(requests.State()), members, serve)
      {
        var q := members[n];
        assert members[n..][0] == q && members[n..][1..] == members[n + 1..];
        requests.Keep(q.At(), requests.Get(q.At()).(live := [Live(q, Own(q.key))]));
        n := n + 1;
      }
    }

    method LiveMembers(batch: Job) returns (members: seq<Request>)
      requires batch.BatchOf?
      ensures members == StillServed(requests.State(), ServiceOf(batch), batch.members)
    {
      members := [];
      var n := 0;
      assert batch.members[0..] == batch.members;
      while n < |batch.members|
        invariant n <= |batch.members|
        invariant members + StillServed(requests.State(), ServiceOf(batch), batch.members[n..]) ==
          StillServed(requests.State(), ServiceOf(batch), batch.members)
      {
        var q := batch.members[n];
        assert batch.members[n..][0] == q && batch.members[n..][1..] == batch.members[n + 1..];
        if Live(q, ServiceOf(batch)) in requests.Get(q.At()).live {
          members := members + [q];
        }
        n := n + 1;
      }
    }

    /** Those that may start, and those whose window owes a boundary. */
    method SplitByBoundary(members: seq<Request>) returns (ready: seq<Request>, late: seq<Request>)
      ensures ready == Startable(members, blocked) && late == Late(members, blocked)
    {
      ready, late := [], [];
      var n := 0;
      assert members[0..] == members;
      while n < |members|
        invariant n <= |members|
        invariant ready + Startable(members[n..], blocked) == Startable(members, blocked)
        invariant late + Late(members[n..], blocked) == Late(members, blocked)
      {
        assert members[n..][0] == members[n] && members[n..][1..] == members[n + 1..];
        Joined(ready, [members[n]], Startable(members[n + 1..], blocked));
        Joined(late, [members[n]], Late(members[n + 1..], blocked));
        if members[n].key in blocked {
          late := late + [members[n]];
        } else {
          ready := ready + [members[n]];
        }
        n := n + 1;
      }
    }

    /** The members split by whether they may start, and the startable ones merged. */
    method Merge(members: seq<Request>) returns (ordered: seq<Job>)
      modifies this`nextBatch, requests`records
      ensures requests.State() == Merged(old(requests.State()), members, blocked, pool, old(nextBatch)).0
      ensures ordered == Merged(old(requests.State()), members, blocked, pool, old(nextBatch)).1
      ensures nextBatch == old(nextBatch) + 1
    {
      var ready, late := SplitByBoundary(members);
      if |ready| <= 1 {
        ordered := Singles(ready) + Singles(late);
      } else {
        requests.RegisterTheBatch(ready, nextBatch);
        ordered := [BatchOf(nextBatch, pool, ready)] + Singles(late);
      }
      nextBatch := nextBatch + 1;
    }

    /** Drained jobs go back at the queue's end, in their order. */
    method Restore(ordered: seq<Job>)
      modifies this`waiting
      ensures waiting == old(waiting) + ordered
    {
      waiting := waiting + ordered;
    }
  }
}
