/** Every run of the decoder side: the manager's calls and the engine's callbacks, in any
    order, keep the slots, the claims and the requests, and leave no compute idle beside a
    waiting job that may start.
 */
module DecodeRuns {
  import opened Options
  import opened DecoderPools
  import opened DecodeSteps
  import opened DecodeInvariant

  // --------------------------------------------------- counting requests

  /** How many of the jobs are the request. */
  function Count(jobs: seq<Job>, id: nat): nat {
    if jobs == [] then 0 else (if jobs[0].id == id then 1 else 0) + Count(jobs[1..], id)
  }

  function CountOnUnits(units: seq<Unit>, id: nat): nat {
    if units == [] then 0 else Count(units[0].residents, id) + CountOnUnits(units[1..], id)
  }

  function CountGone(gone: seq<nat>, id: nat): nat {
    if gone == [] then 0 else (if gone[0] == id then 1 else 0) + CountGone(gone[1..], id)
  }

  /** Where a request is counted: queued, on a unit, or gone. */
  function Places(s: Side, id: nat): nat {
    Count(s.waiting, id) + CountOnUnits(s.units, id) + CountGone(s.gone, id)
  }

  /** Every admitted request is in one place, and no other request is in any. */
  ghost predicate Accounted(s: Side) {
    forall id: nat :: Places(s, id) == if id < s.nextId then 1 else 0
  }

  lemma {:induction false} CountAppend(a: seq<Job>, b: seq<Job>, id: nat)
    ensures Count(a + b, id) == Count(a, id) + Count(b, id)
  {
    if a == [] {
      assert a + b == b;
    } else {
      CountAppend(a[1..], b, id);
      assert (a + b)[1..] == a[1..] + b;
    }
  }

  lemma CountWithout(jobs: seq<Job>, p: nat, id: nat)
    requires p < |jobs|
    ensures Count(jobs, id) == Count(jobs[..p] + jobs[p + 1..], id) + if jobs[p].id == id then 1 else 0
  {
    assert jobs == jobs[..p] + ([jobs[p]] + jobs[p + 1..]);
    CountAppend(jobs[..p], [jobs[p]] + jobs[p + 1..], id);
    CountAppend([jobs[p]], jobs[p + 1..], id);
    CountAppend(jobs[..p], jobs[p + 1..], id);
    assert [jobs[p]][1..] == [];
  }

  lemma {:induction false} CountSame(a: seq<Job>, b: seq<Job>, id: nat)
    requires SameIds(a, b)
    ensures Count(a, id) == Count(b, id)
  {
    if a != [] {
      CountSame(a[1..], b[1..], id);
    }
  }

  lemma {:induction false} CountUnitsSame(a: seq<Unit>, b: seq<Unit>, id: nat)
    requires |a| == |b| && forall u | 0 <= u < |a| :: SameIds(a[u].residents, b[u].residents)
    ensures CountOnUnits(a, id) == CountOnUnits(b, id)
  {
    if a != [] {
      CountSame(a[0].residents, b[0].residents, id);
      CountUnitsSame(a[1..], b[1..], id);
    }
  }

  lemma {:induction false} CountUnitReplaced(units: seq<Unit>, u: nat, unit: Unit, id: nat)
    requires u < |units|
    ensures CountOnUnits(units[u := unit], id) ==
      CountOnUnits(units, id) - Count(units[u].residents, id) + Count(unit.residents, id)
  {
    if u == 0 {
      assert units[u := unit][1..] == units[1..];
    } else {
      CountUnitReplaced(units[1..], u - 1, unit, id);
      assert units[u := unit][1..] == units[1..][u - 1 := unit];
    }
  }

  lemma {:induction false} CountGoneAppend(gone: seq<nat>, x: nat, id: nat)
    ensures CountGone(gone + [x], id) == CountGone(gone, id) + if x == id then 1 else 0
  {
    if gone == [] {
      assert gone + [x] == [x];
    } else {
      CountGoneAppend(gone[1..], x, id);
      assert (gone + [x])[1..] == gone[1..] + [x];
    }
  }

  /** A step that leaves every slot's request where it was keeps the account. */
  lemma AccountKept(s: Side, r: Side)
    requires Accounted(s) && SameSlots(s, r) && r.nextId == s.nextId
    requires forall id :: Count(r.waiting, id) == Count(s.waiting, id)
    ensures Accounted(r)
  {
    forall id: nat
      ensures Places(r, id) == Places(s, id)
    {
      CountUnitsSame(s.units, r.units, id);
    }
  }

  /** A queued request is on no unit. */
  lemma QueuedIsOnNoUnit(s: Side, p: nat, u: nat)
    requires Accounted(s) && p < |s.waiting| && u < |s.units|
    ensures !Holds(s.units[u], s.waiting[p].id)
  {
    var id := s.waiting[p].id;
    assert Places(s, id) <= 1;
    CountWithout(s.waiting, p, id);
    CountUnitReplaced(s.units, u, s.units[u].(residents := []), id);
    if Holds(s.units[u], id) {
      CountWithout(s.units[u].residents, PlaceOf(s.units[u].residents, id), id);
    }
  }

  // -------------------------------------------------------------- dispatch

  ghost predicate Good(s: Side) {
    Inv(s) && Accounted(s)
  }

  /** A drain is the queue in another order. */
  lemma {:induction false} DrainKeeps(pick: Pick, k: nat, queue: seq<Job>)
    ensures multiset(Drain(pick, k, queue)) == multiset(queue)
    decreases |queue|
  {
    if queue != [] {
      var p := pick(k, queue);
      DrainKeeps(pick, k, queue[..p] + queue[p + 1..]);
      assert queue == queue[..p] + [queue[p]] + queue[p + 1..];
    }
  }

  lemma {:induction false} DrainCounts(pick: Pick, k: nat, queue: seq<Job>, id: nat)
    ensures Count(Drain(pick, k, queue), id) == Count(queue, id)
    decreases |queue|
  {
    if queue != [] {
      var p := pick(k, queue);
      var rest := queue[..p] + queue[p + 1..];
      DrainCounts(pick, k, rest, id);
      CountWithout(queue, p, id);
      assert Drain(pick, k, queue)[1..] == Drain(pick, k, rest);
    }
  }

  /** The drained queue put back is as good a queue. */
  lemma DrainedIsGood(s: Side, pick: Pick, k: nat)
    requires Good(s)
    ensures Good(s.(waiting := Drain(pick, k, s.waiting)))
  {
    var r := s.(waiting := Drain(pick, k, s.waiting));
    DrainKeeps(pick, k, s.waiting);
    forall p | 0 <= p < |r.waiting|
      ensures Untouched(r.waiting[p])
    {
      assert r.waiting[p] in multiset(r.waiting);
      assert r.waiting[p] in s.waiting;
    }
    forall id: nat
      ensures Count(r.waiting, id) == Count(s.waiting, id)
    {
      DrainCounts(pick, k, s.waiting, id);
    }
    DeviceKept(s, r, None);
    AccountKept(s, r);
  }

  /** One queued job takes the unit it was offered: one request moves from the queue to a slot. */
  lemma PlacingIsGood(s: Side, ordered: seq<Job>, index: nat, env: Environment, k: nat, u: nat, claims: bool)
    requires Good(s.(waiting := ordered)) && index < |ordered|
    requires OfferFor(s, ordered[index], env, k) == Placement(u, claims)
    ensures u < |s.units| && Good(Place(s, ordered, index, u, claims, env))
  {
    var job := ordered[index];
    var drained := s.(waiting := ordered);
    var restored := s.(waiting := ordered[..index] + ordered[index + 1..]);
    OfferMeaning(s.units, s.free, job, s.now, env.ViewOf(k, job.id));
    QueuedIsOnNoUnit(drained, index, u);
    DeviceKept(drained, restored, None);
    DispatchToKeeps(restored, u, job, claims, env.staging(job.id));
    forall id: nat
      ensures Places(Place(s, ordered, index, u, claims, env), id) == Places(drained, id)
    {
      CountWithout(ordered, index, id);
      DispatchCounts(restored, u, job, claims, env.staging(job.id), id);
    }
  }

  lemma DispatchCounts(s: Side, u: nat, job: Job, claims: bool, staging: Staging, id: nat)
    requires u < |s.units|
    ensures DispatchTo(s, u, job, claims, staging).gone == s.gone
    ensures CountOnUnits(DispatchTo(s, u, job, claims, staging).units, id) ==
      CountOnUnits(s.units, id) + if job.id == id then 1 else 0
  {
    var admitted := Admit(s, u, job, claims);
    CountUnitReplaced(s.units, u, admitted.units[u], id);
    assert admitted.units == s.units[u := admitted.units[u]];
    CountAppend(s.units[u].residents, [job.(claimsAtDispatch := claims)], id);
    if s.dispatchIsFree {
      CountUnitsSame(admitted.units, AskForInput(admitted, u, job.id, staging).units, id);
    }
  }

  /** No waiting job that may start has a unit it would be offered. */
  ghost predicate Settled(s: Side, env: Environment, k: nat) {
    forall p | 0 <= p < |s.waiting| && s.waiting[p].isStartable ::
      OfferFor(s, s.waiting[p], env, k).NoUnit?
  }

  lemma RoundIsGood(s: Side, env: Environment, k: nat)
    requires Good(s)
    ensures Good(RoundOf(s, env, k).side)
    ensures RoundOf(s, env, k).NothingPlaced? ==> Settled(RoundOf(s, env, k).side, env, k)
  {
    var ordered := Drain(env.pick, k, s.waiting);
    DrainedIsGood(s, env.pick, k);
    match FirstPlacement(s, ordered, 0, env, k) {
      case NoSelection =>
      case Selected(index, u, claims) =>
        PlacingIsGood(s, ordered, index, env, k, u, claims);
    }
  }

  /** What every round keeps the loop keeps, and what a round that places nothing reaches the
      loop reaches, unless the queue runs empty. */
  lemma {:induction false} LoopKeeps(
    s: Side, rule: Rounds, k: nat, kept: Side -> bool, reached: (Side, nat) -> bool) returns (last: nat)
    requires kept(s)
    requires forall t: Side, j: nat | kept(t) ::
      kept(rule(t, j).side) && (rule(t, j).NothingPlaced? ==> reached(rule(t, j).side, j))
    ensures kept(Loop(s, rule, k))
    ensures Loop(s, rule, k).waiting == [] || reached(Loop(s, rule, k), last)
    decreases |s.waiting|
  {
    last := k;
    if s.waiting != [] && rule(s, k).Placed? {
      last := LoopKeeps(rule(s, k).side, rule, k + 1, kept, reached);
    }
  }

  /** The dispatch loop ends with every invariant kept, every request in one place, and no
      waiting job that may start left beside a unit it would be offered in the last round. */
  lemma DispatchKeeps(s: Side, env: Environment) returns (last: nat)
    requires Good(s)
    ensures Good(Dispatch(s, env)) && Settled(Dispatch(s, env), env, last)
    ensures SameQueue(s, Dispatch(s, env).(waiting := s.waiting)) && Dispatch(s, env).gone == s.gone
  {
    var rule: Rounds := (t: Side, j: nat) => RoundOf(t, env, j);
    var kept := (t: Side) => Good(t) && SameQueue(s, t.(waiting := s.waiting)) && t.gone == s.gone;
    var reached := (t: Side, j: nat) => Settled(t, env, j);
    forall t: Side, j: nat | kept(t)
      ensures kept(rule(t, j).side)
      ensures rule(t, j).NothingPlaced? ==> reached(rule(t, j).side, j)
    {
      RoundIsGood(t, env, j);
    }
    last := LoopKeeps(s, rule, 0, kept, reached);
  }

  // ------------------------------------------------- entry points and callbacks

  datatype Step =
    | Advance(tick: int)
    | Enqueue(occupancy: Ticks, carriesInput: bool, isStartable: bool, env: Environment)
    | ReleaseWindow(jobs: set<nat>, env: Environment)
    | Cancel(requests: seq<nat>, env: Environment)
    | InputAsked(unit: nat, job: nat, staging: Staging)
    | InputLanded(unit: nat, job: nat)
    | DecodeEnded(unit: nat, job: nat, freesUnit: bool, env: Environment)
    | ResultRead(unit: nat, job: nat, env: Environment)
    | Retry(env: Environment)
    | OtherTakes(name: nat)
    | OtherReturns(name: nat)
    | OtherWithdraws(name: nat)

  /** The job as it is admitted. */
  function NewJob(s: Side, occupancy: Ticks, carriesInput: bool, isStartable: bool): Job {
    Job(s.nextId, s.now, occupancy, carriesInput, isStartable, false, false, false, false, false, false, None)
  }

  /** The window's queued jobs may start, and their wait for a unit begins now. */
  function Released(queue: seq<Job>, jobs: set<nat>, now: int): (r: seq<Job>)
    ensures SameIds(queue, r)
    ensures forall p | 0 <= p < |r| && Untouched(queue[p]) :: Untouched(r[p])
  {
    if queue == [] then []
    else
      [if queue[0].id in jobs then queue[0].(isStartable := true, readyTime := now) else queue[0]]
      + Released(queue[1..], jobs, now)
  }

  function UnitOf(units: seq<Unit>, id: nat, from: nat): (found: Option<nat>)
    requires from <= |units|
    ensures found.Some? ==> found.value < |units| && Holds(units[found.value], id)
    decreases |units| - from
  {
    if from == |units| then None
    else if Holds(units[from], id) then Some(from)
    else UnitOf(units, id, from + 1)
  }

  /** One request ends where it is: queued, in its slot, or running; one already ended does
      nothing. A running decode's end is followed by a dispatch of its own. */
  function CancelOne(s: Side, id: nat, env: Environment): Side
    requires Good(s)
  {
    var p := PlaceOf(s.waiting, id);
    if p < |s.waiting| then
      s.(waiting := s.waiting[..p] + s.waiting[p + 1..], gone := s.gone + [id])
    else
      match UnitOf(s.units, id, 0)
      case None => s
      case Some(u) =>
        if JobOn(s.units[u], id).completed then s
        else if !JobOn(s.units[u], id).started then Evict(s, u, id)
        else
          FreeKeeps(s, u, id);
          Dispatch(Free(s, u, id), env)
  }

  // ------------------------------------------------- accounts of the small steps

  lemma LeaveCounts(s: Side, u: nat, id: nat, x: nat)
    requires OnUnit(s, u, id)
    ensures Places(LeaveUnit(s, u, id), x) == Places(s, x)
  {
    var left := Left(s.units[u], id);
    CountUnitReplaced(s.units, u, left, x);
    CountWithout(s.units[u].residents, PlaceOf(s.units[u].residents, id), x);
    CountGoneAppend(s.gone, id, x);
  }

  lemma FreeIsGood(s: Side, u: nat, id: nat)
    requires Good(s) && InService(s, u, id)
    ensures WaitingOnUnits(LeaveUnit(s, u, id)) && Good(Free(s, u, id))
  {
    FreeKeeps(s, u, id);
    forall x: nat
      ensures Places(LeaveUnit(s, u, id), x) == Places(s, x)
    {
      LeaveCounts(s, u, id, x);
    }
    var left := LeaveUnit(s, u, id);
    var back := GiveBack(left, Own(u, id));
    AccountKept(left, back);
    AccountKept(back, OfferCompute(back, u));
  }

  lemma EvictIsGood(s: Side, u: nat, id: nat)
    requires Good(s) && OnUnit(s, u, id) && !JobOn(s.units[u], id).started
    ensures Good(Evict(s, u, id))
  {
    EvictKeeps(s, u, id);
    var withdrawn := Withdraw(s, Own(u, id));
    AccountKept(s, withdrawn);
    var left := LeaveUnit(withdrawn, u, id);
    forall x: nat
      ensures Places(left, x) == Places(withdrawn, x)
    {
      LeaveCounts(withdrawn, u, id, x);
    }
    AccountKept(left, OfferCompute(left, u));
  }

  lemma QueueLeaveIsGood(s: Side, p: nat)
    requires Good(s) && p < |s.waiting|
    ensures Good(s.(waiting := s.waiting[..p] + s.waiting[p + 1..], gone := s.gone + [s.waiting[p].id]))
  {
    var r := s.(waiting := s.waiting[..p] + s.waiting[p + 1..], gone := s.gone + [s.waiting[p].id]);
    DeviceKept(s, r, None);
    forall x: nat
      ensures Places(r, x) == Places(s, x)
    {
      CountWithout(s.waiting, p, x);
      CountGoneAppend(s.gone, s.waiting[p].id, x);
    }
  }

  lemma CancelOneIsGood(s: Side, id: nat, env: Environment)
    requires Good(s)
    ensures Good(CancelOne(s, id, env))
  {
    var p := PlaceOf(s.waiting, id);
    if p < |s.waiting| {
      QueueLeaveIsGood(s, p);
    } else if UnitOf(s.units, id, 0).Some? {
      var u := UnitOf(s.units, id, 0).value;
      if !JobOn(s.units[u], id).completed {
        if !JobOn(s.units[u], id).started {
          EvictIsGood(s, u, id);
        } else {
          FreeIsGood(s, u, id);
          var last := DispatchKeeps(Free(s, u, id), env);
        }
      }
    }
  }

  function CancelAll(s: Side, ids: seq<nat>, env: Environment): (r: Side)
    requires Good(s)
    ensures Good(r)
    decreases |ids|
  {
    if ids == [] then s
    else
      CancelOneIsGood(s, ids[0], env);
      CancelAll(CancelOne(s, ids[0], env), ids[1..], env)
  }

  /** A new request at the queue's end. */
  lemma EnqueuedIsGood(s: Side, occupancy: Ticks, carriesInput: bool, isStartable: bool)
    requires Good(s)
    ensures Good(Enqueued(s, occupancy, carriesInput, isStartable))
  {
    var r := Enqueued(s, occupancy, carriesInput, isStartable);
    DeviceKept(s, r, None);
    forall x: nat
      ensures Places(r, x) == if x < r.nextId then 1 else 0
    {
      var job := NewJob(s, occupancy, carriesInput, isStartable);
      CountAppend(s.waiting, [job], x);
      assert [job][1..] == [];
      assert Count([job], x) == if x == s.nextId then 1 else 0;
      assert Places(s, x) == if x < s.nextId then 1 else 0;
    }
  }

  function Enqueued(s: Side, occupancy: Ticks, carriesInput: bool, isStartable: bool): Side {
    s.(waiting := s.waiting + [NewJob(s, occupancy, carriesInput, isStartable)], nextId := s.nextId + 1)
  }

  lemma ReleasedIsGood(s: Side, jobs: set<nat>)
    requires Good(s)
    ensures Good(s.(waiting := Released(s.waiting, jobs, s.now)))
  {
    var r := s.(waiting := Released(s.waiting, jobs, s.now));
    DeviceKept(s, r, None);
    forall x: nat
      ensures Count(r.waiting, x) == Count(s.waiting, x)
    {
      CountSame(s.waiting, r.waiting, x);
    }
    AccountKept(s, r);
  }

  /** The decode's result is in; the unit frees now, or once the result is read. */
  function Completed(s: Side, u: nat, id: nat): Side
    requires OnUnit(s, u, id)
  {
    s.(units := s.units[u := WithJob(s.units[u], JobOn(s.units[u], id).(completed := true))])
  }

  lemma CompletedIsGood(s: Side, u: nat, id: nat)
    requires Good(s) && InService(s, u, id)
    ensures Good(Completed(s, u, id)) && InService(Completed(s, u, id), u, id)
  {
    var job := JobOn(s.units[u], id).(completed := true);
    ResidentChanged(s, u, job, s.units[u].expectedFree);
    assert WithJob(s.units[u], job) == WithJob(s.units[u], job).(expectedFree := s.units[u].expectedFree);
    AccountKept(s, Completed(s, u, id));
  }

  /** A change of device lists, of time or of nothing that keeps the slots and the queue. */
  lemma QuietIsGood(s: Side, r: Side)
    requires Good(s) && Inv(r) && SameSlots(s, r) && r.nextId == s.nextId && r.waiting == s.waiting
    ensures Good(r)
  {
    AccountKept(s, r);
  }

  // --------------------------------------------------------------- runs

  /** What the protocol around the manager promises of each step. */
  ghost predicate Enabled(s: Side, step: Step) {
    match step
    case Advance(tick) => tick >= s.now
    case InputAsked(u, id, _) => OnUnit(s, u, id) && !JobOn(s.units[u], id).isAsked
    case InputLanded(u, id) => OnUnit(s, u, id) && JobOn(s.units[u], id).isAsked && !JobOn(s.units[u], id).landed
    case DecodeEnded(u, id, _, _) => InService(s, u, id) && !JobOn(s.units[u], id).completed
    case ResultRead(u, id, _) => InService(s, u, id) && JobOn(s.units[u], id).completed
    case OtherTakes(name) =>
      s.device.Some? && Foreign(name) !in s.device.value.running && Foreign(name) !in s.device.value.waiting
    case OtherReturns(name) => s.device.Some? && Foreign(name) in s.device.value.running
    case _ => true
  }

  /** The state before the dispatch that ends a manager call, or after a callback. */
  function Changed(s: Side, step: Step): (r: Side)
    requires Good(s) && Enabled(s, step)
  {
    match step
    case Advance(tick) => s.(now := tick)
    case Enqueue(occupancy, carriesInput, isStartable, _) => Enqueued(s, occupancy, carriesInput, isStartable)
    case ReleaseWindow(jobs, _) => s.(waiting := Released(s.waiting, jobs, s.now))
    case Cancel(requests, env) => CancelAll(s, requests, env)
    case InputAsked(u, id, staging) => AskForInput(s, u, id, staging)
    case InputLanded(u, id) => Land(s, u, id)
    case DecodeEnded(u, id, freesUnit, _) =>
      CompletedIsGood(s, u, id);
      FreeIsGood(Completed(s, u, id), u, id);
      if freesUnit then Free(Completed(s, u, id), u, id) else Completed(s, u, id)
    case ResultRead(u, id, _) => FreeIsGood(s, u, id); Free(s, u, id)
    case Retry(_) => s
    case OtherTakes(name) => ForeignTake(s, name)
    case OtherReturns(name) => ForeignReturnKeeps(s, name); GiveBack(s, Foreign(name))
    case OtherWithdraws(name) => Withdraw(s, Foreign(name))
  }

  /** The manager calls end by running the dispatcher; the engine's callbacks do not. */
  function DispatcherOf(step: Step): Option<Environment> {
    match step
    case Enqueue(_, _, _, env) => Some(env)
    case ReleaseWindow(_, env) => Some(env)
    case Cancel(_, env) => Some(env)
    case DecodeEnded(_, _, _, env) => Some(env)
    case ResultRead(_, _, env) => Some(env)
    case Retry(env) => Some(env)
    case _ => None
  }

  function Apply(s: Side, step: Step): Side
    requires Good(s) && Enabled(s, step)
  {
    match DispatcherOf(step)
    case Some(env) => Dispatch(Changed(s, step), env)
    case None => Changed(s, step)
  }

  lemma ChangedIsGood(s: Side, step: Step)
    requires Good(s) && Enabled(s, step)
    ensures Good(Changed(s, step))
  {
    match step
    case Advance(tick) => DeviceKept(s, s.(now := tick), None); QuietIsGood(s, s.(now := tick));
    case Enqueue(occupancy, carriesInput, isStartable, _) => EnqueuedIsGood(s, occupancy, carriesInput, isStartable);
    case ReleaseWindow(jobs, _) => ReleasedIsGood(s, jobs);
    case Cancel(_, _) =>
    case InputAsked(u, id, staging) => AskKeeps(s, u, id, staging); QuietIsGood(s, AskForInput(s, u, id, staging));
    case InputLanded(u, id) => LandKeeps(s, u, id); QuietIsGood(s, Land(s, u, id));
    case DecodeEnded(u, id, _, _) => CompletedIsGood(s, u, id); FreeIsGood(Completed(s, u, id), u, id);
    case ResultRead(u, id, _) => FreeIsGood(s, u, id);
    case Retry(_) =>
    case OtherTakes(name) => ForeignTakeKeeps(s, name); QuietIsGood(s, ForeignTake(s, name));
    case OtherReturns(name) => ForeignReturnKeeps(s, name); QuietIsGood(s, GiveBack(s, Foreign(name)));
    case OtherWithdraws(name) => ForeignWithdrawKeeps(s, name); QuietIsGood(s, Withdraw(s, Foreign(name)));
  }

  /** No compute is free beside a waiting job that may start. */
  ghost predicate NoIdleCompute(s: Side) {
    s.free == [] || forall p | 0 <= p < |s.waiting| :: !s.waiting[p].isStartable
  }

  /** A unit of the free list has room for any job, so a settled queue leaves none idle. */
  lemma SettledLeavesNoneIdle(s: Side, env: Environment, k: nat)
    requires Good(s) && Settled(s, env, k)
    ensures NoIdleCompute(s)
  {
    if s.free != [] {
      assert s.free[0] in s.free && s.units[s.free[0]].residents == [];
      forall p | 0 <= p < |s.waiting|
        ensures !s.waiting[p].isStartable
      {
        OfferMeaning(s.units, s.free, s.waiting[p], s.now, env.ViewOf(k, s.waiting[p].id));
      }
    }
  }

  ghost predicate Boundary(s: Side) {
    Good(s) && NoIdleCompute(s)
  }

  /** A side before its first request. */
  function Initial(unitCount: nat, slotCount: Option<nat>, dispatchIsFree: bool): Side {
    Side(
      0, 0, [],
      seq(unitCount, (u: nat) => Unit([], None, Unbounded)),
      seq(unitCount, (u: nat) => u),
      if slotCount.Some? then Some(Device(slotCount.value, [], [])) else None,
      dispatchIsFree, [], [])
  }

  lemma InitialIsGood(unitCount: nat, slotCount: Option<nat>, dispatchIsFree: bool)
    ensures Boundary(Initial(unitCount, slotCount, dispatchIsFree))
  {
    var s := Initial(unitCount, slotCount, dispatchIsFree);
    forall u | 0 <= u < |s.units|
      ensures u in s.free
    {
      assert s.free[u] == u;
    }
    assert forall u | 0 <= u < |s.units| :: s.units[u].residents == [] && s.units[u].holder.None?;
    assert forall v, i :: !OnUnit(s, v, i);
    forall x: nat
      ensures Places(s, x) == 0
    {
      NothingOnUnits(s.units, x);
    }
  }

  lemma {:induction false} NothingOnUnits(units: seq<Unit>, x: nat)
    requires forall u | 0 <= u < |units| :: units[u].residents == []
    ensures CountOnUnits(units, x) == 0
  {
    if units != [] {
      NothingOnUnits(units[1..], x);
    }
  }

  /** One call or callback keeps the boundary. */
  lemma StepKeepsBoundary(s: Side, step: Step)
    requires Boundary(s) && Enabled(s, step)
    ensures Boundary(Apply(s, step))
  {
    ChangedIsGood(s, step);
    match DispatcherOf(step) {
      case Some(env) =>
        var last := DispatchKeeps(Changed(s, step), env);
        SettledLeavesNoneIdle(Apply(s, step), env, last);
      case None =>
    }
  }

  // ------------------------------------------------ what a release and a cancel do

  /** The waiting job is one of the queue's: a released one may start, its wait counted from
      now, any other is as it was. */
  ghost predicate WaitsOn(queue: seq<Job>, job: Job, jobs: set<nat>, now: int) {
    exists q | 0 <= q < |queue| ::
      queue[q].id == job.id &&
      job == if job.id in jobs then queue[q].(isStartable := true, readyTime := now) else queue[q]
  }

  ghost predicate OnSomeUnit(s: Side, id: nat) {
    exists u: nat :: OnUnit(s, u, id)
  }

  /** A window's release: no job but those that waited waits, the released ones may start, and
      none of them is left waiting beside a free unit. */
  ghost predicate Releases(s: Side, r: Side, jobs: set<nat>) {
    && (forall p | 0 <= p < |r.waiting| :: WaitsOn(s.waiting, r.waiting[p], jobs, s.now))
    && (r.free != [] ==> forall p | 0 <= p < |r.waiting| :: r.waiting[p].id !in jobs)
    && (r.free != [] ==> forall p | 0 <= p < |s.waiting| && s.waiting[p].id in jobs ::
          OnSomeUnit(r, s.waiting[p].id))
  }

  lemma {:induction false} ReleasedEach(queue: seq<Job>, jobs: set<nat>, now: int, p: nat)
    requires p < |queue|
    ensures |Released(queue, jobs, now)| == |queue|
    ensures WaitsOn(queue, Released(queue, jobs, now)[p], jobs, now)
  {
    if p == 0 {
      assert queue[0].id == Released(queue, jobs, now)[0].id;
    } else {
      ReleasedEach(queue[1..], jobs, now, p - 1);
      var job := Released(queue, jobs, now)[p];
      var q :| 0 <= q < |queue[1..]| && queue[1..][q].id == job.id &&
        job == if job.id in jobs then queue[1..][q].(isStartable := true, readyTime := now) else queue[1..][q];
      assert queue[q + 1] == queue[1..][q];
    }
  }

  ghost predicate QueueWithin(queue: seq<Job>, whole: seq<Job>) {
    forall job | job in queue :: job in whole
  }

  lemma RoundTakesFromQueue(s: Side, env: Environment, k: nat)
    ensures QueueWithin(RoundOf(s, env, k).side.waiting, s.waiting)
  {
    DrainKeeps(env.pick, k, s.waiting);
    var ordered := Drain(env.pick, k, s.waiting);
    forall job | job in ordered
      ensures job in s.waiting
    {
      assert job in multiset(ordered);
    }
  }

  /** The dispatch takes jobs from the queue and changes none that it leaves there. */
  lemma DispatchTakesFromQueue(s: Side, env: Environment)
    ensures QueueWithin(Dispatch(s, env).waiting, s.waiting)
  {
    var rule: Rounds := (t: Side, j: nat) => RoundOf(t, env, j);
    var kept := (t: Side) => QueueWithin(t.waiting, s.waiting);
    var reached := (t: Side, j: nat) => true;
    forall t: Side, j: nat | kept(t)
      ensures kept(rule(t, j).side)
    {
      RoundTakesFromQueue(t, env, j);
    }
    var last := LoopKeeps(s, rule, 0, kept, reached);
  }

  lemma {:induction false} CountedOnUnit(units: seq<Unit>, id: nat) returns (u: nat)
    requires CountOnUnits(units, id) > 0
    ensures u < |units| && Holds(units[u], id)
  {
    if Count(units[0].residents, id) > 0 {
      u := 0;
      CountedThere(units[0].residents, id);
    } else {
      u := CountedOnUnit(units[1..], id);
      u := u + 1;
    }
  }

  lemma {:induction false} CountedThere(jobs: seq<Job>, id: nat)
    ensures Count(jobs, id) > 0 <==> PlaceOf(jobs, id) < |jobs|
  {
    if jobs != [] {
      CountedThere(jobs[1..], id);
    }
  }

  /** A request that waited and neither waits nor has gone is on a unit. */
  lemma QueuedIsPlaced(s: Side, r: Side, p: nat)
    requires Accounted(s) && Accounted(r) && r.gone == s.gone && p < |s.waiting| && r.nextId == s.nextId
    requires forall q | 0 <= q < |r.waiting| :: r.waiting[q].id != s.waiting[p].id
    ensures OnSomeUnit(r, s.waiting[p].id)
  {
    var id := s.waiting[p].id;
    CountWithout(s.waiting, p, id);
    assert Places(s, id) <= 1;
    assert Places(r, id) == 1;
    CountedThere(r.waiting, id);
    var u := CountedOnUnit(r.units, id);
    assert OnUnit(r, u, id);
  }

  /** A window's release, from any boundary. */
  lemma ReleaseStarts(s: Side, jobs: set<nat>, env: Environment)
    requires Boundary(s)
    ensures Releases(s, Apply(s, ReleaseWindow(jobs, env)), jobs)
  {
    var step := ReleaseWindow(jobs, env);
    var released := Changed(s, step);
    var r := Apply(s, step);
    ReleasedIsGood(s, jobs);
    StepKeepsBoundary(s, step);
    var last := DispatchKeeps(released, env);
    DispatchTakesFromQueue(released, env);
    forall p | 0 <= p < |r.waiting|
      ensures WaitsOn(s.waiting, r.waiting[p], jobs, s.now)
    {
      assert r.waiting[p] in released.waiting;
      var q :| 0 <= q < |released.waiting| && released.waiting[q] == r.waiting[p];
      ReleasedEach(s.waiting, jobs, s.now, q);
    }
    if r.free != [] {
      forall p | 0 <= p < |s.waiting| && s.waiting[p].id in jobs
        ensures OnSomeUnit(r, s.waiting[p].id)
      {
        QueuedIsPlaced(s, r, p);
      }
    }
  }

  lemma HeldIsCounted(units: seq<Unit>, u: nat, id: nat)
    requires u < |units| && Holds(units[u], id)
    ensures CountOnUnits(units, id) > CountOnUnits(units[u := units[u].(residents := [])], id)
  {
    CountUnitReplaced(units, u, units[u].(residents := []), id);
    CountedThere(units[u].residents, id);
  }

  /** A request counted once is on one unit at most, and on none if it is queued or gone. */
  lemma HeldOnce(s: Side, u: nat, v: nat, id: nat)
    requires Accounted(s) && OnUnit(s, u, id)
    ensures Count(s.waiting, id) == 0 && CountGone(s.gone, id) == 0
    ensures OnUnit(s, v, id) ==> v == u
  {
    assert Places(s, id) <= 1;
    HeldIsCounted(s.units, u, id);
    if v != u && OnUnit(s, v, id) {
      HeldIsCounted(s.units[u := s.units[u].(residents := [])], v, id);
    }
  }

  lemma {:induction false} CountedGone(gone: seq<nat>, id: nat)
    ensures CountGone(gone, id) > 0 <==> id in gone
  {
    if gone != [] {
      CountedGone(gone[1..], id);
    }
  }

  lemma {:induction false} UnitOfNone(units: seq<Unit>, id: nat, from: nat)
    requires from <= |units| && UnitOf(units, id, from).None?
    ensures forall u | from <= u < |units| :: !Holds(units[u], id)
    decreases |units| - from
  {
    if from < |units| {
      UnitOfNone(units, id, from + 1);
    }
  }

  /** A cancel ends its request and no other, once and for good; a request that has ended, or
      whose result stands on its unit unread, is left as it is. */
  lemma CancelEnds(s: Side, id: nat, env: Environment)
    requires Good(s) && id < s.nextId
    ensures var r := CancelOne(s, id, env);
      if id in s.gone || UnreadResult(s, id) then r == s else r.gone == s.gone + [id]
  {
    assert Places(s, id) == 1;
    CountedThere(s.waiting, id);
    CountedGone(s.gone, id);
    var found := UnitOf(s.units, id, 0);
    if found.Some? {
      CancelOnUnitEnds(s, found.value, id, env);
    } else {
      UnitOfNone(s.units, id, 0);
      if CountOnUnits(s.units, id) > 0 {
        var u := CountedOnUnit(s.units, id);
      }
    }
  }

  lemma CancelOnUnitEnds(s: Side, u: nat, id: nat, env: Environment)
    requires Good(s) && UnitOf(s.units, id, 0) == Some(u)
    ensures var r := CancelOne(s, id, env);
      if id in s.gone || UnreadResult(s, id) then r == s else r.gone == s.gone + [id]
  {
    HeldOnce(s, u, u, id);
    CountedThere(s.waiting, id);
    CountedGone(s.gone, id);
    if UnreadResult(s, id) {
      var v: nat :| OnUnit(s, v, id) && JobOn(s.units[v], id).completed;
      HeldOnce(s, u, v, id);
    } else if JobOn(s.units[u], id).started {
      FreeIsGood(s, u, id);
      var last := DispatchKeeps(Free(s, u, id), env);
    }
  }

  ghost predicate UnreadResult(s: Side, id: nat) {
    exists u: nat :: OnUnit(s, u, id) && JobOn(s.units[u], id).completed
  }

  // ------------------------------------------- calls from inside the loop

  /** Calls that come while the loop runs, one after each of its first rounds: each finds the flag
      set, changes what it changes and returns. */
  ghost predicate MayNest(s: Side, env: Environment, k: nat, nested: seq<Step>)
    requires Good(s)
    decreases |nested|
  {
    RoundIsGood(s, env, k);
    var round := RoundOf(s, env, k);
    nested != [] ==>
      && s.waiting != [] && round.Placed? && Enabled(round.side, nested[0])
      && (ChangedIsGood(round.side, nested[0]); MayNest(Changed(round.side, nested[0]), env, k + 1, nested[1..]))
  }

  ghost function NestedDispatch(s: Side, env: Environment, k: nat, nested: seq<Step>): Side
    requires Good(s) && MayNest(s, env, k, nested)
    decreases |nested|
  {
    if nested == [] then Loop(s, (t: Side, j: nat) => RoundOf(t, env, j), k)
    else
      RoundIsGood(s, env, k);
      var next := RoundOf(s, env, k).side;
      ChangedIsGood(next, nested[0]);
      NestedDispatch(Changed(next, nested[0]), env, k + 1, nested[1..])
  }

  lemma LoopSettles(s: Side, env: Environment, k: nat) returns (last: nat)
    requires Good(s)
    ensures var end := Loop(s, (t: Side, j: nat) => RoundOf(t, env, j), k);
      Good(end) && Settled(end, env, last)
  {
    var rule: Rounds := (t: Side, j: nat) => RoundOf(t, env, j);
    var kept := (t: Side) => Good(t);
    var reached := (t: Side, j: nat) => Settled(t, env, j);
    forall t: Side, j: nat | kept(t)
      ensures kept(rule(t, j).side)
      ensures rule(t, j).NothingPlaced? ==> reached(rule(t, j).side, j)
    {
      RoundIsGood(t, env, j);
    }
    last := LoopKeeps(s, rule, k, kept, reached);
  }

  /** Whatever is admitted, released, cancelled or ended from inside the loop, the outer loop goes
      on with it: no waiting job that may start is left that would be offered a unit. */
  lemma {:induction false} NestedDispatchSettles(
    s: Side, env: Environment, k: nat, nested: seq<Step>) returns (last: nat)
    requires Good(s) && MayNest(s, env, k, nested)
    ensures var end := NestedDispatch(s, env, k, nested);
      Boundary(end) && Settled(end, env, last)
    decreases |nested|
  {
    if nested == [] {
      last := LoopSettles(s, env, k);
      SettledLeavesNoneIdle(NestedDispatch(s, env, k, nested), env, last);
    } else {
      RoundIsGood(s, env, k);
      var next := RoundOf(s, env, k).side;
      ChangedIsGood(next, nested[0]);
      last := NestedDispatchSettles(Changed(next, nested[0]), env, k + 1, nested[1..]);
    }
  }

  /** A run: each step enabled where it is taken. */
  ghost predicate IsRun(s: Side, steps: seq<Step>)
    requires Boundary(s)
    decreases |steps|
  {
    steps == [] ||
    (Enabled(s, steps[0]) && (StepKeepsBoundary(s, steps[0]); IsRun(Apply(s, steps[0]), steps[1..])))
  }

  ghost function After(s: Side, steps: seq<Step>): Side
    requires Boundary(s) && IsRun(s, steps)
    decreases |steps|
  {
    if steps == [] then s
    else
      StepKeepsBoundary(s, steps[0]);
      After(Apply(s, steps[0]), steps[1..])
  }

  lemma {:induction false} RunKeepsBoundary(s: Side, steps: seq<Step>)
    requires Boundary(s) && IsRun(s, steps)
    ensures Boundary(After(s, steps))
    decreases |steps|
  {
    if steps != [] {
      StepKeepsBoundary(s, steps[0]);
      RunKeepsBoundary(Apply(s, steps[0]), steps[1..]);
    }
  }

  /** A run from units with nothing on them and an empty queue. */
  ghost predicate IsRunFromStart(unitCount: nat, slotCount: Option<nat>, dispatchIsFree: bool, steps: seq<Step>) {
    var start := Initial(unitCount, slotCount, dispatchIsFree);
    Boundary(start) && IsRun(start, steps)
  }

  /** At every event boundary of every run from the start: slots, claims, free list, device and
      requests are in order, and no compute is idle beside a waiting job that may start. */
  lemma EveryRunKeepsBoundary(unitCount: nat, slotCount: Option<nat>, dispatchIsFree: bool, steps: seq<Step>)
    requires IsRunFromStart(unitCount, slotCount, dispatchIsFree, steps)
    ensures Boundary(After(Initial(unitCount, slotCount, dispatchIsFree), steps))
  {
    RunKeepsBoundary(Initial(unitCount, slotCount, dispatchIsFree), steps);
  }

  /** Every run the steps allow starts so. */
  lemma StartIsBoundary(unitCount: nat, slotCount: Option<nat>, dispatchIsFree: bool)
    ensures IsRunFromStart(unitCount, slotCount, dispatchIsFree, [])
  {
    InitialIsGood(unitCount, slotCount, dispatchIsFree);
  }
}
