/** The manager, its queue, its dispatcher and its service as the source runs them: fields
    updated in place, lists walked by loops. Each method is proved to leave the state the
    step of DecodeSteps or DecodeRuns gives, so what is proved of every run holds of it.
 */
module DecoderManagers {
  import opened Options
  import opened Lists
  import opened DecoderPools
  import opened DecodeSteps
  import opened DecodeInvariant
  import opened DecodeRuns
  import opened DecoderUnits

  function AllBut<T(==)>(list: seq<T>, x: T): seq<T> {
    if list == [] then []
    else if list[0] == x then AllBut(list[1..], x)
    else [list[0]] + AllBut(list[1..], x)
  }

  /** Of distinct entries, dropping every x drops the first. */
  lemma {:induction false} AllButIsWithout<T>(list: seq<T>, x: T)
    requires Distinct(list)
    ensures AllBut(list, x) == Without(list, x)
  {
    if list != [] {
      DistinctTail(list);
      AllButIsWithout(list[1..], x);
    }
  }

  function ReleasedJob(job: Job, jobs: set<nat>, now: int): Job {
    if job.id in jobs then job.(isStartable := true, readyTime := now) else job
  }

  lemma {:induction false} ReleasedAt(queue: seq<Job>, after: seq<Job>, jobs: set<nat>, now: int)
    requires |after| == |queue| && forall q | 0 <= q < |queue| :: after[q] == ReleasedJob(queue[q], jobs, now)
    ensures after == Released(queue, jobs, now)
  {
    if queue != [] {
      ReleasedAt(queue[1..], after[1..], jobs, now);
      assert after == [after[0]] + after[1..];
    }
  }

  /** One device shared by decodes of several pools. */
  class ExecutionSlots {
    const slotCount: nat
    var running: seq<Decode>
    var waiting: seq<Decode>

    constructor (slotCount: nat)
      ensures this.slotCount == slotCount && Value() == Device(slotCount, [], [])
    {
      this.slotCount := slotCount;
      running, waiting := [], [];
    }

    function Value(): Device
      reads this
    {
      Device(slotCount, running, waiting)
    }

    /** A slot now, or a place among those that wait. */
    method Take(decode: Decode) returns (starts: bool)
      modifies this
      ensures starts == (|old(running)| < slotCount)
      ensures Value() ==
        if starts then old(Value()).(running := old(running) + [decode])
        else old(Value()).(waiting := old(waiting) + [decode])
    {
      if |running| < slotCount {
        running := running + [decode];
        return true;
      }
      waiting := waiting + [decode];
      return false;
    }

    method Return(decode: Decode)
      modifies this`running
      ensures Value() == old(Value()).(running := Without(old(running), decode))
    {
      running := Without(running, decode);
    }

    method Withdraw(decode: Decode)
      requires Distinct(waiting)
      modifies this`waiting
      ensures Value() == old(Value()).(waiting := Without(old(waiting), decode))
    {
      var kept: seq<Decode> := [];
      var p := 0;
      while p < |waiting|
        invariant p <= |waiting| && waiting == old(waiting)
        invariant kept + AllBut(waiting[p..], decode) == AllBut(waiting, decode)
      {
        if waiting[p] != decode {
          kept := kept + [waiting[p]];
        }
        p := p + 1;
      }
      AllButIsWithout(waiting, decode);
      waiting := kept;
    }

    /** The oldest waiting decode takes a slot. */
    method GrantOldest() returns (decode: Decode)
      requires waiting != []
      modifies this
      ensures decode == old(waiting)[0]
      ensures Value() == Device(slotCount, old(running) + [decode], old(waiting)[1..])
    {
      decode := waiting[0];
      waiting := waiting[1..];
      running := running + [decode];
    }
  }

  predicate MayGrant(s: Side) {
    s.device.Some? && s.device.value.waiting != [] && |s.device.value.running| < s.device.value.slotCount
  }

  /** The oldest waiting decode takes a free slot and starts. */
  function GrantOne(s: Side): Side
    requires WaitingOnUnits(s) && MayGrant(s)
  {
    var d := s.device.value;
    var granted := s.(device := Some(d.(running := d.running + [d.waiting[0]], waiting := d.waiting[1..])));
    assert d.waiting[0] in d.waiting;
    match d.waiting[0]
    case Foreign(_) => granted
    case Own(u, id) => Start(granted, u, id)
  }

  lemma GrantsOne(s: Side)
    requires WaitingOnUnits(s) && MayGrant(s)
    ensures StartWaiting(GrantOne(s)) == StartWaiting(s) && WaitingOnUnits(GrantOne(s))
    ensures s.device.value.waiting[0].Own? ==> OnUnit(s, s.device.value.waiting[0].unit, s.device.value.waiting[0].job)
  {
    var d := s.device.value;
    assert d.waiting[0] in d.waiting;
    var granted := s.(device := Some(d.(running := d.running + [d.waiting[0]], waiting := d.waiting[1..])));
    assert forall x | x in d.waiting[1..] :: x in d.waiting;
    assert forall u, id :: OnUnit(granted, u, id) <==> OnUnit(s, u, id);
    if d.waiting[0].Own? {
      StartMovesNothing(granted, d.waiting[0].unit, d.waiting[0].job);
    }
  }

  /** A start moves no job. */
  lemma StartMovesNothing(s: Side, u: nat, id: nat)
    requires OnUnit(s, u, id)
    ensures forall v, i :: OnUnit(s, v, i) ==> OnUnit(Start(s, u, id), v, i)
    ensures Start(s, u, id).device == s.device
  {
    var r := Start(s, u, id);
    UnitReplaced(s, u, r.units[u]);
  }

  class DecoderManager {
    const pool: DecoderPool
    const device: ExecutionSlots?
    const dispatchIsFree: bool
    var now: int
    var nextId: nat
    var waiting: seq<Job>
    var startLog: seq<Started>
    var gone: seq<nat>
    var isDispatching: bool

    constructor (unitCount: nat, device: ExecutionSlots?, dispatchIsFree: bool)
      requires device == null || device.Value() == Device(device.slotCount, [], [])
      ensures Valid() && fresh(Repr() - {this.device})
      ensures this.device == device && !isDispatching
      ensures State() == Initial(unitCount, if device == null then None else Some(device.slotCount), dispatchIsFree)
    {
      pool := new DecoderPool(unitCount);
      this.device := device;
      this.dispatchIsFree := dispatchIsFree;
      now, nextId, waiting, startLog, gone, isDispatching := 0, 0, [], [], [], false;
    }

    ghost function Repr(): set<object?>
    {
      {this, device} + pool.Repr()
    }

    ghost predicate Valid()
    {
      pool.Valid()
    }

    /** The state the steps are functions of. */
    ghost function State(): Side
      reads Repr()
    {
      Side(
        now, nextId, waiting, pool.Values(), pool.free,
        if device == null then None else Some(device.Value()),
        dispatchIsFree, startLog, gone)
    }

    // ------------------------------------------------------ one decode

    method PredictComputeFree(u: nat, id: nat)
      requires Valid() && OnUnit(State(), u, id)
      modifies Repr()
      ensures Valid() && isDispatching == old(isDispatching)
      ensures State() == old(State()).(units :=
        old(State()).units[u := Predicted(old(State()).units[u], JobOn(old(State()).units[u], id), now)])
    {
      var job := pool.units[u].Resident(id);
      var start := now;
      if job.landingTicks.Some? && job.landingTicks.value > start {
        start := job.landingTicks.value;
      }
      pool.units[u].ExpectComputeFree(Finite(start).Plus(job.occupancy));
    }

    /** Start the decode on its unit. */
    method Run(u: nat, id: nat)
      requires Valid() && OnUnit(State(), u, id)
      modifies Repr()
      ensures Valid() && isDispatching == old(isDispatching)
      ensures State() == Start(old(State()), u, id)
    {
      var job := pool.units[u].Resident(id);
      pool.units[u].Update(job.(started := true));
      startLog := startLog + [Started(id, now)];
      PredictComputeFree(u, id);
    }

    /** The unit's memory holds the input: start, or wait for a slot of the shared device. */
    method Begin(u: nat, id: nat)
      requires Valid() && OnUnit(State(), u, id)
      modifies Repr()
      ensures Valid() && isDispatching == old(isDispatching)
      ensures State() == DecodeSteps.Begin(old(State()), u, id)
    {
      var job := pool.units[u].Resident(id);
      if job.cancelled {
        return;
      }
      if device != null {
        var starts := device.Take(Own(u, id));
        if !starts {
          return;
        }
      }
      Run(u, id);
    }

    method InputLanded(u: nat, id: nat)
      requires Valid() && OnUnit(State(), u, id)
      modifies Repr()
      ensures Valid() && isDispatching == old(isDispatching)
      ensures State() == Land(old(State()), u, id)
    {
      var job := pool.units[u].Resident(id);
      pool.units[u].Update(job.(landed := true, landingTicks := Some(now)));
      assert pool.Values() ==
        old(pool.Values())[u := WithJob(old(State()).units[u], job.(landed := true, landingTicks := Some(now)))];
      if pool.units[u].holder == Some(id) {
        Begin(u, id);
      }
    }

    /** The job's input may move: it lands at once, or at the tick the link expects. */
    method StageInput(u: nat, id: nat, staging: Staging)
      requires Valid() && OnUnit(State(), u, id)
      modifies Repr()
      ensures Valid() && isDispatching == old(isDispatching)
      ensures State() == Staged(old(State()), u, id, staging)
    {
      var job := pool.units[u].Resident(id);
      match staging {
        case AtOnce =>
          pool.units[u].Update(job.(isAsked := true));
          assert pool.Values() == old(pool.Values())[u := WithJob(old(State()).units[u], job.(isAsked := true))];
          InputLanded(u, id);
        case Expected(landing) =>
          pool.units[u].Update(job.(isAsked := true, landingTicks := landing));
          assert pool.Values() ==
            old(pool.Values())[u := WithJob(old(State()).units[u], job.(isAsked := true, landingTicks := landing))];
      }
    }

    method AskForInput(u: nat, id: nat, staging: Staging)
      requires Valid() && OnUnit(State(), u, id)
      modifies Repr()
      ensures Valid() && isDispatching == old(isDispatching)
      ensures State() == DecodeSteps.AskForInput(old(State()), u, id, staging)
    {
      var job := pool.units[u].Resident(id);
      StageInput(u, id, staging);
      if job.claimsAtDispatch {
        PredictComputeFree(u, id);
      }
    }

    /** A placed job becomes a resident, and the holder where the compute has none. */
    method AdmitTo(u: nat, job: Job, claims: bool)
      requires Valid() && u < |pool.units|
      modifies Repr()
      ensures Valid() && isDispatching == old(isDispatching)
      ensures State() == Admit(old(State()), u, job, claims)
    {
      pool.units[u].Admit(job.(claimsAtDispatch := claims));
      ghost var unit := pool.units[u].Value();
      if claims {
        pool.Claim(u, job.id);
      }
      assert pool.Values() == old(pool.Values())[u := if claims then unit.(holder := Some(job.id)) else unit];
    }

    /** A placed job becomes a resident and its transfer is under way. */
    method DispatchTo(u: nat, job: Job, claims: bool, staging: Staging)
      requires Valid() && u < |pool.units|
      modifies Repr()
      ensures Valid() && isDispatching == old(isDispatching)
      ensures State() == DecodeSteps.DispatchTo(old(State()), u, job, claims, staging)
    {
      AdmitTo(u, job, claims);
      if dispatchIsFree {
        AskForInput(u, job.id, staging);
      }
    }

    // ------------------------------------------------- compute passes on

    method ClaimCompute(u: nat, id: nat)
      requires Valid() && u < |pool.units|
      modifies Repr()
      ensures Valid() && isDispatching == old(isDispatching)
      ensures State() == old(State()).(units := old(State()).units[u := old(State()).units[u].(holder := Some(id))])
    {
      pool.units[u].ClaimCompute(id);
    }

    method OfferCompute(u: nat)
      requires Valid() && u < |pool.units|
      modifies Repr()
      ensures Valid() && isDispatching == old(isDispatching)
      ensures State() == DecodeSteps.OfferCompute(old(State()), u)
    {
      if pool.units[u].holder.Some? {
        return;
      }
      var ready := pool.units[u].OldestNotStarted(true);
      if ready.Some? {
        ClaimCompute(u, ready.value);
        Begin(u, ready.value);
        return;
      }
      var landing := pool.units[u].OldestNotStarted(false);
      if landing.Some? {
        ClaimCompute(u, landing.value);
        PredictComputeFree(u, landing.value);
        return;
      }
      ReleaseToPool(u);
    }

    method ReleaseToPool(u: nat)
      requires Valid()
      modifies Repr()
      ensures Valid() && isDispatching == old(isDispatching)
      ensures State() == old(State()).(free := old(State()).free + [u])
    {
      pool.Release(u);
      assert pool.Values() == old(pool.Values());
    }

    /** Waiting decodes start, oldest first, while a slot of the device is free. */
    method StartTheOldestWaiting()
      requires Valid() && WaitingOnUnits(State())
      modifies Repr()
      ensures Valid() && isDispatching == old(isDispatching)
      ensures State() == StartWaiting(old(State()))
    {
      if device == null {
        return;
      }
      while device.waiting != [] && |device.running| < device.slotCount
        invariant Valid() && isDispatching == old(isDispatching) && WaitingOnUnits(State())
        invariant StartWaiting(State()) == StartWaiting(old(State()))
        decreases |device.waiting|
      {
        StartTheOldest();
      }
    }

    method StartTheOldest()
      requires Valid() && WaitingOnUnits(State()) && MayGrant(State())
      modifies Repr()
      ensures Valid() && isDispatching == old(isDispatching)
      ensures State() == GrantOne(old(State())) && WaitingOnUnits(State())
      ensures StartWaiting(State()) == StartWaiting(old(State()))
      ensures device != null && |device.waiting| < old(|device.waiting|)
    {
      ghost var before := State();
      GrantsOne(before);
      var decode := device.GrantOldest();
      assert State() == before.(device := Some(device.Value()));
      if decode.Own? {
        Run(decode.unit, decode.job);
      }
    }

    /** The decode's slot of the device goes to the oldest waiting decode. */
    method GiveBackSlot(decode: Decode)
      requires Valid() && WaitingOnUnits(State())
      modifies Repr()
      ensures Valid() && isDispatching == old(isDispatching)
      ensures State() == GiveBack(old(State()), decode)
    {
      if device == null {
        return;
      }
      device.Return(decode);
      assert pool.Values() == old(pool.Values());
      StartTheOldestWaiting();
    }

    method LeaveSlot(u: nat, id: nat)
      requires Valid() && OnUnit(State(), u, id)
      modifies Repr()
      ensures Valid() && isDispatching == old(isDispatching)
      ensures State() == LeaveUnit(old(State()), u, id)
    {
      pool.units[u].Evict(id);
      if pool.units[u].holder == Some(id) {
        pool.units[u].ReleaseCompute();
      }
      gone := gone + [id];
    }

    /** Compute finished: the job's slots go back and its unit's compute passes on. */
    method Free(u: nat, id: nat)
      requires Valid() && OnUnit(State(), u, id) && WaitingOnUnits(LeaveUnit(State(), u, id))
      modifies Repr()
      ensures Valid() && isDispatching == old(isDispatching)
      ensures State() == DecodeSteps.Free(old(State()), u, id)
    {
      LeaveSlot(u, id);
      GiveBackSlot(Own(u, id));
      OfferCompute(u);
    }

    /** A resident that has not started is taken out; if it was the holder the claim moves on. */
    method Evict(u: nat, id: nat)
      requires Valid() && OnUnit(State(), u, id) && (device != null ==> Distinct(device.waiting))
      modifies Repr()
      ensures Valid() && isDispatching == old(isDispatching)
      ensures State() == DecodeSteps.Evict(old(State()), u, id)
    {
      if device != null {
        device.Withdraw(Own(u, id));
      }
      assert State() == Withdraw(old(State()), Own(u, id));
      var holds := pool.units[u].holder == Some(id);
      LeaveSlot(u, id);
      if holds {
        OfferCompute(u);
      }
    }

    // -------------------------------------------------------- dispatch

    /** All waiting jobs, popped one by one. */
    method DrainInSchedulerOrder(pick: Pick, k: nat) returns (ordered: seq<Job>)
      modifies this`waiting
      ensures ordered == Drain(pick, k, old(waiting)) && waiting == []
    {
      ordered := [];
      while waiting != []
        invariant ordered + Drain(pick, k, waiting) == Drain(pick, k, old(waiting))
        decreases |waiting|
      {
        var p := pick(k, waiting);
        ordered := ordered + [waiting[p]];
        waiting := waiting[..p] + waiting[p + 1..];
      }
    }

    /** The first job in scheduler order that may start and has a unit. */
    method FirstPlacement(ordered: seq<Job>, env: Environment, k: nat, ghost s: Side) returns (found: Selection)
      requires s.units == pool.Values() && s.free == pool.free && s.now == now
      requires forall f | f in pool.free :: f < |pool.units|
      ensures found == DecodeSteps.FirstPlacement(s, ordered, 0, env, k)
    {
      var index := 0;
      while index < |ordered|
        invariant index <= |ordered|
        invariant DecodeSteps.FirstPlacement(s, ordered, index, env, k) ==
          DecodeSteps.FirstPlacement(s, ordered, 0, env, k)
      {
        if ordered[index].isStartable {
          var offer := pool.Offer(ordered[index], now, env.ViewOf(k, ordered[index].id));
          if offer.Placement? {
            return Selected(index, offer.unit, offer.claimsCompute);
          }
        }
        index := index + 1;
      }
      return NoSelection;
    }

    /** One round of the loop: a queued job is placed, or the queue is put back as drained. */
    method DispatchOne(env: Environment, k: nat) returns (placed: bool)
      requires Valid() && Good(State())
      modifies Repr()
      ensures Valid() && isDispatching == old(isDispatching)
      ensures RoundOf(old(State()), env, k) == if placed then Placed(State()) else NothingPlaced(State())
    {
      ghost var s := State();
      var ordered := DrainInSchedulerOrder(env.pick, k);
      assert pool.Values() == s.units;
      var selection := FirstPlacement(ordered, env, k, s);
      if selection.NoSelection? {
        waiting := waiting + ordered;
        assert State() == s.(waiting := ordered);
        return false;
      }
      PlaceSelected(ordered, selection, env, s);
      return true;
    }

    /** The selected job leaves the drained queue for its unit; the rest go back. */
    method PlaceSelected(ordered: seq<Job>, selection: Selection, env: Environment, ghost s: Side)
      requires Valid() && waiting == [] && State() == s.(waiting := [])
      requires selection.Selected? && selection.index < |ordered| && selection.unit < |s.units|
      modifies Repr()
      ensures Valid() && isDispatching == old(isDispatching)
      ensures State() == Place(s, ordered, selection.index, selection.unit, selection.claims, env)
    {
      var job := ordered[selection.index];
      waiting := waiting + (ordered[..selection.index] + ordered[selection.index + 1..]);
      assert pool.Values() == s.units;
      assert State() == s.(waiting := ordered[..selection.index] + ordered[selection.index + 1..]);
      DispatchTo(selection.unit, job, selection.claims, env.staging(job.id));
    }

    method Dispatch(env: Environment)
      requires Valid() && Good(State())
      modifies Repr()
      ensures Valid() && isDispatching == old(isDispatching)
      ensures State() == DecodeSteps.Dispatch(old(State()), env)
    {
      ghost var rule: Rounds := (t: Side, j: nat) => RoundOf(t, env, j);
      var k: nat := 0;
      while waiting != []
        invariant Valid() && isDispatching == old(isDispatching) && Good(State())
        invariant Loop(State(), rule, k) == Loop(old(State()), rule, 0)
        decreases |waiting|
      {
        RoundIsGood(State(), env, k);
        var placed := DispatchOne(env, k);
        if !placed {
          return;
        }
        k := k + 1;
      }
    }

    /** The loop to its end, unless it is running already. */
    method RunDispatcher(env: Environment)
      requires Valid() && Good(State())
      modifies Repr()
      ensures Valid() && isDispatching == old(isDispatching)
      ensures State() == if isDispatching then old(State()) else DecodeSteps.Dispatch(old(State()), env)
    {
      if isDispatching {
        return;
      }
      isDispatching := true;
      assert State() == old(State()) by {
        assert pool.Values() == old(pool.Values());
      }
      Dispatch(env);
      ghost var end := State();
      isDispatching := false;
      assert State() == end by {
        assert pool.Values() == end.units;
      }
    }

    // ------------------------------------------------------ entry points

    /** An admission: inside the loop the job joins the queue and the loop goes on with it; outside
        it the loop is run. */
    method Enqueue(occupancy: Ticks, carriesInput: bool, isStartable: bool, env: Environment)
      requires Valid() && Good(State()) && (isDispatching || Boundary(State()))
      modifies Repr()
      ensures Valid() && Good(State()) && isDispatching == old(isDispatching)
      ensures isDispatching ==> State() == Enqueued(old(State()), occupancy, carriesInput, isStartable)
      ensures !isDispatching ==>
        Boundary(State()) && State() == Apply(old(State()), Step.Enqueue(occupancy, carriesInput, isStartable, env))
    {
      ghost var s := State();
      EnqueuedIsGood(s, occupancy, carriesInput, isStartable);
      if !isDispatching {
        StepKeepsBoundary(s, Step.Enqueue(occupancy, carriesInput, isStartable, env));
      }
      waiting := waiting + [NewJobNow(occupancy, carriesInput, isStartable)];
      nextId := nextId + 1;
      assert State() == Enqueued(s, occupancy, carriesInput, isStartable) by {
        assert pool.Values() == s.units;
      }
      RunDispatcher(env);
    }

    function NewJobNow(occupancy: Ticks, carriesInput: bool, isStartable: bool): Job
      reads this
    {
      Job(nextId, now, occupancy, carriesInput, isStartable, false, false, false, false, false, false, None)
    }

    /** The window's jobs in the queue become startable now. */
    method ReleaseWindow(jobs: set<nat>, env: Environment)
      requires Valid() && Boundary(State()) && !isDispatching
      modifies Repr()
      ensures Valid() && Boundary(State()) && !isDispatching
      ensures State() == Apply(old(State()), Step.ReleaseWindow(jobs, env))
      ensures Releases(old(State()), State(), jobs)
    {
      ReleaseStarts(State(), jobs, env);
      StepKeepsBoundary(State(), Step.ReleaseWindow(jobs, env));
      ReleasedIsGood(State(), jobs);
      StartWaits(jobs);
      assert pool.Values() == old(pool.Values());
      RunDispatcher(env);
    }

    /** Each of the window's queued jobs may start, and its wait begins now. */
    method StartWaits(jobs: set<nat>)
      modifies this`waiting
      ensures waiting == Released(old(waiting), jobs, now)
    {
      ghost var was := waiting;
      var p := 0;
      while p < |waiting|
        invariant p <= |waiting| == |was|
        invariant forall q | 0 <= q < |was| :: waiting[q] == if q < p then ReleasedJob(was[q], jobs, now) else was[q]
      {
        waiting := waiting[p := ReleasedJob(waiting[p], jobs, now)];
        p := p + 1;
      }
      ReleasedAt(was, waiting, jobs, now);
    }

    method FindUnit(id: nat) returns (found: Option<nat>)
      ensures found == UnitOf(pool.Values(), id, 0)
    {
      var u := 0;
      while u < |pool.units|
        invariant u <= |pool.units|
        invariant UnitOf(pool.Values(), id, u) == UnitOf(pool.Values(), id, 0)
      {
        var p := pool.units[u].Place(id);
        if p < |pool.units[u].residents| {
          return Some(u);
        }
        u := u + 1;
      }
      return None;
    }

    /** One request ends where it is: queued, in its slot, or running. */
    method CancelRequest(id: nat, env: Environment)
      requires Valid() && Good(State()) && !isDispatching
      modifies Repr()
      ensures Valid() && Good(State()) && !isDispatching
      ensures State() == CancelOne(old(State()), id, env)
    {
      CancelOneIsGood(State(), id, env);
      var p := 0;
      while p < |waiting| && waiting[p].id != id
        invariant p <= |waiting| && forall q | 0 <= q < p :: waiting[q].id != id
      {
        p := p + 1;
      }
      if p < |waiting| {
        LeaveQueue(p);
        return;
      }
      var unit := FindUnit(id);
      if unit.None? {
        return;
      }
      var u := unit.value;
      var job := pool.units[u].Resident(id);
      if job.completed {
        return;
      }
      if !job.started {
        Evict(u, id);
        return;
      }
      FreeIsGood(State(), u, id);
      Free(u, id);
      RunDispatcher(env);
    }

    method LeaveQueue(p: nat)
      requires Valid() && p < |waiting|
      modifies Repr()
      ensures Valid() && isDispatching == old(isDispatching)
      ensures State() ==
        old(State()).(waiting := old(waiting)[..p] + old(waiting)[p + 1..], gone := old(gone) + [old(waiting)[p].id])
    {
      gone := gone + [waiting[p].id];
      waiting := waiting[..p] + waiting[p + 1..];
      assert pool.Values() == old(pool.Values());
    }

    method CancelRequests(requests: seq<nat>, env: Environment)
      requires Valid() && Boundary(State()) && !isDispatching
      modifies Repr()
      ensures Valid() && Boundary(State()) && !isDispatching
      ensures State() == Apply(old(State()), Step.Cancel(requests, env))
    {
      StepKeepsBoundary(State(), Step.Cancel(requests, env));
      var p := 0;
      while p < |requests|
        invariant p <= |requests|
        invariant Valid() && Good(State()) && !isDispatching
        invariant CancelAll(State(), requests[p..], env) == CancelAll(old(State()), requests, env)
      {
        CancelRequest(requests[p], env);
        p := p + 1;
      }
      RunDispatcher(env);
    }

    /** One decode finished: its unit frees now unless its result has yet to be read. */
    method DecodeCompleted(u: nat, id: nat, freesUnit: bool, env: Environment)
      requires Valid() && Boundary(State()) && !isDispatching
      requires Enabled(State(), DecodeEnded(u, id, freesUnit, env))
      modifies Repr()
      ensures Valid() && Boundary(State()) && !isDispatching
      ensures State() == Apply(old(State()), DecodeEnded(u, id, freesUnit, env))
    {
      StepKeepsBoundary(State(), DecodeEnded(u, id, freesUnit, env));
      CompletedIsGood(State(), u, id);
      MarkCompleted(u, id);
      FreeIsGood(State(), u, id);
      if freesUnit {
        Free(u, id);
      }
      RunDispatcher(env);
    }

    method MarkCompleted(u: nat, id: nat)
      requires Valid() && OnUnit(State(), u, id)
      modifies Repr()
      ensures Valid() && isDispatching == old(isDispatching)
      ensures State() == Completed(old(State()), u, id)
    {
      var job := pool.units[u].Resident(id);
      pool.units[u].Update(job.(completed := true));
    }

    /** The window side has the result: a unit held for it is free now. */
    method ReadResult(u: nat, id: nat, env: Environment)
      requires Valid() && Boundary(State()) && !isDispatching
      requires Enabled(State(), ResultRead(u, id, env))
      modifies Repr()
      ensures Valid() && Boundary(State()) && !isDispatching
      ensures State() == Apply(old(State()), ResultRead(u, id, env))
    {
      StepKeepsBoundary(State(), ResultRead(u, id, env));
      FreeIsGood(State(), u, id);
      Free(u, id);
      RunDispatcher(env);
    }
  }
}
