/** Staged least-work-left dispatch against the central queue, over whole runs. */
module CentralFifo {
  import opened Options
  import opened DecoderPools
  import opened DecodeSteps
  import opened DecodeInvariant
  import opened DecodeRuns
  import opened CentralQueue
  import opened CalmRuns
  import opened PlannedDispatch

  // -------------------------------------------------------------- time passes

  /** With no device shared, a landed holder has started. */
  lemma HolderStarted(s: Side, w: Workload, plan: Layout, u: nat)
    requires Good(s) && Follows(s, w, plan) && u < |s.units| && s.units[u].residents != []
    requires s.units[u].residents[0].landed
    ensures s.units[u].residents[0].started
    ensures InService(s, u, s.units[u].residents[0].id)
    ensures JobOn(s.units[u], s.units[u].residents[0].id) == s.units[u].residents[0]
  {
    assert UnitFollows(s.units[u], u, s.now, w, plan);
    var job := s.units[u].residents[0];
    assert JobOn(s.units[u], job.id) == job;
    assert !AwaitsSlot(s, u, job.id);
  }

  /** The declared end of a decode in service is its planned one. */
  lemma EndIsPlanned(s: Side, w: Workload, plan: Layout, u: nat, id: nat, end: int)
    requires Follows(s, w, plan) && InService(s, u, id) && EndsAt(s, u, id, end)
    ensures id < |plan.starts| && end == Finish(w, plan, id)
  {
    assert UnitFollows(s.units[u], u, s.now, w, plan);
    var p := PlaceOf(s.units[u].residents, id);
    assert SlotFollows(s.units[u].residents[p], u, s.now, w, plan);
  }

  lemma UnitFollowsLater(s: Side, w: Workload, plan: Layout, tick: int, u: nat)
    requires Good(s) && Follows(s, w, plan) && tick >= s.now && MayPass(s, tick) && u < |s.units|
    ensures UnitFollows(s.units[u], u, tick, w, plan)
  {
    var unit := s.units[u];
    assert UnitFollows(unit, u, s.now, w, plan);
    if unit.residents != [] {
      var job := unit.residents[0];
      assert OnUnit(s, u, job.id) && JobOn(unit, job.id) == job;
      HolderStarted(s, w, plan, u);
      var end :| end >= tick && EndsAt(s, u, job.id, end);
      EndIsPlanned(s, w, plan, u, job.id, end);
      assert forall p | 0 <= p < |unit.residents| :: SlotFollows(unit.residents[p], u, s.now, w, plan);
      assert forall p | 0 <= p < |unit.residents| :: SlotFollows(unit.residents[p], u, tick, w, plan);
    }
  }

  lemma AdvanceFollows(s: Side, w: Workload, plan: Layout, tick: int)
    requires Good(s) && Follows(s, w, plan) && tick >= s.now && MayPass(s, tick)
    ensures Follows(s.(now := tick), w, plan)
  {
    var r := s.(now := tick);
    forall u | 0 <= u < |s.units|
      ensures UnitFollows(r.units[u], u, tick, w, plan)
    {
      UnitFollowsLater(s, w, plan, tick, u);
    }
    LaidLater(w, plan, s.now, tick);
    SamePending(s, r, plan);
  }

  lemma SamePending(s: Side, r: Side, plan: Layout)
    requires |plan.starts| == |plan.serverOf| && LogFollows(s, plan)
    requires r.units == s.units && r.startLog == s.startLog
    ensures LogFollows(r, plan)
  {
    assert forall j | 0 <= j < |plan.starts| :: Pending(r, plan, j) <==> Pending(s, plan, j);
  }

  // ------------------------------------------------------------- a job arrives

  /** One more job changes nothing for those before it. */
  lemma MoreWork(servers: nat, w: Workload, plan: Layout, now: int, arrival: int, cost: int)
    requires IsCentral(servers, w, plan.starts) && Laid(w, plan, now) && cost > 0 && arrival >= 0
    requires forall k | 0 <= k < |w.arrivals| :: w.arrivals[k] <= arrival
    ensures var more := Then(w, Workload([arrival], [cost]));
      IsCentral(servers, more, plan.starts) && Laid(more, plan, now)
  {
    var more := Then(w, Workload([arrival], [cost]));
    forall k | 0 <= k < |plan.starts|
      ensures StartsCentrally(servers, more, plan.starts, k)
    {
      assert StartsCentrally(servers, w, plan.starts, k);
      assert forall tick :: Unfinished(more, plan.starts, k, tick) == Unfinished(w, plan.starts, k, tick);
    }
    assert IsLayout(more, plan);
    forall j | 0 <= j < |plan.starts|
      ensures EndsInTime(more, plan, j)
    {
      assert EndsInTime(w, plan, j);
    }
    forall j, k | 0 <= j < k < |plan.starts|
      ensures InTurn(more, plan, j, k)
    {
      assert InTurn(w, plan, j, k);
    }
    forall v | 0 <= v < |plan.free| && plan.free[v] > now
      ensures HasServed(more, plan, v)
    {
      assert HasServed(w, plan, v);
      var j :| ServesLast(w, plan, v, j);
      assert ServesLast(more, plan, v, j);
    }
  }

  lemma UnitFollowsMore(unit: Unit, u: nat, now: int, w: Workload, plan: Layout, more: Workload)
    requires IsLayout(w, plan) && u < |plan.free| && UnitFollows(unit, u, now, w, plan)
    requires |w.costs| <= |more.costs| && w.costs == more.costs[..|w.costs|]
    ensures UnitFollows(unit, u, now, more, plan)
  {
    assert forall p | 0 <= p < |unit.residents| :: SlotFollows(unit.residents[p], u, now, w, plan);
    assert forall p | 0 <= p < |unit.residents| :: SlotFollows(unit.residents[p], u, now, more, plan);
  }

  lemma EnqueueFollows(s: Side, w: Workload, plan: Layout, cost: int)
    requires Follows(s, w, plan) && Saturated(s, plan) && cost > 0
    ensures var r := Enqueued(s, Finite(cost), true, true);
      Follows(r, Then(w, Workload([s.now], [cost])), plan) && OnlyNewWait(r)
  {
    var r := Enqueued(s, Finite(cost), true, true);
    var more := Then(w, Workload([s.now], [cost]));
    MoreWork(|s.units|, w, plan, s.now, s.now, cost);
    forall u | 0 <= u < |s.units|
      ensures UnitFollows(r.units[u], u, s.now, more, plan)
    {
      assert UnitFollows(s.units[u], u, s.now, w, plan);
      UnitFollowsMore(s.units[u], u, s.now, w, plan, more);
    }
    forall p | 0 <= p < |r.waiting|
      ensures r.waiting[p] == QueuedJob(more, |plan.starts| + p)
    {
      assert p < |s.waiting| ==> r.waiting[p] == s.waiting[p] == QueuedJob(w, |plan.starts| + p);
    }
    SamePending(s, r, plan);
  }

  // ------------------------------------------------------------ an input lands

  /** What a change of one unit does to its pending jobs. */
  ghost predicate Starts(s: Side, plan: Layout, r: Side, u: nat, unit: Unit, started: Option<nat>)
    requires |plan.starts| == |plan.serverOf|
  {
    && u < |s.units| && r.units == s.units[u := unit] && r.now == s.now
    && r.startLog == (if started.Some? then s.startLog + [Started(started.value, s.now)] else s.startLog)
    && (started.Some? ==>
          PendingOn(s.units[u], started.value) && StartsNow(plan, started.value, s.now)
          && plan.serverOf[started.value] == u)
    && (forall id: nat | id < |plan.starts| && plan.serverOf[id] == u ::
          PendingOn(unit, id) <==> PendingOn(s.units[u], id) && started != Some(id))
  }

  lemma LogChanged(s: Side, plan: Layout, r: Side, u: nat, unit: Unit, started: Option<nat>)
    requires |plan.starts| == |plan.serverOf| && LogFollows(s, plan) && Starts(s, plan, r, u, unit, started)
    ensures LogFollows(r, plan)
  {
    forall j | 0 <= j < |plan.starts|
      ensures Pending(r, plan, j) <==> Pending(s, plan, j) && started != Some(j)
    {
    }
    LogGrows(s, plan, r, plan, started);
  }

  /** A change of one unit that starts at most one of its jobs, as planned. */
  lemma UnitChanged(s: Side, w: Workload, plan: Layout, r: Side, u: nat, unit: Unit, started: Option<nat>)
    requires Follows(s, w, plan) && Starts(s, plan, r, u, unit, started) && UnitFollows(unit, u, s.now, w, plan)
    requires r.nextId == s.nextId && r.waiting == s.waiting && r.device.None? && r.dispatchIsFree
    ensures Follows(r, w, plan)
  {
    forall v | 0 <= v < |r.units|
      ensures UnitFollows(r.units[v], v, s.now, w, plan)
    {
      assert UnitFollows(s.units[v], v, s.now, w, plan);
    }
    LogChanged(s, plan, r, u, unit, started);
    assert QueueFollows(r, w, plan);
  }

  lemma LandFollows(s: Side, w: Workload, plan: Layout, u: nat, id: nat)
    requires Good(s) && Follows(s, w, plan) && OnUnit(s, u, id)
    requires JobOn(s.units[u], id).isAsked && !JobOn(s.units[u], id).landed
    ensures Follows(Land(s, u, id), w, plan) && Land(s, u, id).free == s.free
    ensures forall v | 0 <= v < |s.units| :: |Land(s, u, id).units[v].residents| == |s.units[v].residents|
  {
    var unit := s.units[u];
    var p := PlaceOf(unit.residents, id);
    var landed := JobOn(unit, id).(landed := true, landingTicks := Some(s.now));
    var waits := WithJob(unit, landed);
    var r := Land(s, u, id);
    assert UnitFollows(unit, u, s.now, w, plan);
    assert SlotFollows(unit.residents[p], u, s.now, w, plan);
    assert UnitOk(unit) && ResidentOk(unit.residents[p], unit.holder);
    if unit.holder == Some(id) {
      var begins := WithJob(waits, landed.(started := true)).(expectedFree := Finite(s.now).Plus(landed.occupancy));
      ReplacedTwice(s.units, u, waits, begins);
      LandedUnitFollows(unit, u, s.now, w, plan, id, begins);
      assert Starts(s, plan, r, u, begins, Some(id));
      UnitChanged(s, w, plan, r, u, begins, Some(id));
    } else {
      LandedUnitFollows(unit, u, s.now, w, plan, id, waits);
      assert Starts(s, plan, r, u, waits, None);
      UnitChanged(s, w, plan, r, u, waits, None);
    }
  }

  /** The unit whose job landed: the holder starts, the staged one waits. */
  lemma LandedUnitFollows(unit: Unit, u: nat, now: int, w: Workload, plan: Layout, id: nat, after: Unit)
    requires IsLayout(w, plan) && u < |plan.free| && UnitFollows(unit, u, now, w, plan) && Holds(unit, id)
    requires !JobOn(unit, id).started
    requires var landed := JobOn(unit, id).(landed := true, landingTicks := Some(now));
      after ==
        if unit.holder == Some(id) then
          WithJob(WithJob(unit, landed), landed.(started := true)).(expectedFree := Finite(now).Plus(landed.occupancy))
        else WithJob(unit, landed)
    ensures UnitFollows(after, u, now, w, plan)
    ensures unit.holder == Some(id) ==> StartsNow(plan, id, now) && plan.serverOf[id] == u
    ensures forall i: nat :: PendingOn(after, i) <==> PendingOn(unit, i) && (i != id || unit.holder != Some(id))
  {
    var p := PlaceOf(unit.residents, id);
    assert forall q | 0 <= q < |unit.residents| :: SlotFollows(unit.residents[q], u, now, w, plan);
    assert forall q | 0 <= q < |unit.residents| && q != p :: after.residents[q] == unit.residents[q];
    assert after.residents[p].id == id;
    assert SlotFollows(after.residents[p], u, now, w, plan);
  }

  // ------------------------------------------------------------- a decode ends

  /** The unit whose holder ended: the staged job takes the compute, and starts if it landed. */
  function HandedOn(unit: Unit, now: int): Unit
    requires unit.residents != []
  {
    if |unit.residents| == 1 then Unit([], None, Unbounded)
    else
      var next := unit.residents[1];
      var start := if next.landingTicks.Some? && next.landingTicks.value > now then next.landingTicks.value else now;
      Unit([next.(started := next.landed)], Some(next.id), Finite(start).Plus(next.occupancy))
  }

  function StartedNext(unit: Unit): Option<nat> {
    if |unit.residents| >= 2 && unit.residents[1].landed then Some(unit.residents[1].id) else None
  }

  /** The free compute of a unit with one staged job goes to it. */
  lemma OfferedToStaged(s: Side, u: nat, next: Job, expected: Ticks)
    requires u < |s.units| && s.units[u] == Unit([next], None, expected) && s.device.None? && !next.IsPastStart()
    ensures OfferCompute(s, u) ==
      s.(
        units := s.units[u :=
          Unit([next.(started := next.landed)], Some(next.id), Predicted(s.units[u], next, s.now).expectedFree)],
        startLog := if next.landed then s.startLog + [Started(next.id, s.now)] else s.startLog)
  {
    var r := OfferCompute(s, u);
    assert [next][1..] == [];
    assert OldestResident([next], next.landed) == Some(next.id);
    assert OldestResident([next], !next.landed) == None;
    var claimed := s.units[u].(holder := Some(next.id));
    assert JobOn(claimed, next.id) == next;
    ReplacedTwice(s.units, u, claimed, r.units[u]);
    if next.landed {
      assert WithJob(claimed, next.(started := true)).residents == [next.(started := true)];
    } else {
      assert next.(started := false) == next;
    }
  }

  /** The unit without its holder. */
  lemma HolderLeft(unit: Unit, job: Job)
    requires unit.residents != [] && unit.residents[0].id == job.id && unit.holder == Some(job.id)
    ensures Holds(unit, job.id) && Left(WithJob(unit, job), job.id) == Unit(unit.residents[1..], None, Unbounded)
  {
    assert PlaceOf(unit.residents, job.id) == 0;
    assert WithJob(unit, job).residents[1..] == unit.residents[1..];
  }

  lemma EndEffect(s: Side, w: Workload, plan: Layout, u: nat, id: nat)
    requires Good(s) && Follows(s, w, plan) && InService(s, u, id)
    ensures var completed := Completed(s, u, id);
      && WaitingOnUnits(LeaveUnit(completed, u, id)) && OnUnit(completed, u, id)
      && |s.units[u].residents| >= 1 && s.units[u].residents[0].id == id
      && var r := Free(completed, u, id);
      && r.units == s.units[u := HandedOn(s.units[u], s.now)]
      && r.free == (if |s.units[u].residents| == 1 then s.free + [u] else s.free)
      && r.startLog == (if StartedNext(s.units[u]).Some?
        then s.startLog + [Started(StartedNext(s.units[u]).value, s.now)] else s.startLog)
      && r.device.None?
  {
    var unit := s.units[u];
    assert UnitFollows(unit, u, s.now, w, plan) && UnitOk(unit);
    var completed := Completed(s, u, id);
    var left := LeaveUnit(completed, u, id);
    HolderLeft(unit, JobOn(unit, id).(completed := true));
    var bare := Unit(unit.residents[1..], None, Unbounded);
    ReplacedTwice(s.units, u, completed.units[u], bare);
    assert left.units == s.units[u := bare];
    assert GiveBack(left, Own(u, id)) == left;
    ReplacedTwice(s.units, u, bare, HandedOn(unit, s.now));
    if |unit.residents| == 2 {
      assert SlotFollows(unit.residents[1], u, s.now, w, plan);
      assert unit.residents[1..] == [unit.residents[1]];
      OfferedToStaged(left, u, unit.residents[1], Unbounded);
    } else {
      assert unit.residents[1..] == [];
    }
  }

  lemma EndFollows(s: Side, w: Workload, plan: Layout, u: nat, id: nat)
    requires Good(s) && Follows(s, w, plan) && Saturated(s, plan) && InService(s, u, id) && EndsAt(s, u, id, s.now)
    ensures OnUnit(Completed(s, u, id), u, id) && WaitingOnUnits(LeaveUnit(Completed(s, u, id), u, id))
    ensures var r := Free(Completed(s, u, id), u, id);
      Follows(r, w, plan) && OnlyNewWait(r)
  {
    var unit := s.units[u];
    var r := Free(Completed(s, u, id), u, id);
    EndEffect(s, w, plan, u, id);
    EndIsPlanned(s, w, plan, u, id, s.now);
    HandedOnFollows(unit, u, s.now, w, plan);
    assert Starts(s, plan, r, u, HandedOn(unit, s.now), StartedNext(unit));
    UnitChanged(s, w, plan, r, u, HandedOn(unit, s.now), StartedNext(unit));
    if s.waiting != [] && |unit.residents| == 1 {
      NoneFree(s, w, plan);
      assert IsLeast(plan.free, u);
    }
  }

  lemma HandedOnFollows(unit: Unit, u: nat, now: int, w: Workload, plan: Layout)
    requires IsLayout(w, plan) && u < |plan.free| && UnitFollows(unit, u, now, w, plan)
    requires IsWorkload(w) && unit.residents != [] && unit.residents[0].started
    requires Finish(w, plan, unit.residents[0].id) == now
    ensures UnitFollows(HandedOn(unit, now), u, now, w, plan)
    ensures StartedNext(unit).Some? ==>
      PendingOn(unit, StartedNext(unit).value) && StartsNow(plan, StartedNext(unit).value, now)
      && plan.serverOf[StartedNext(unit).value] == u
    ensures forall i: nat :: PendingOn(HandedOn(unit, now), i) <==> PendingOn(unit, i) && StartedNext(unit) != Some(i)
  {
    assert forall p | 0 <= p < |unit.residents| :: SlotFollows(unit.residents[p], u, now, w, plan);
    var after := HandedOn(unit, now);
    assert PlaceOf(unit.residents, unit.residents[0].id) == 0;
    if |unit.residents| == 2 {
      var next := unit.residents[1];
      assert after.residents == [next.(started := next.landed)];
      assert SlotFollows(after.residents[0], u, now, w, plan);
      assert PlaceOf(unit.residents, next.id) == 1;
      assert PlaceOf(after.residents, next.id) == 0;
      forall i: nat | PendingOn(unit, i) ensures i == next.id {
        assert JobOn(unit, i) in unit.residents;
      }
      forall i: nat | PendingOn(after, i) ensures i == next.id {
        assert JobOn(after, i) in after.residents;
      }
    } else {
      assert forall i: nat :: PlaceOf(unit.residents, i) <= 1;
    }
  }

  // ------------------------------------------------------------- whole runs

  /** One step of a calm run stays on a plan; an arrival adds its job to the load. */
  lemma StepFollows(s: Side, step: Step, w: Workload, plan: Layout) returns (next: Layout)
    requires Boundary(s) && Calm(s, step) && Follows(s, w, plan) && Saturated(s, plan)
    ensures var r := Apply(s, step);
      && |next.free| == |r.units| && Saturated(r, next)
      && Follows(r, Then(w, Load(s.now, [step])), next)
      && r.now == (if step.Advance? then step.tick else s.now) && |r.units| == |s.units|
  {
    var r := Changed(s, step);
    ChangedIsGood(s, step);
    assert [step][1..] == [];
    assert Load(r.now, []) == Workload([], []);
    assert Then(w, Workload([], [])) == w;
    match step {
      case Advance(tick) =>
        AdvanceFollows(s, w, plan, tick);
        next := plan;
      case InputLanded(u, id) =>
        LandFollows(s, w, plan, u, id);
        next := plan;
      case Enqueue(occupancy, _, _, env) =>
        EnqueueFollows(s, w, plan, occupancy.ticks);
        assert Load(s.now, [step]) == Workload([s.now], [occupancy.ticks]);
        next := DispatchFollows(r, Then(w, Load(s.now, [step])), plan, env);
        var last := DispatchKeeps(r, env);
      case DecodeEnded(u, id, _, env) =>
        EndFollows(s, w, plan, u, id);
        next := DispatchFollows(r, w, plan, env);
        var last := DispatchKeeps(r, env);
      case Retry(env) =>
        next := DispatchFollows(s, w, plan, env);
        var last := DispatchKeeps(r, env);
      case _ =>
    }
  }

  lemma {:induction false} CalmRunIsRun(s: Side, steps: seq<Step>)
    requires Boundary(s) && IsCalmRun(s, steps)
    ensures IsRun(s, steps)
    decreases |steps|
  {
    if steps != [] {
      StepKeepsBoundary(s, steps[0]);
      CalmRunIsRun(Apply(s, steps[0]), steps[1..]);
    }
  }

  /** The load of a run is its first step's, then the rest's. */
  lemma LoadSplits(w: Workload, now: int, later: int, steps: seq<Step>)
    requires steps != [] && later == if steps[0].Advance? then steps[0].tick else now
    ensures Then(w, Load(now, steps)) == Then(Then(w, Load(now, [steps[0]])), Load(later, steps[1..]))
  {
    assert [steps[0]][1..] == [];
    assert Load(now, steps) == Then(Load(now, [steps[0]]), Load(later, steps[1..]));
  }

  /** The side is on some plan whose starts are the central queue's. */
  ghost predicate OnPlan(s: Side, w: Workload, unitCount: nat) {
    |s.units| == unitCount &&
    exists plan: Layout | |plan.free| == |s.units| :: Follows(s, w, plan) && Saturated(s, plan)
  }

  lemma StepStaysOnPlan(s: Side, step: Step, w: Workload, unitCount: nat)
    requires Boundary(s) && Calm(s, step) && OnPlan(s, w, unitCount)
    ensures OnPlan(Apply(s, step), Then(w, Load(s.now, [step])), unitCount)
    ensures Apply(s, step).now == if step.Advance? then step.tick else s.now
  {
    var plan: Layout :| |plan.free| == |s.units| && Follows(s, w, plan) && Saturated(s, plan);
    var next := StepFollows(s, step, w, plan);
  }

  lemma {:induction false} CalmRunStaysOnPlan(s: Side, steps: seq<Step>, w: Workload, unitCount: nat)
    requires Boundary(s) && IsCalmRun(s, steps) && OnPlan(s, w, unitCount)
    ensures IsRun(s, steps) && OnPlan(After(s, steps), Then(w, Load(s.now, steps)), unitCount)
    decreases |steps|
  {
    CalmRunIsRun(s, steps);
    if steps == [] {
      assert Then(w, Load(s.now, steps)) == w;
    } else {
      StepStaysOnPlan(s, steps[0], w, unitCount);
      StepKeepsBoundary(s, steps[0]);
      var r := Apply(s, steps[0]);
      CalmRunStaysOnPlan(r, steps[1..], Then(w, Load(s.now, [steps[0]])), unitCount);
      LoadSplits(w, s.now, r.now, steps);
    }
  }

  lemma InitialFollows(unitCount: nat)
    ensures var s := Initial(unitCount, None, true);
      var plan := Layout([], [], seq(unitCount, _ => 0));
      Follows(s, Workload([], []), plan) && Saturated(s, plan)
  {
    var s := Initial(unitCount, None, true);
    var w := Workload([], []);
    assert forall u | 0 <= u < unitCount :: UnitFollows(s.units[u], u, 0, w, Layout([], [], seq(unitCount, _ => 0)));
  }

  /** While jobs wait no central start of theirs has passed. */
  lemma WaitersWaitCentrally(s: Side, w: Workload, plan: Layout, k: nat)
    requires Good(s) && Follows(s, w, plan) && Saturated(s, plan) && |s.units| > 0
    requires |plan.starts| <= k < |w.costs|
    ensures StartOf(|s.units|, w, k) >= s.now
  {
    var servers := |s.units|;
    var tick := StartOf(servers, w, k);
    var starts := Served(servers, w, k + 1).starts;
    ServedIsCentral(servers, w, k + 1);
    assert StartsCentrally(servers, w, starts, k);
    CentralIsUnique(servers, w, plan.starts, starts, |plan.starts|);
    assert plan.starts == plan.starts[..|plan.starts|];
    if tick < s.now {
      NoneFree(s, w, plan);
      AllServersBusy(w, plan, k, starts, tick);
    }
  }

  /** Each start reported is of a job of the load, once, at the central queue's tick; every job
      whose central start has passed is reported. */
  ghost predicate StartsAsCentralQueue(s: Side, servers: nat, w: Workload)
    requires servers > 0 && |w.arrivals| == |w.costs|
  {
    && (forall i | 0 <= i < |s.startLog| ::
          s.startLog[i].job < |w.costs| && s.startLog[i].tick == StartOf(servers, w, s.startLog[i].job))
    && (forall i, j | 0 <= i < j < |s.startLog| :: s.startLog[i].job != s.startLog[j].job)
    && (forall k | 0 <= k < |w.costs| && StartOf(servers, w, k) < s.now :: Logged(s.startLog, k))
  }

  /** Staging costs no start time. After any calm run over any number of units, the decodes
      reported started are jobs of the load, each reported once and at exactly the tick the
      central queue starts it; and every job whose central start has passed was reported. */
  lemma StagingCostsNoStartTime(unitCount: nat, steps: seq<Step>)
    requires unitCount > 0
    requires var s := Initial(unitCount, None, true);
      Boundary(s) && IsCalmRun(s, steps)
    ensures var s := Initial(unitCount, None, true);
      && IsRun(s, steps)
      && After(s, steps).nextId == |Load(0, steps).costs|
      && StartsAsCentralQueue(After(s, steps), unitCount, Load(0, steps))
  {
    var s := Initial(unitCount, None, true);
    InitialFollows(unitCount);
    CalmRunStaysOnPlan(s, steps, Workload([], []), unitCount);
    RunKeepsBoundary(s, steps);
    assert Then(Workload([], []), Load(0, steps)) == Load(0, steps);
    PlanIsCentral(After(s, steps), unitCount, Load(0, steps));
  }

  lemma PlanIsCentral(s: Side, unitCount: nat, w: Workload)
    requires unitCount > 0 && |w.arrivals| == |w.costs| && Good(s) && OnPlan(s, w, unitCount)
    ensures s.nextId == |w.costs| && StartsAsCentralQueue(s, unitCount, w)
  {
    var plan: Layout :| |plan.free| == |s.units| && Follows(s, w, plan) && Saturated(s, plan);
    forall k | 0 <= k < |plan.starts|
      ensures plan.starts[k] == StartOf(unitCount, w, k)
    {
      CentralStart(unitCount, w, plan.starts, k);
    }
    forall k | 0 <= k < |w.costs| && StartOf(unitCount, w, k) < s.now
      ensures Logged(s.startLog, k)
    {
      if k >= |plan.starts| {
        WaitersWaitCentrally(s, w, plan, k);
      } else if Pending(s, plan, k) {
        PendingStartsLater(s, w, plan, k);
      }
    }
  }

  /** A placed job not started is planned no earlier than now. */
  lemma PendingStartsLater(s: Side, w: Workload, plan: Layout, j: nat)
    requires Follows(s, w, plan) && j < |plan.starts| && Pending(s, plan, j)
    ensures plan.starts[j] >= s.now
  {
    var u := plan.serverOf[j];
    assert UnitFollows(s.units[u], u, s.now, w, plan);
    var p := PlaceOf(s.units[u].residents, j);
    assert SlotFollows(s.units[u].residents[p], u, s.now, w, plan);
  }
}
