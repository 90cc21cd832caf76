/** What staging costs: in a calm run every decode starts exactly when one central FIFO queue
    over the pool's units would start it.

    A run is calm when each job carries its input, may start on arrival and declares a
    positive occupancy, inputs move in no time, memory is unbounded, the scheduler is FIFO,
    nothing is cancelled, a dispatch costs nothing and no device is shared.
 */
module CalmRuns {
  import opened Options
  import opened Lists
  import opened DecoderPools
  import opened DecodeSteps
  import opened DecodeInvariant
  import opened DecodeRuns
  import opened CentralQueue

  // ------------------------------------------------------------ calm steps

  predicate InNoTime(staging: Staging, now: int) {
    staging.Expected? && staging.landing.Some? ==> staging.landing.value <= now
  }

  /** A FIFO scheduler, a memory that always fits, inputs that move in no time. */
  ghost predicate CalmEnvironment(env: Environment, now: int) {
    && (forall k, q | q != [] :: env.pick(k, q) == 0)
    && (forall k, id, u :: env.fits(k, id, u))
    && (forall id :: InNoTime(env.staging(id), now))
  }

  ghost predicate Logged(log: seq<Started>, id: nat) {
    exists i :: 0 <= i < |log| && log[i].job == id
  }

  /** The decode started its declared occupancy before the tick. */
  ghost predicate EndsAt(s: Side, u: nat, id: nat, tick: int)
    requires OnUnit(s, u, id)
  {
    exists i :: 0 <= i < |s.startLog| && s.startLog[i].job == id &&
      JobOn(s.units[u], id).occupancy == Finite(tick - s.startLog[i].tick)
  }

  /** No input is still moving and no decode is past its end. */
  ghost predicate MayPass(s: Side, tick: int) {
    && (forall u: nat, id: nat | OnUnit(s, u, id) :: JobOn(s.units[u], id).landed)
    && (forall u: nat, id: nat | InService(s, u, id) :: exists end :: end >= tick && EndsAt(s, u, id, end))
  }

  ghost predicate Calm(s: Side, step: Step) {
    && Enabled(s, step)
    && match step
       case Advance(tick) => MayPass(s, tick)
       case Enqueue(occupancy, carriesInput, isStartable, env) =>
         && occupancy.Finite? && occupancy.ticks > 0 && carriesInput && isStartable
         && CalmEnvironment(env, s.now)
       case InputLanded(_, _) => true
       case DecodeEnded(u, id, freesUnit, env) =>
         freesUnit && EndsAt(s, u, id, s.now) && CalmEnvironment(env, s.now)
       case Retry(env) => CalmEnvironment(env, s.now)
       case _ => false
  }

  ghost predicate IsCalmRun(s: Side, steps: seq<Step>)
    requires Boundary(s)
    decreases |steps|
  {
    steps == [] ||
    (Calm(s, steps[0]) && (StepKeepsBoundary(s, steps[0]); IsCalmRun(Apply(s, steps[0]), steps[1..])))
  }

  /** The jobs a run brings, from the tick on. */
  function Load(now: int, steps: seq<Step>): (w: Workload)
    ensures |w.arrivals| == |w.costs|
    decreases |steps|
  {
    if steps == [] then Workload([], [])
    else
      match steps[0]
      case Advance(tick) => Load(tick, steps[1..])
      case Enqueue(Finite(cost), _, _, _) =>
        var rest := Load(now, steps[1..]);
        Workload([now] + rest.arrivals, [cost] + rest.costs)
      case _ => Load(now, steps[1..])
  }

  function Then(a: Workload, b: Workload): Workload {
    Workload(a.arrivals + b.arrivals, a.costs + b.costs)
  }

  // ------------------------------------------- what a calm run keeps

  function Finish(w: Workload, plan: Layout, j: nat): int
    requires j < |plan.starts| <= |w.costs|
  {
    plan.starts[j] + w.costs[j]
  }

  ghost predicate SlotFollows(job: Job, u: nat, now: int, w: Workload, plan: Layout)
    requires IsLayout(w, plan)
  {
    && job.id < |plan.starts| && plan.serverOf[job.id] == u && job.occupancy == Finite(w.costs[job.id])
    && job.isAsked && !job.cancelled && !job.completed
    && (job.landingTicks.Some? ==> job.landingTicks.value <= now)
    && (if job.started then plan.starts[job.id] <= now else now <= plan.starts[job.id])
  }

  /** The holder computes its planned share; the job staged beside it follows at once. */
  ghost predicate UnitFollows(unit: Unit, u: nat, now: int, w: Workload, plan: Layout)
    requires IsLayout(w, plan) && u < |plan.free|
  {
    && |unit.residents| <= 2
    && (forall p | 0 <= p < |unit.residents| :: SlotFollows(unit.residents[p], u, now, w, plan))
    && match |unit.residents|
       case 0 => unit.holder.None? && plan.free[u] <= now
       case 1 => HolderFollows(unit, now, w, plan) && plan.free[u] == Finish(w, plan, unit.residents[0].id)
       case _ =>
         && HolderFollows(unit, now, w, plan) && plan.free[u] == Finish(w, plan, unit.residents[1].id)
         && unit.residents[0].id != unit.residents[1].id && !unit.residents[1].started
         && plan.starts[unit.residents[1].id] == Finish(w, plan, unit.residents[0].id)
  }

  ghost predicate HolderFollows(unit: Unit, now: int, w: Workload, plan: Layout)
    requires IsLayout(w, plan) && unit.residents != [] && unit.residents[0].id < |plan.starts|
  {
    var job := unit.residents[0];
    && unit.holder == Some(job.id)
    && now <= Finish(w, plan, job.id) && unit.expectedFree == Finite(Finish(w, plan, job.id))
    && (!job.started ==> plan.starts[job.id] == now)
  }

  function QueuedJob(w: Workload, k: nat): Job
    requires k < |w.arrivals| == |w.costs|
  {
    Job(k, w.arrivals[k], Finite(w.costs[k]), true, true, false, false, false, false, false, false, None)
  }

  ghost predicate QueueFollows(s: Side, w: Workload, plan: Layout)
    requires IsLayout(w, plan) && |w.arrivals| == |w.costs|
  {
    && |s.waiting| == |w.costs| - |plan.starts|
    && (forall p | 0 <= p < |s.waiting| :: s.waiting[p] == QueuedJob(w, |plan.starts| + p))
  }

  ghost predicate PendingOn(unit: Unit, j: nat) {
    Holds(unit, j) && !JobOn(unit, j).started
  }

  /** The job stands on its unit and has not started. */
  ghost predicate Pending(s: Side, plan: Layout, j: nat)
    requires j < |plan.serverOf|
  {
    plan.serverOf[j] < |s.units| && PendingOn(s.units[plan.serverOf[j]], j)
  }

  ghost predicate StartsNow(plan: Layout, j: nat, now: int) {
    j < |plan.starts| && plan.starts[j] == now
  }

  /** Every start is reported once, at its planned tick; a placed job not started is pending. */
  ghost predicate LogFollows(s: Side, plan: Layout)
    requires |plan.starts| == |plan.serverOf|
  {
    && (forall i | 0 <= i < |s.startLog| ::
          s.startLog[i].job < |plan.starts| && s.startLog[i].tick == plan.starts[s.startLog[i].job])
    && (forall i, j | 0 <= i < j < |s.startLog| :: s.startLog[i].job != s.startLog[j].job)
    && (forall j | 0 <= j < |plan.starts| :: Logged(s.startLog, j) <==> !Pending(s, plan, j))
  }

  ghost predicate LoadFollows(s: Side, w: Workload) {
    IsWorkload(w) && |w.costs| == s.nextId && s.now >= 0 && forall k | 0 <= k < |w.arrivals| :: w.arrivals[k] <= s.now
  }

  /** The side runs the layout, and the layout's starts are the central queue's. */
  ghost predicate Follows(s: Side, w: Workload, plan: Layout) {
    && LoadFollows(s, w)
    && Laid(w, plan, s.now) && |plan.free| == |s.units| && IsCentral(|s.units|, w, plan.starts)
    && s.dispatchIsFree && s.device.None?
    && QueueFollows(s, w, plan)
    && (forall u | 0 <= u < |s.units| :: UnitFollows(s.units[u], u, s.now, w, plan))
    && LogFollows(s, plan)
  }

  /** A free unit and a waiting job meet only at the tick the job arrives. */
  ghost predicate OnlyNewWait(s: Side) {
    s.free == [] || forall p | 0 <= p < |s.waiting| :: s.waiting[p].readyTime == s.now
  }

  ghost predicate IsLeast(free: seq<int>, u: nat)
    requires u < |free|
  {
    forall v | 0 <= v < |free| :: free[u] <= free[v]
  }

  /** Jobs wait only while every unit computes and those free first are full. */
  ghost predicate Saturated(s: Side, plan: Layout)
    requires |plan.free| == |s.units|
  {
    s.waiting != [] ==>
      && s.free == []
      && (forall u | 0 <= u < |s.units| && IsLeast(plan.free, u) :: |s.units[u].residents| == 2)
  }

  // ------------------------------------------------------------ one placing

  lemma {:induction false} FifoDrain(pick: Pick, k: nat, queue: seq<Job>)
    requires forall j, q | q != [] :: pick(j, q) == 0
    ensures Drain(pick, k, queue) == queue
    decreases |queue|
  {
    if queue != [] {
      FifoDrain(pick, k, queue[..0] + queue[1..]);
      assert queue[..0] + queue[1..] == queue[1..];
    }
  }

  /** The placed job, its input moved in no time or moving. */
  function PlacedJob(job: Job, claims: bool, staging: Staging, now: int): Job {
    var asked := job.(claimsAtDispatch := claims, isAsked := true);
    match staging
    case AtOnce => asked.(landed := true, landingTicks := Some(now), started := claims)
    case Expected(landing) => asked.(landingTicks := landing)
  }

  function PlacedUnit(unit: Unit, job: Job, claims: bool, staging: Staging, now: int): Unit {
    Unit(
      unit.residents + [PlacedJob(job, claims, staging, now)],
      if claims then Some(job.id) else unit.holder,
      if claims then Finite(now).Plus(job.occupancy) else unit.expectedFree)
  }

  /** The unit with the last of its jobs replaced. */
  lemma LastReplaced(unit: Unit, earlier: seq<Job>, last: Job, job: Job)
    requires unit.residents == earlier + [last] && last.id == job.id && PlaceOf(earlier, job.id) == |earlier|
    ensures PlaceOf(unit.residents, job.id) == |earlier| && JobOn(unit, job.id) == last
    ensures WithJob(unit, job) == unit.(residents := earlier + [job])
  {
    SamePlaces(earlier, unit.residents);
    assert unit.residents[|earlier|].id == job.id;
    assert unit.residents[|earlier| := job] == earlier + [job];
  }

  /** The job in the unit's last slot. */
  ghost predicate IsLast(s: Side, u: nat, earlier: seq<Job>, last: Job) {
    && u < |s.units| && s.units[u].residents == earlier + [last]
    && PlaceOf(earlier, last.id) == |earlier| && s.device.None? && !last.cancelled && !last.started
  }

  function WithLast(s: Side, u: nat, earlier: seq<Job>, last: Job, expected: Ticks): Side
    requires u < |s.units|
  {
    s.(units := s.units[u := Unit(earlier + [last], s.units[u].holder, expected)])
  }

  lemma ReplacedTwice(units: seq<Unit>, u: nat, first: Unit, second: Unit)
    requires u < |units|
    ensures units[u := first][u := second] == units[u := second]
  {
  }

  lemma LandLast(s: Side, u: nat, earlier: seq<Job>, last: Job)
    requires IsLast(s, u, earlier, last)
    ensures OnUnit(s, u, last.id)
    ensures var landed := last.(landed := true, landingTicks := Some(s.now));
      Land(s, u, last.id) ==
        if s.units[u].holder == Some(last.id) then
          WithLast(s, u, earlier, landed.(started := true), Finite(s.now).Plus(last.occupancy))
          .(startLog := s.startLog + [Started(last.id, s.now)])
        else WithLast(s, u, earlier, landed, s.units[u].expectedFree)
  {
    var landed := last.(landed := true, landingTicks := Some(s.now));
    LastReplaced(s.units[u], earlier, last, landed);
    var r := WithLast(s, u, earlier, landed, s.units[u].expectedFree);
    assert r.units == s.units[u := WithJob(s.units[u], landed)];
    LastReplaced(r.units[u], earlier, landed, landed.(started := true));
  }

  /** What staging the last job leaves; its unit's prediction when the decode started. */
  function StagedLast(s: Side, u: nat, earlier: seq<Job>, last: Job, staging: Staging): Side
    requires u < |s.units|
  {
    var claims := last.claimsAtDispatch;
    var starts := claims && staging.AtOnce?;
    WithLast(s, u, earlier, PlacedJob(last, claims, staging, s.now),
      if starts then Finite(s.now).Plus(last.occupancy) else s.units[u].expectedFree)
    .(startLog := if starts then s.startLog + [Started(last.id, s.now)] else s.startLog)
  }

  lemma StageLast(s: Side, u: nat, earlier: seq<Job>, last: Job, staging: Staging)
    requires IsLast(s, u, earlier, last)
    requires last.claimsAtDispatch == (s.units[u].holder == Some(last.id))
    ensures OnUnit(s, u, last.id) && JobOn(s.units[u], last.id) == last
    ensures Staged(s, u, last.id, staging) == StagedLast(s, u, earlier, last, staging)
  {
    var asked := last.(isAsked := true);
    LastReplaced(s.units[u], earlier, last, asked);
    match staging {
      case AtOnce =>
        var moved := WithLast(s, u, earlier, asked, s.units[u].expectedFree);
        LandLast(moved, u, earlier, asked);
        assert moved == s.(units := s.units[u := WithJob(s.units[u], asked)]);
        var staged := StagedLast(s, u, earlier, last, staging);
        ReplacedTwice(s.units, u, moved.units[u], staged.units[u]);
        assert Land(moved, u, last.id).units == staged.units;
      case Expected(landing) =>
        LastReplaced(s.units[u], earlier, last, asked.(landingTicks := landing));
    }
  }

  lemma AskLast(s: Side, u: nat, earlier: seq<Job>, last: Job, staging: Staging)
    requires IsLast(s, u, earlier, last) && InNoTime(staging, s.now)
    requires last.claimsAtDispatch == (s.units[u].holder == Some(last.id)) && last.landingTicks.None?
    ensures OnUnit(s, u, last.id)
    ensures AskForInput(s, u, last.id, staging) ==
      var staged := StagedLast(s, u, earlier, last, staging);
      if last.claimsAtDispatch then
        staged.(units := staged.units[u := staged.units[u].(expectedFree := Finite(s.now).Plus(last.occupancy))])
      else staged
  {
    StageLast(s, u, earlier, last, staging);
    var placed := PlacedJob(last, last.claimsAtDispatch, staging, s.now);
    LastReplaced(StagedLast(s, u, earlier, last, staging).units[u], earlier, placed, placed);
  }

  /** What a dispatch does on a free unit, or beside a computing job. */
  lemma DispatchEffect(s: Side, u: nat, job: Job, claims: bool, staging: Staging)
    requires u < |s.units| && s.dispatchIsFree && s.device.None?
    requires !Holds(s.units[u], job.id) && Untouched(job) && s.units[u].holder != Some(job.id)
    requires InNoTime(staging, s.now) && job.landingTicks.None?
    ensures var r := DispatchTo(s, u, job, claims, staging);
      && r.units == s.units[u := PlacedUnit(s.units[u], job, claims, staging, s.now)]
      && r.free == (if claims then Without(s.free, u) else s.free)
      && r.startLog == s.startLog + (if claims && staging.AtOnce? then [Started(job.id, s.now)] else [])
      && r.device.None?
  {
    var admitted := Admit(s, u, job, claims);
    AskLast(admitted, u, s.units[u].residents, job.(claimsAtDispatch := claims), staging);
    var placed := PlacedUnit(s.units[u], job, claims, staging, s.now);
    ReplacedTwice(s.units, u, admitted.units[u], placed);
    var staged := StagedLast(admitted, u, s.units[u].residents, job.(claimsAtDispatch := claims), staging);
    ReplacedTwice(admitted.units, u, staged.units[u], placed);
    assert s.startLog + [] == s.startLog;
  }
}
