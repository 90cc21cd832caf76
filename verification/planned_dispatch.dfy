/** One run of the dispatch loop in a calm run: each job it places is laid out to start when
    the central queue would start it, and the jobs it leaves must wait.
 */
module PlannedDispatch {
  import opened Options
  import opened Lists
  import opened DecoderPools
  import opened DecodeSteps
  import opened DecodeInvariant
  import opened DecodeRuns
  import opened CentralQueue
  import opened CalmRuns

  // -------------------------------------------------------------- the offer

  /** A computing unit's work left is what its plan still owes. */
  lemma WorkLeftIsPlanned(unit: Unit, u: nat, now: int, w: Workload, plan: Layout)
    requires IsLayout(w, plan) && u < |plan.free| && UnitFollows(unit, u, now, w, plan) && unit.residents != []
    ensures WorkLeft(unit, now) == Finite(plan.free[u] - now)
  {
    var residents := unit.residents;
    if |residents| == 1 {
      assert StagedCost(residents, unit.holder) == Finite(0);
    } else {
      assert residents[1..][1..] == [];
      assert StagedCost(residents[1..], unit.holder) == residents[1].occupancy;
    }
  }

  /** A computing unit has a last job, whose end is when the unit is next free. */
  lemma ComputingHasServed(unit: Unit, u: nat, now: int, w: Workload, plan: Layout)
    requires IsLayout(w, plan) && u < |plan.free| && UnitFollows(unit, u, now, w, plan) && unit.residents != []
    requires IsWorkload(w)
    ensures HasServed(w, plan, u) && now <= plan.free[u]
  {
    assert ServesLast(w, plan, u, unit.residents[|unit.residents| - 1].id);
  }

  /** With no unit free, every unit computes. */
  lemma NoneFree(s: Side, w: Workload, plan: Layout)
    requires Good(s) && Follows(s, w, plan) && s.free == []
    ensures forall u | 0 <= u < |s.units| :: s.units[u].residents != []
    ensures forall u | 0 <= u < |s.units| :: HasServed(w, plan, u) && s.now <= plan.free[u]
    ensures forall u | 0 <= u < |s.units| :: IsFreeingFirst(s.units, s.now, u) <==> IsLeast(plan.free, u)
  {
    forall u | 0 <= u < |s.units|
      ensures s.units[u].residents != [] && HasServed(w, plan, u) && s.now <= plan.free[u]
      ensures WorkLeft(s.units[u], s.now) == Finite(plan.free[u] - s.now)
    {
      assert s.units[u].holder.Some?;
      assert UnitFollows(s.units[u], u, s.now, w, plan);
      ComputingHasServed(s.units[u], u, s.now, w, plan);
      WorkLeftIsPlanned(s.units[u], u, s.now, w, plan);
    }
  }

  /** What the pool answers a waiting job, in the plan's terms. */
  ghost predicate PlannedOffer(s: Side, w: Workload, plan: Layout, offer: Offer)
    requires |plan.free| == |s.units| && |plan.starts| <= |w.costs| == |w.arrivals|
  {
    match offer
    case Placement(u, true) =>
      u in s.free && u < |s.units| && s.units[u].residents == [] && FreeOnArrival(w, plan, s.now, u)
    case Placement(u, false) =>
      s.free == [] && u < |s.units| && |s.units[u].residents| == 1 && FreeFirst(w, plan, s.now, u)
    case NoUnit =>
      && s.free == []
      && (forall u | 0 <= u < |s.units| && IsLeast(plan.free, u) :: |s.units[u].residents| == 2)
  }

  lemma OfferIsPlanned(s: Side, w: Workload, plan: Layout, env: Environment, k: nat, p: nat)
    requires Good(s) && Follows(s, w, plan) && OnlyNewWait(s) && CalmEnvironment(env, s.now) && p < |s.waiting|
    ensures p == 0 ==> PlannedOffer(s, w, plan, OfferFor(s, s.waiting[0], env, k))
    ensures OfferFor(s, s.waiting[p], env, k).NoUnit? ==>
      PlannedOffer(s, w, plan, NoUnit)
    ensures PlannedOffer(s, w, plan, NoUnit) ==> OfferFor(s, s.waiting[p], env, k).NoUnit?
  {
    var job := s.waiting[p];
    var view := env.ViewOf(k, job.id);
    OfferMeaning(s.units, s.free, job, s.now, view);
    assert job == QueuedJob(w, |plan.starts| + p);
    if s.free == [] {
      NoneFree(s, w, plan);
      assert forall u | 0 <= u < |s.units| :: UnitFollows(s.units[u], u, s.now, w, plan);
      assert forall u | 0 <= u < |s.units| :: Room(s.units, view, u) <==> |s.units[u].residents| == 1;
    } else {
      var u := s.free[0];
      assert u in s.free && s.units[u].residents == [];
      assert Room(s.units, view, u);
      forall f | f in s.free
        ensures s.units[f].residents == [] && plan.free[f] <= s.now
      {
        assert UnitFollows(s.units[f], f, s.now, w, plan);
      }
      assert s.waiting[0] == QueuedJob(w, |plan.starts|);
    }
  }

  // ----------------------------------------------------------- the placing

  /** Later placings on other units leave a unit's plan as it was. */
  lemma OtherUnitFollows(unit: Unit, v: nat, now: int, w: Workload, plan: Layout, u: nat, at: int)
    requires IsLayout(w, plan) && v < |plan.free| && UnitFollows(unit, v, now, w, plan)
    requires u < |plan.free| && u != v && |plan.starts| < |w.costs|
    ensures IsLayout(w, Lay(w, plan, u, at)) && UnitFollows(unit, v, now, w, Lay(w, plan, u, at))
  {
    var next := Lay(w, plan, u, at);
    assert forall p | 0 <= p < |unit.residents| :: SlotFollows(unit.residents[p], v, now, w, plan);
    assert next.free[v] == plan.free[v];
  }

  lemma PlacedUnitFollows(
    s: Side, w: Workload, plan: Layout, u: nat, claims: bool, staging: Staging)
    requires Follows(s, w, plan) && s.waiting != [] && InNoTime(staging, s.now)
    requires PlannedOffer(s, w, plan, Placement(u, claims))
    ensures var next := Lay(w, plan, u, Max(s.now, plan.free[u]));
      && IsLayout(w, next)
      && UnitFollows(PlacedUnit(s.units[u], s.waiting[0], claims, staging, s.now), u, s.now, w, next)
  {
    var k := |plan.starts|;
    var job := s.waiting[0];
    assert job == QueuedJob(w, k);
    assert UnitFollows(s.units[u], u, s.now, w, plan);
    var at := Max(s.now, plan.free[u]);
    var next := Lay(w, plan, u, at);
    var unit := PlacedUnit(s.units[u], job, claims, staging, s.now);
    assert next.free[u] == at + w.costs[k];
    if !claims {
      var first := s.units[u].residents[0];
      assert SlotFollows(first, u, s.now, w, plan);
      assert unit.residents[0] == first && unit.residents[1].id == k;
      assert SlotFollows(unit.residents[0], u, s.now, w, next);
      assert SlotFollows(unit.residents[1], u, s.now, w, next);
    }
  }

  /** The log after one decode more has started, or none. */
  lemma LogGrows(s: Side, plan: Layout, r: Side, next: Layout, started: Option<nat>)
    requires |plan.starts| == |plan.serverOf| <= |next.starts| == |next.serverOf|
    requires plan.starts == next.starts[..|plan.starts|] && plan.serverOf == next.serverOf[..|plan.starts|]
    requires LogFollows(s, plan)
    requires match started
      case None => r.startLog == s.startLog
      case Some(id) =>
        && id < |next.starts| && next.starts[id] == r.now && r.startLog == s.startLog + [Started(id, r.now)]
        && (id < |plan.starts| ==> Pending(s, plan, id))
    requires forall j | 0 <= j < |plan.starts| :: Pending(r, next, j) <==> Pending(s, plan, j) && started != Some(j)
    requires forall j | |plan.starts| <= j < |next.starts| :: Pending(r, next, j) <==> started != Some(j)
    ensures LogFollows(r, next)
  {
    forall i | 0 <= i < |r.startLog|
      ensures r.startLog[i].job < |next.starts| && r.startLog[i].tick == next.starts[r.startLog[i].job]
    {
      assert i < |s.startLog| ==> r.startLog[i] == s.startLog[i];
    }
    forall j | 0 <= j < |next.starts|
      ensures Logged(r.startLog, j) <==> Logged(s.startLog, j) || started == Some(j)
    {
      if Logged(s.startLog, j) {
        var i :| 0 <= i < |s.startLog| && s.startLog[i].job == j;
        assert r.startLog[i].job == j;
      }
      if started == Some(j) {
        assert r.startLog[|s.startLog|].job == j;
      }
    }
    if started.Some? && started.value < |plan.starts| {
      assert !Logged(s.startLog, started.value);
    }
    forall i, j | 0 <= i < j < |r.startLog|
      ensures r.startLog[i].job != r.startLog[j].job
    {
      assert r.startLog[i] == s.startLog[i];
      assert j < |s.startLog| ==> r.startLog[j] == s.startLog[j];
      assert s.startLog[i].job < |plan.starts| && Logged(s.startLog, s.startLog[i].job);
    }
  }

  lemma PlacingKeepsUnits(s: Side, w: Workload, plan: Layout, u: nat, claims: bool, staging: Staging, units: seq<Unit>)
    requires Follows(s, w, plan) && s.waiting != [] && InNoTime(staging, s.now)
    requires PlannedOffer(s, w, plan, Placement(u, claims))
    requires units == s.units[u := PlacedUnit(s.units[u], s.waiting[0], claims, staging, s.now)]
    ensures var next := Lay(w, plan, u, Max(s.now, plan.free[u]));
      IsLayout(w, next) && forall v | 0 <= v < |units| :: UnitFollows(units[v], v, s.now, w, next)
  {
    PlacedUnitFollows(s, w, plan, u, claims, staging);
    forall v | 0 <= v < |units|
      ensures UnitFollows(units[v], v, s.now, w, Lay(w, plan, u, Max(s.now, plan.free[u])))
    {
      if v != u {
        assert UnitFollows(s.units[v], v, s.now, w, plan);
        OtherUnitFollows(s.units[v], v, s.now, w, plan, u, Max(s.now, plan.free[u]));
      }
    }
  }

  lemma PlacingKeepsQueue(s: Side, w: Workload, plan: Layout, r: Side, next: Layout)
    requires IsLayout(w, plan) && IsLayout(w, next) && |w.arrivals| == |w.costs|
    requires QueueFollows(s, w, plan) && s.waiting != [] && |next.starts| == |plan.starts| + 1
    requires r.waiting == s.waiting[1..]
    ensures QueueFollows(r, w, next)
  {
    assert forall p | 0 <= p < |r.waiting| :: r.waiting[p] == s.waiting[p + 1];
  }

  /** The side once the first waiting job is placed. */
  ghost predicate IsPlaced(s: Side, r: Side, u: nat, claims: bool, staging: Staging) {
    && u < |s.units| && s.waiting != []
    && r.waiting == s.waiting[1..]
    && r.units == s.units[u := PlacedUnit(s.units[u], s.waiting[0], claims, staging, s.now)]
    && r.free == (if claims then Without(s.free, u) else s.free)
    && r.startLog == s.startLog + (if claims && staging.AtOnce? then [Started(s.waiting[0].id, s.now)] else [])
    && r.device == s.device && r.now == s.now && r.nextId == s.nextId && r.dispatchIsFree == s.dispatchIsFree
  }

  lemma PlacingIsPlaced(s: Side, w: Workload, plan: Layout, u: nat, claims: bool, staging: Staging)
    requires Good(s) && Follows(s, w, plan) && s.waiting != [] && InNoTime(staging, s.now) && u < |s.units|
    ensures IsPlaced(s, DispatchTo(s.(waiting := s.waiting[1..]), u, s.waiting[0], claims, staging), u, claims, staging)
    ensures !Holds(s.units[u], s.waiting[0].id)
  {
    assert s.waiting[0] == QueuedJob(w, |plan.starts|);
    QueuedIsOnNoUnit(s, 0, u);
    assert s.units[u].holder != Some(s.waiting[0].id) by {
      assert UnitOk(s.units[u]);
    }
    DispatchEffect(s.(waiting := s.waiting[1..]), u, s.waiting[0], claims, staging);
  }

  lemma PlacingKeepsLog(s: Side, w: Workload, plan: Layout, r: Side, at: int, u: nat, claims: bool, staging: Staging)
    requires IsPlaced(s, r, u, claims, staging) && |plan.starts| == |plan.serverOf| && LogFollows(s, plan)
    requires s.waiting[0].id == |plan.starts| && !s.waiting[0].started && !Holds(s.units[u], |plan.starts|)
    requires u < |plan.free| && |plan.starts| < |w.costs| && (claims ==> at == s.now)
    ensures LogFollows(r, Lay(w, plan, u, at))
  {
    var next := Lay(w, plan, u, at);
    PlacedPending(s, plan, r, next, u, claims, staging);
    LogGrows(s, plan, r, next, if claims && staging.AtOnce? then Some(s.waiting[0].id) else None);
  }

  /** One placing keeps everything: the job starts when the central queue would start it. */
  lemma PlacingFollows(s: Side, w: Workload, plan: Layout, r: Side, u: nat, claims: bool, staging: Staging)
    requires Follows(s, w, plan) && OnlyNewWait(s) && InNoTime(staging, s.now)
    requires IsPlaced(s, r, u, claims, staging) && !Holds(s.units[u], s.waiting[0].id)
    requires PlannedOffer(s, w, plan, Placement(u, claims))
    ensures Follows(r, w, Lay(w, plan, u, Max(s.now, plan.free[u]))) && OnlyNewWait(r)
  {
    var next := Lay(w, plan, u, Max(s.now, plan.free[u]));
    assert s.waiting[0] == QueuedJob(w, |plan.starts|);
    NextIsCentral(w, plan, s.now, u);
    PlacingKeepsUnits(s, w, plan, u, claims, staging, r.units);
    PlacingKeepsQueue(s, w, plan, r, next);
    PlacingKeepsLog(s, w, plan, r, Max(s.now, plan.free[u]), u, claims, staging);
    assert LoadFollows(r, w);
    assert forall p | 0 <= p < |r.waiting| :: r.waiting[p] == s.waiting[p + 1];
  }

  /** A job more on the unit: pending unless it started, and no other's pending changes. */
  lemma PendingGrows(unit: Unit, after: Unit, job: Job)
    requires after.residents == unit.residents + [job] && !Holds(unit, job.id)
    ensures forall j: nat | j != job.id :: PendingOn(after, j) <==> PendingOn(unit, j)
    ensures PendingOn(after, job.id) <==> !job.started
  {
    SamePlaces(unit.residents, after.residents);
    assert after.residents[|unit.residents|].id == job.id;
    assert PlaceOf(after.residents, job.id) == |unit.residents|;
    forall j: nat | j != job.id
      ensures PendingOn(after, j) <==> PendingOn(unit, j)
    {
      var p := PlaceOf(after.residents, j);
      assert p < |unit.residents| ==> after.residents[p] == unit.residents[p];
    }
  }

  /** Of the placed jobs, only the new one's pending changes. */
  lemma PlacedPending(
    s: Side, plan: Layout, r: Side, next: Layout, u: nat, claims: bool, staging: Staging)
    requires u < |s.units| && s.waiting != [] && s.waiting[0].id == |plan.starts| == |plan.serverOf|
    requires !s.waiting[0].started && !Holds(s.units[u], |plan.starts|)
    requires r.units == s.units[u := PlacedUnit(s.units[u], s.waiting[0], claims, staging, s.now)]
    requires next.serverOf == plan.serverOf + [u]
    ensures forall j | 0 <= j < |plan.starts| :: Pending(r, next, j) <==> Pending(s, plan, j)
    ensures Pending(r, next, |plan.starts|) <==> !(claims && staging.AtOnce?)
  {
    PendingGrows(s.units[u], r.units[u], PlacedJob(s.waiting[0], claims, staging, s.now));
    forall j | 0 <= j < |plan.starts|
      ensures Pending(r, next, j) <==> Pending(s, plan, j)
    {
      assert next.serverOf[j] == plan.serverOf[j];
    }
  }

  // ---------------------------------------------------------------- the loop

  lemma RoundFollows(s: Side, w: Workload, plan: Layout, env: Environment, k: nat) returns (next: Layout)
    requires Good(s) && Follows(s, w, plan) && OnlyNewWait(s) && CalmEnvironment(env, s.now)
    ensures Follows(RoundOf(s, env, k).side, w, next) && OnlyNewWait(RoundOf(s, env, k).side)
  {
    FifoDrain(env.pick, k, s.waiting);
    next := plan;
    match FirstPlacement(s, s.waiting, 0, env, k) {
      case NoSelection =>
        assert RoundOf(s, env, k).side == s;
      case Selected(index, u, claims) =>
        OfferIsPlanned(s, w, plan, env, k, 0);
        OfferIsPlanned(s, w, plan, env, k, index);
        assert s.waiting[0] == QueuedJob(w, |plan.starts|);
        assert index == 0;
        assert s.waiting[..0] + s.waiting[1..] == s.waiting[1..];
        var staging := env.staging(s.waiting[0].id);
        PlacingIsPlaced(s, w, plan, u, claims, staging);
        next := Lay(w, plan, u, Max(s.now, plan.free[u]));
        PlacingFollows(s, w, plan, RoundOf(s, env, k).side, u, claims, staging);
    }
  }

  ghost predicate FollowsSome(s: Side, w: Workload) {
    exists plan :: Follows(s, w, plan)
  }

  /** The loop places jobs on the plan until those that wait must. */
  lemma DispatchFollows(s: Side, w: Workload, plan: Layout, env: Environment) returns (next: Layout)
    requires Good(s) && Follows(s, w, plan) && OnlyNewWait(s) && CalmEnvironment(env, s.now)
    ensures Follows(Dispatch(s, env), w, next) && Saturated(Dispatch(s, env), next)
  {
    var rule: Rounds := (t: Side, j: nat) => RoundOf(t, env, j);
    var kept := (t: Side) => Good(t) && t.now == s.now && OnlyNewWait(t) && FollowsSome(t, w);
    var reached := (t: Side, j: nat) => Settled(t, env, j);
    forall t: Side, j: nat | kept(t)
      ensures kept(rule(t, j).side)
      ensures rule(t, j).NothingPlaced? ==> reached(rule(t, j).side, j)
    {
      RoundIsGood(t, env, j);
      var some :| Follows(t, w, some);
      var after := RoundFollows(t, w, some, env, j);
    }
    var last := LoopKeeps(s, rule, 0, kept, reached);
    var end := Dispatch(s, env);
    next :| Follows(end, w, next);
    if end.waiting != [] {
      OfferIsPlanned(end, w, next, env, last, 0);
      assert end.waiting[0] == QueuedJob(w, |next.starts|);
    }
  }
}
