/** How a request's decode goes on, over every run: it stays on the unit it was placed on, each of
    its stages once reached stays reached, and once it has gone it is gone. With that, what each
    manager call and each callback brings about.
 */
module DecodeProgress {
  import opened Options
  import opened Lists
  import opened DecoderPools
  import opened DecodeSteps
  import opened DecodeInvariant
  import opened DecodeRuns

  // -------------------------------------------------------------- further on

  /** The same request, no stage of it undone. */
  ghost predicate IsLater(was: Job, job: Job) {
    && job.id == was.id && job.readyTime == was.readyTime && job.occupancy == was.occupancy
    && job.carriesInput == was.carriesInput && job.claimsAtDispatch == was.claimsAtDispatch
    && (was.isAsked ==> job.isAsked) && (was.landed ==> job.landed) && (was.started ==> job.started)
    && (was.completed ==> job.completed) && (was.isStartable ==> job.isStartable)
  }

  ghost predicate GoesOn(s: Side, r: Side, u: nat, id: nat)
    requires OnUnit(s, u, id)
  {
    id in r.gone || (OnUnit(r, u, id) && IsLater(JobOn(s.units[u], id), JobOn(r.units[u], id)))
  }

  /** Every request on a unit goes on there or has gone, and none comes back. */
  ghost predicate Forward(s: Side, r: Side) {
    && |r.units| == |s.units|
    && s.gone <= r.gone
    && (forall u: nat, id: nat | OnUnit(s, u, id) :: GoesOn(s, r, u, id))
  }

  lemma ForwardTwice(s: Side, m: Side, r: Side)
    requires Forward(s, m) && Forward(m, r)
    ensures Forward(s, r)
  {
    forall u: nat, id: nat | OnUnit(s, u, id)
      ensures GoesOn(s, r, u, id)
    {
      assert GoesOn(s, m, u, id);
      if id in m.gone {
        assert id in r.gone;
      } else {
        assert GoesOn(m, r, u, id);
      }
    }
  }

  lemma SameUnitsForward(s: Side, r: Side)
    requires r.units == s.units && s.gone <= r.gone
    ensures Forward(s, r)
  {
  }

  /** One resident's record goes on; what the unit expects and who holds it may change. */
  lemma RecordForward(s: Side, r: Side, u: nat, job: Job)
    requires OnUnit(s, u, job.id) && IsLater(JobOn(s.units[u], job.id), job)
    requires r.gone == s.gone && |r.units| == |s.units|
    requires forall v | 0 <= v < |s.units| && v != u :: r.units[v] == s.units[v]
    requires r.units[u].residents == WithJob(s.units[u], job).residents
    ensures Forward(s, r)
  {
    var unit := s.units[u];
    var p := PlaceOf(unit.residents, job.id);
    SamePlaces(unit.residents, r.units[u].residents);
    forall v: nat, id: nat | OnUnit(s, v, id)
      ensures GoesOn(s, r, v, id)
    {
      if v == u && id != job.id {
        assert PlaceOf(unit.residents, id) != p;
      }
    }
  }

  lemma StartForward(s: Side, u: nat, id: nat)
    requires OnUnit(s, u, id)
    ensures Forward(s, Start(s, u, id))
  {
    RecordForward(s, Start(s, u, id), u, JobOn(s.units[u], id).(started := true));
  }

  lemma BeginForward(s: Side, u: nat, id: nat)
    requires OnUnit(s, u, id)
    ensures Forward(s, Begin(s, u, id))
  {
    match s.device {
      case None => StartForward(s, u, id);
      case Some(d) =>
        if |d.running| < d.slotCount {
          var granted := s.(device := Some(d.(running := d.running + [Own(u, id)])));
          SameUnitsForward(s, granted);
          StartForward(granted, u, id);
          ForwardTwice(s, granted, Start(granted, u, id));
        } else {
          SameUnitsForward(s, Begin(s, u, id));
        }
    }
  }

  lemma LandForward(s: Side, u: nat, id: nat)
    requires OnUnit(s, u, id)
    ensures Forward(s, Land(s, u, id))
  {
    var job := JobOn(s.units[u], id).(landed := true, landingTicks := Some(s.now));
    var landed := s.(units := s.units[u := WithJob(s.units[u], job)]);
    RecordForward(s, landed, u, job);
    if s.units[u].holder == Some(id) {
      BeginForward(landed, u, id);
      ForwardTwice(s, landed, Begin(landed, u, id));
    }
  }

  lemma StagedForward(s: Side, u: nat, id: nat, staging: Staging)
    requires OnUnit(s, u, id)
    ensures Forward(s, Staged(s, u, id, staging))
  {
    var job := JobOn(s.units[u], id).(isAsked := true);
    match staging {
      case AtOnce =>
        var asked := s.(units := s.units[u := WithJob(s.units[u], job)]);
        RecordForward(s, asked, u, job);
        LandForward(asked, u, id);
        ForwardTwice(s, asked, Land(asked, u, id));
      case Expected(landing) =>
        RecordForward(s, Staged(s, u, id, staging), u, job.(landingTicks := landing));
    }
  }

  lemma AskForward(s: Side, u: nat, id: nat, staging: Staging)
    requires OnUnit(s, u, id)
    ensures Forward(s, AskForInput(s, u, id, staging))
  {
    var staged := Staged(s, u, id, staging);
    StagedForward(s, u, id, staging);
    if JobOn(s.units[u], id).claimsAtDispatch {
      assert WithJob(staged.units[u], JobOn(staged.units[u], id)).residents == staged.units[u].residents;
      RecordForward(staged, AskForInput(s, u, id, staging), u, JobOn(staged.units[u], id));
      ForwardTwice(s, staged, AskForInput(s, u, id, staging));
    }
  }

  lemma AdmitForward(s: Side, u: nat, job: Job, claims: bool)
    requires u < |s.units|
    ensures Forward(s, Admit(s, u, job, claims))
  {
    var r := Admit(s, u, job, claims);
    SamePlaces(s.units[u].residents, r.units[u].residents);
    forall v: nat, id: nat | OnUnit(s, v, id)
      ensures GoesOn(s, r, v, id)
    {
    }
  }

  lemma DispatchToForward(s: Side, u: nat, job: Job, claims: bool, staging: Staging)
    requires u < |s.units|
    ensures Forward(s, DispatchTo(s, u, job, claims, staging))
  {
    var admitted := Admit(s, u, job, claims);
    AdmitForward(s, u, job, claims);
    if s.dispatchIsFree {
      AskForward(admitted, u, job.id, staging);
      ForwardTwice(s, admitted, AskForInput(admitted, u, job.id, staging));
    }
  }

  /** The holder and the expected tick say nothing of the requests. */
  lemma ClaimForward(s: Side, u: nat, unit: Unit)
    requires u < |s.units| && unit.residents == s.units[u].residents
    ensures Forward(s, s.(units := s.units[u := unit]))
  {
  }

  lemma OfferForward(s: Side, u: nat)
    requires u < |s.units|
    ensures Forward(s, OfferCompute(s, u))
  {
    var unit := s.units[u];
    var ready := OldestResident(unit.residents, true);
    if unit.holder.None? {
      if ready.Some? {
        var claimed := s.(units := s.units[u := unit.(holder := ready)]);
        ClaimForward(s, u, unit.(holder := ready));
        BeginForward(claimed, u, ready.value);
        ForwardTwice(s, claimed, OfferCompute(s, u));
      } else if OldestResident(unit.residents, false).Some? {
        ClaimForward(s, u, OfferCompute(s, u).units[u]);
      }
    }
  }

  lemma LeaveForward(s: Side, u: nat, id: nat)
    requires OnUnit(s, u, id) && UnitOk(s.units[u])
    ensures Forward(s, LeaveUnit(s, u, id)) && id in LeaveUnit(s, u, id).gone
  {
    var r := LeaveUnit(s, u, id);
    LeftPlaces(s.units[u], id);
    assert r.gone[|s.gone|] == id;
    forall v: nat, i: nat | OnUnit(s, v, i)
      ensures GoesOn(s, r, v, i)
    {
    }
  }

  lemma {:induction false} StartWaitingForward(s: Side)
    requires WaitingOnUnits(s)
    ensures Forward(s, StartWaiting(s))
    decreases if s.device.Some? then |s.device.value.waiting| else 0
  {
    if s.device.Some? {
      var d := s.device.value;
      if d.waiting != [] && |d.running| < d.slotCount {
        var granted := s.(device := Some(d.(running := d.running + [d.waiting[0]], waiting := d.waiting[1..])));
        assert d.waiting[0] in d.waiting;
        SameUnitsForward(s, granted);
        match d.waiting[0] {
          case Foreign(_) =>
            StartWaitingForward(granted);
          case Own(u, id) =>
            StartForward(granted, u, id);
            StartWaitingForward(Start(granted, u, id));
            ForwardTwice(granted, Start(granted, u, id), StartWaiting(s));
        }
        ForwardTwice(s, granted, StartWaiting(s));
      }
    }
  }

  lemma GiveBackForward(s: Side, decode: Decode)
    requires WaitingOnUnits(s)
    ensures Forward(s, GiveBack(s, decode))
  {
    match s.device {
      case None =>
      case Some(d) =>
        var returned := s.(device := Some(d.(running := Without(d.running, decode))));
        SameUnitsForward(s, returned);
        StartWaitingForward(returned);
        ForwardTwice(s, returned, GiveBack(s, decode));
    }
  }

  lemma FreeForward(s: Side, u: nat, id: nat)
    requires Inv(s) && InService(s, u, id)
    ensures WaitingOnUnits(LeaveUnit(s, u, id)) && Forward(s, Free(s, u, id)) && id in Free(s, u, id).gone
  {
    FreeKeeps(s, u, id);
    assert UnitOk(s.units[u]);
    var left := LeaveUnit(s, u, id);
    var back := GiveBack(left, Own(u, id));
    LeaveForward(s, u, id);
    GiveBackForward(left, Own(u, id));
    ForwardTwice(s, left, back);
    OfferForward(back, u);
    ForwardTwice(s, back, Free(s, u, id));
  }

  lemma EvictForward(s: Side, u: nat, id: nat)
    requires Inv(s) && OnUnit(s, u, id)
    ensures Forward(s, Evict(s, u, id))
  {
    assert UnitOk(s.units[u]);
    var withdrawn := Withdraw(s, Own(u, id));
    var left := LeaveUnit(withdrawn, u, id);
    SameUnitsForward(s, withdrawn);
    LeaveForward(withdrawn, u, id);
    ForwardTwice(s, withdrawn, left);
    if s.units[u].holder == Some(id) {
      OfferForward(left, u);
      ForwardTwice(s, left, OfferCompute(left, u));
    }
  }

  // ------------------------------------------------------- the calls

  lemma PlaceForward(s: Side, ordered: seq<Job>, index: nat, u: nat, claims: bool, env: Environment)
    requires index < |ordered| && u < |s.units|
    ensures Forward(s, Place(s, ordered, index, u, claims, env))
  {
    var rest := s.(waiting := ordered[..index] + ordered[index + 1..]);
    SameUnitsForward(s, rest);
    DispatchToForward(rest, u, ordered[index], claims, env.staging(ordered[index].id));
    ForwardTwice(s, rest, Place(s, ordered, index, u, claims, env));
  }

  lemma RoundForward(s: Side, env: Environment, k: nat)
    ensures Forward(s, RoundOf(s, env, k).side)
  {
    var ordered := Drain(env.pick, k, s.waiting);
    match FirstPlacement(s, ordered, 0, env, k) {
      case NoSelection => SameUnitsForward(s, s.(waiting := ordered));
      case Selected(index, u, claims) => PlaceForward(s, ordered, index, u, claims, env);
    }
  }

  lemma DispatchForward(s: Side, env: Environment)
    ensures Forward(s, Dispatch(s, env))
  {
    var rule: Rounds := (t: Side, j: nat) => RoundOf(t, env, j);
    var kept := (t: Side) => Forward(s, t);
    var reached := (t: Side, j: nat) => true;
    SameUnitsForward(s, s);
    forall t: Side, j: nat | kept(t)
      ensures kept(rule(t, j).side)
    {
      RoundForward(t, env, j);
      ForwardTwice(s, t, rule(t, j).side);
    }
    var last := LoopKeeps(s, rule, 0, kept, reached);
  }

  lemma CancelOneForward(s: Side, id: nat, env: Environment)
    requires Good(s)
    ensures Forward(s, CancelOne(s, id, env))
  {
    if PlaceOf(s.waiting, id) < |s.waiting| {
      SameUnitsForward(s, CancelOne(s, id, env));
    } else if UnitOf(s.units, id, 0).Some? {
      var u := UnitOf(s.units, id, 0).value;
      if !JobOn(s.units[u], id).completed {
        if !JobOn(s.units[u], id).started {
          EvictForward(s, u, id);
        } else {
          FreeForward(s, u, id);
          DispatchForward(Free(s, u, id), env);
          ForwardTwice(s, Free(s, u, id), CancelOne(s, id, env));
        }
      }
    }
  }

  /** Of the requests a cancel names, each has ended or its result stands unread on its unit. */
  lemma {:induction false} CancelAllEnds(s: Side, ids: seq<nat>, env: Environment)
    requires Good(s)
    ensures Forward(s, CancelAll(s, ids, env))
    ensures forall i | 0 <= i < |ids| && ids[i] < s.nextId ::
      ids[i] in CancelAll(s, ids, env).gone || UnreadResult(CancelAll(s, ids, env), ids[i])
    decreases |ids|
  {
    if ids == [] {
      SameUnitsForward(s, s);
    } else {
      var next := CancelOne(s, ids[0], env);
      CancelOneIsGood(s, ids[0], env);
      CancelOneForward(s, ids[0], env);
      CancelKeepsId(s, ids[0], env);
      CancelAllEnds(next, ids[1..], env);
      var r := CancelAll(s, ids, env);
      ForwardTwice(s, next, r);
      if ids[0] < s.nextId {
        CancelEnds(s, ids[0], env);
        EndedStays(next, r, ids[0]);
      }
      forall i | 0 < i < |ids| && ids[i] < s.nextId
        ensures ids[i] in r.gone || UnreadResult(r, ids[i])
      {
        assert ids[i] == ids[1..][i - 1];
      }
    }
  }

  lemma CancelKeepsId(s: Side, id: nat, env: Environment)
    requires Good(s)
    ensures CancelOne(s, id, env).nextId == s.nextId
  {
    if UnitOf(s.units, id, 0).Some? {
      var u := UnitOf(s.units, id, 0).value;
      if JobOn(s.units[u], id).started {
        FreeIsGood(s, u, id);
        var last := DispatchKeeps(Free(s, u, id), env);
      }
    }
  }

  lemma EndedStays(s: Side, r: Side, id: nat)
    requires Forward(s, r) && (id in s.gone || UnreadResult(s, id))
    ensures id in r.gone || UnreadResult(r, id)
  {
    if id !in s.gone {
      var u: nat :| OnUnit(s, u, id) && JobOn(s.units[u], id).completed;
      assert GoesOn(s, r, u, id);
    }
  }

  lemma CompletedForward(s: Side, u: nat, id: nat)
    requires OnUnit(s, u, id)
    ensures Forward(s, Completed(s, u, id))
  {
    RecordForward(s, Completed(s, u, id), u, JobOn(s.units[u], id).(completed := true));
  }

  lemma ChangedForward(s: Side, step: Step)
    requires Good(s) && Enabled(s, step)
    ensures Forward(s, Changed(s, step))
  {
    match step
    case Advance(tick) => SameUnitsForward(s, Changed(s, step));
    case Enqueue(_, _, _, _) => SameUnitsForward(s, Changed(s, step));
    case ReleaseWindow(_, _) => SameUnitsForward(s, Changed(s, step));
    case Cancel(requests, env) => CancelAllForward(s, requests, env);
    case InputAsked(u, id, staging) => AskForward(s, u, id, staging);
    case InputLanded(u, id) => LandForward(s, u, id);
    case DecodeEnded(u, id, freesUnit, _) => EndForward(s, u, id);
    case ResultRead(u, id, _) => FreeForward(s, u, id);
    case Retry(_) => SameUnitsForward(s, s);
    case OtherTakes(_) => SameUnitsForward(s, Changed(s, step));
    case OtherReturns(name) => ForeignReturnKeeps(s, name); GiveBackForward(s, Foreign(name));
    case OtherWithdraws(_) => SameUnitsForward(s, Changed(s, step));
  }

  lemma EndForward(s: Side, u: nat, id: nat)
    requires Good(s) && InService(s, u, id)
    ensures Forward(s, Completed(s, u, id))
    ensures Good(Completed(s, u, id)) && InService(Completed(s, u, id), u, id)
    ensures WaitingOnUnits(LeaveUnit(Completed(s, u, id), u, id))
    ensures Forward(s, Free(Completed(s, u, id), u, id)) && id in Free(Completed(s, u, id), u, id).gone
  {
    var ended := Completed(s, u, id);
    CompletedForward(s, u, id);
    CompletedIsGood(s, u, id);
    FreeForward(ended, u, id);
    ForwardTwice(s, ended, Free(ended, u, id));
  }

  lemma {:induction false} CancelAllForward(s: Side, ids: seq<nat>, env: Environment)
    requires Good(s)
    ensures Forward(s, CancelAll(s, ids, env))
    decreases |ids|
  {
    if ids == [] {
      SameUnitsForward(s, s);
    } else {
      CancelOneIsGood(s, ids[0], env);
      CancelOneForward(s, ids[0], env);
      CancelAllForward(CancelOne(s, ids[0], env), ids[1..], env);
      ForwardTwice(s, CancelOne(s, ids[0], env), CancelAll(s, ids, env));
    }
  }

  lemma StepForward(s: Side, step: Step)
    requires Good(s) && Enabled(s, step)
    ensures Forward(s, Apply(s, step))
  {
    ChangedForward(s, step);
    match DispatcherOf(step) {
      case Some(env) =>
        DispatchForward(Changed(s, step), env);
        ForwardTwice(s, Changed(s, step), Apply(s, step));
      case None =>
    }
  }

  /** Over every run: a request on a unit stays there, reaches its stages for good, or has gone. */
  lemma {:induction false} RunGoesForward(s: Side, steps: seq<Step>)
    requires Boundary(s) && IsRun(s, steps)
    ensures Forward(s, After(s, steps))
    decreases |steps|
  {
    if steps == [] {
      SameUnitsForward(s, s);
    } else {
      StepKeepsBoundary(s, steps[0]);
      StepForward(s, steps[0]);
      RunGoesForward(Apply(s, steps[0]), steps[1..]);
      ForwardTwice(s, Apply(s, steps[0]), After(s, steps));
    }
  }

  // ------------------------------------------- what each call brings about

  /** The place of a decode on the device: it runs or waits. */
  ghost predicate OnDevice(s: Side, decode: Decode) {
    s.device.Some? && (decode in s.device.value.running || decode in s.device.value.waiting)
  }

  /** What a step leaves true of what it names. */
  ghost predicate Brings(s: Side, step: Step, r: Side)
    requires Enabled(s, step)
  {
    match step
    case Advance(tick) => r == s.(now := tick)
    case Enqueue(occupancy, carriesInput, isStartable, _) =>
      r.nextId == s.nextId + 1 && Queues(s, r, s.nextId, occupancy, carriesInput, isStartable)
    case ReleaseWindow(jobs, _) => Releases(s, r, jobs)
    case Cancel(requests, _) => forall i | 0 <= i < |requests| && requests[i] < s.nextId ::
      requests[i] in r.gone || UnreadResult(r, requests[i])
    case InputAsked(u, id, _) => OnUnit(r, u, id) && JobOn(r.units[u], id).isAsked
    case InputLanded(u, id) =>
      && OnUnit(r, u, id) && JobOn(r.units[u], id).landed
      && (s.units[u].holder == Some(id) ==> JobOn(r.units[u], id).started || OnDevice(r, Own(u, id)))
      && (s.units[u].holder != Some(id) ==> !JobOn(r.units[u], id).started)
    case DecodeEnded(u, id, freesUnit, _) =>
      if freesUnit then id in r.gone else id !in r.gone && OnUnit(r, u, id) && JobOn(r.units[u], id).completed
    case ResultRead(_, id, _) => id in r.gone
    case Retry(_) => r.gone == s.gone && r.nextId == s.nextId
    case OtherTakes(name) => OnDevice(r, Foreign(name))
    case OtherReturns(name) => !OnDevice(r, Foreign(name))
    case OtherWithdraws(name) =>
      s.device.Some? ==>
        && r.device.Some? && Foreign(name) !in r.device.value.waiting
        && r.device.value.running == s.device.value.running
  }

  /** The new request waits, ready from now, or has been placed, which it may be only if it may
      start; every other waiting request is as it was. */
  ghost predicate Queues(
    s: Side, r: Side, id: nat, occupancy: Ticks, carriesInput: bool, isStartable: bool)
  {
    && (forall p | 0 <= p < |r.waiting| ::
          if r.waiting[p].id == id
          then IsNew(r.waiting[p], s.now, occupancy, carriesInput, isStartable)
          else r.waiting[p] in s.waiting)
    && (Waits(r, id) || (isStartable && OnSomeUnit(r, id)))
  }

  ghost predicate Waits(s: Side, id: nat) {
    exists p :: 0 <= p < |s.waiting| && s.waiting[p].id == id
  }

  ghost predicate IsNew(job: Job, now: int, occupancy: Ticks, carriesInput: bool, isStartable: bool) {
    && job.readyTime == now && job.occupancy == occupancy && job.carriesInput == carriesInput
    && job.isStartable == isStartable && Untouched(job)
  }

  lemma RestHolds(ordered: seq<Job>, index: nat, job: Job)
    requires job in ordered && index < |ordered| && ordered[index] != job
    ensures job in ordered[..index] + ordered[index + 1..]
  {
    var p :| 0 <= p < |ordered| && ordered[p] == job;
    var rest := ordered[..index] + ordered[index + 1..];
    assert rest[if p < index then p else p - 1] == job;
  }

  lemma RoundLeavesBlocked(s: Side, env: Environment, k: nat, job: Job)
    requires job in s.waiting && !job.isStartable
    ensures job in RoundOf(s, env, k).side.waiting
  {
    var ordered := Drain(env.pick, k, s.waiting);
    assert job in ordered by {
      DrainKeeps(env.pick, k, s.waiting);
      assert job in multiset(ordered);
    }
    match FirstPlacement(s, ordered, 0, env, k) {
      case NoSelection =>
      case Selected(index, _, _) => RestHolds(ordered, index, job);
    }
  }

  lemma WaitingIsAdmitted(s: Side, p: nat)
    requires Accounted(s) && p < |s.waiting|
    ensures s.waiting[p].id < s.nextId
  {
    CountWithout(s.waiting, p, s.waiting[p].id);
    assert Places(s, s.waiting[p].id) >= 1;
  }

  /** A job that may not start is not dispatched. */
  lemma DispatchLeavesBlocked(s: Side, env: Environment, job: Job)
    requires job in s.waiting && !job.isStartable
    ensures job in Dispatch(s, env).waiting
  {
    var rule: Rounds := (t: Side, j: nat) => RoundOf(t, env, j);
    var kept := (t: Side) => job in t.waiting;
    var reached := (t: Side, j: nat) => true;
    forall t: Side, j: nat | kept(t)
      ensures kept(rule(t, j).side)
    {
      RoundLeavesBlocked(t, env, j, job);
    }
    var last := LoopKeeps(s, rule, 0, kept, reached);
  }

  lemma EnqueueQueues(s: Side, occupancy: Ticks, carriesInput: bool, isStartable: bool, env: Environment)
    requires Good(s)
    ensures var r := Dispatch(Enqueued(s, occupancy, carriesInput, isStartable), env);
      r.nextId == s.nextId + 1 && Queues(s, r, s.nextId, occupancy, carriesInput, isStartable)
  {
    var queued := Enqueued(s, occupancy, carriesInput, isStartable);
    var r := Dispatch(queued, env);
    var job := NewJob(s, occupancy, carriesInput, isStartable);
    EnqueuedIsGood(s, occupancy, carriesInput, isStartable);
    DispatchTakesFromQueue(queued, env);
    var last := DispatchKeeps(queued, env);
    assert queued.waiting[|s.waiting|] == job;
    forall p | 0 <= p < |s.waiting|
      ensures s.waiting[p].id != s.nextId
    {
      WaitingIsAdmitted(s, p);
    }
    forall p | 0 <= p < |r.waiting|
      ensures r.waiting[p] == job || (r.waiting[p].id != s.nextId && r.waiting[p] in s.waiting)
    {
      assert r.waiting[p] in queued.waiting;
    }
    if !isStartable {
      DispatchLeavesBlocked(queued, env, job);
      var p :| 0 <= p < |r.waiting| && r.waiting[p] == job;
    } else if !Waits(r, s.nextId) {
      QueuedIsPlaced(queued, r, |s.waiting|);
    }
  }

  lemma NotGone(s: Side, u: nat, id: nat)
    requires Good(s) && OnUnit(s, u, id)
    ensures id !in s.gone
  {
    HeldOnce(s, u, u, id);
    CountedGone(s.gone, id);
  }

  lemma EndBrings(s: Side, u: nat, id: nat, freesUnit: bool, env: Environment)
    requires Boundary(s) && Enabled(s, DecodeEnded(u, id, freesUnit, env))
    ensures Brings(s, DecodeEnded(u, id, freesUnit, env), Apply(s, DecodeEnded(u, id, freesUnit, env)))
  {
    var step := DecodeEnded(u, id, freesUnit, env);
    var changed := Changed(s, step);
    EndForward(s, u, id);
    ChangedIsGood(s, step);
    NotGone(s, u, id);
    var last := DispatchKeeps(changed, env);
    DispatchForward(changed, env);
    if !freesUnit {
      assert GoesOn(changed, Dispatch(changed, env), u, id);
    }
  }

  lemma LandBrings(s: Side, u: nat, id: nat)
    requires Boundary(s) && Enabled(s, InputLanded(u, id))
    ensures Brings(s, InputLanded(u, id), Land(s, u, id))
  {
    var p := PlaceOf(s.units[u].residents, id);
    assert UnitOk(s.units[u]) && ResidentOk(s.units[u].residents[p], s.units[u].holder);
    var job := JobOn(s.units[u], id).(landed := true, landingTicks := Some(s.now));
    var landed := s.(units := s.units[u := WithJob(s.units[u], job)]);
    if s.units[u].holder == Some(id) {
      BeginBrings(landed, u, id);
    }
  }

  lemma BeginBrings(s: Side, u: nat, id: nat)
    requires OnUnit(s, u, id) && !JobOn(s.units[u], id).cancelled
    ensures var r := Begin(s, u, id);
      && OnUnit(r, u, id) && IsLater(JobOn(s.units[u], id), JobOn(r.units[u], id))
      && (JobOn(r.units[u], id).started || OnDevice(r, Own(u, id)))
  {
    match s.device {
      case None =>
      case Some(d) =>
        if |d.running| >= d.slotCount {
          assert Begin(s, u, id).device.value.waiting[|d.waiting|] == Own(u, id);
        }
    }
  }

  lemma AskBrings(s: Side, u: nat, id: nat, staging: Staging)
    requires OnUnit(s, u, id)
    ensures OnUnit(AskForInput(s, u, id, staging), u, id)
    ensures id in s.gone || JobOn(AskForInput(s, u, id, staging).units[u], id).isAsked
  {
    var job := JobOn(s.units[u], id).(isAsked := true);
    var asked := s.(units := s.units[u := WithJob(s.units[u], job)]);
    var staged := Staged(s, u, id, staging);
    if staging.AtOnce? {
      LandForward(asked, u, id);
      assert GoesOn(asked, staged, u, id);
    }
    if JobOn(s.units[u], id).claimsAtDispatch {
      assert AskForInput(s, u, id, staging).units[u].residents == staged.units[u].residents;
    }
  }

  lemma OtherBrings(s: Side, step: Step)
    requires Boundary(s) && Enabled(s, step) && (step.OtherTakes? || step.OtherReturns? || step.OtherWithdraws?)
    ensures Brings(s, step, Apply(s, step))
  {
    match step {
      case OtherTakes(name) =>
        var d := s.device.value;
        var r := ForeignTake(s, name).device.value;
        assert if |d.running| < d.slotCount then r.running[|d.running|] == Foreign(name)
          else r.waiting[|d.waiting|] == Foreign(name);
      case OtherReturns(name) =>
        ForeignReturnKeeps(s, name);
        var d := s.device.value;
        var returned := s.(device := Some(d.(running := Without(d.running, Foreign(name)))));
        StartWaitingMoves(returned, Foreign(name));
      case OtherWithdraws(name) =>
    }
  }

  /** What the device starts was waiting for it. */
  lemma {:induction false} StartWaitingMoves(s: Side, decode: Decode)
    requires WaitingOnUnits(s) && !OnDevice(s, decode)
    ensures !OnDevice(StartWaiting(s), decode)
    decreases if s.device.Some? then |s.device.value.waiting| else 0
  {
    if s.device.Some? {
      var d := s.device.value;
      if d.waiting != [] && |d.running| < d.slotCount {
        var granted := s.(device := Some(d.(running := d.running + [d.waiting[0]], waiting := d.waiting[1..])));
        assert d.waiting[0] in d.waiting;
        match d.waiting[0] {
          case Foreign(_) => StartWaitingMoves(granted, decode);
          case Own(u, id) => StartWaitingMoves(Start(granted, u, id), decode);
        }
      }
    }
  }

  lemma CancelBrings(s: Side, requests: seq<nat>, env: Environment)
    requires Boundary(s)
    ensures Brings(s, Cancel(requests, env), Apply(s, Cancel(requests, env)))
  {
    var changed := CancelAll(s, requests, env);
    CancelAllEnds(s, requests, env);
    DispatchForward(changed, env);
    forall i | 0 <= i < |requests| && requests[i] < s.nextId
      ensures requests[i] in Dispatch(changed, env).gone || UnreadResult(Dispatch(changed, env), requests[i])
    {
      EndedStays(changed, Dispatch(changed, env), requests[i]);
    }
  }

  /** Each call and each callback brings about what it is for. */
  lemma StepBrings(s: Side, step: Step)
    requires Boundary(s) && Enabled(s, step)
    ensures Brings(s, step, Apply(s, step))
  {
    match step
    case Advance(_) =>
    case Enqueue(occupancy, carriesInput, isStartable, env) =>
      EnqueueQueues(s, occupancy, carriesInput, isStartable, env);
    case ReleaseWindow(jobs, env) => ReleaseStarts(s, jobs, env);
    case Cancel(requests, env) => CancelBrings(s, requests, env);
    case InputAsked(u, id, staging) => AskBrings(s, u, id, staging); NotGone(s, u, id);
    case InputLanded(u, id) => LandBrings(s, u, id);
    case DecodeEnded(u, id, freesUnit, env) => EndBrings(s, u, id, freesUnit, env);
    case ResultRead(u, id, env) =>
      FreeForward(s, u, id);
      DispatchForward(Changed(s, step), env);
    case Retry(env) => var last := DispatchKeeps(s, env);
    case OtherTakes(_) => OtherBrings(s, step);
    case OtherReturns(_) => OtherBrings(s, step);
    case OtherWithdraws(_) => OtherBrings(s, step);
  }

  // ------------------------------------------------- what a round places

  ghost predicate NoneTakes(s: Side, env: Environment, k: nat, id: nat) {
    forall f | f in s.free && f < |s.units| :: !Takes(s.units[f], env.fits(k, id, f))
  }

  /** A round's placement, by the memories' answers in that round: a waiting job that may start is
      on a unit that takes it; on a free one, which holds its input if any free one that takes it
      does; and on a computing one only when no free one takes it. */
  ghost predicate PlacesOn(s: Side, env: Environment, k: nat, r: Side, job: Job, u: nat) {
    && job in s.waiting && job.isStartable
    && u < |s.units| && Takes(s.units[u], env.fits(k, job.id, u)) && OnUnit(r, u, job.id)
    && (u in s.free ==> forall f | f in s.free && f < |s.units| && Takes(s.units[f], env.fits(k, job.id, f)) ::
          env.holdsInput(k, job.id, f) ==> env.holdsInput(k, job.id, u))
    && (u !in s.free ==> job.carriesInput && NoneTakes(s, env, k, job.id))
  }

  lemma OfferPlaces(s: Side, job: Job, env: Environment, k: nat, u: nat, claims: bool)
    requires Good(s) && OfferFor(s, job, env, k) == Placement(u, claims)
    ensures u < |s.units| && Takes(s.units[u], env.fits(k, job.id, u))
    ensures claims <==> u in s.free
    ensures u in s.free ==> forall f | f in s.free && f < |s.units| && Takes(s.units[f], env.fits(k, job.id, f)) ::
      env.holdsInput(k, job.id, f) ==> env.holdsInput(k, job.id, u)
    ensures u !in s.free ==> job.carriesInput && NoneTakes(s, env, k, job.id)
  {
    var view := env.ViewOf(k, job.id);
    OfferMeaning(s.units, s.free, job, s.now, view);
    OfferFits(s.units, s.free, job, s.now, view);
    forall f | f in s.free
      ensures f < |s.units| ==> Room(s.units, view, f) == Takes(s.units[f], env.fits(k, job.id, f))
    {
      if f < |s.units| {
        RoomTakes(s.units[f], env.fits(k, job.id, f));
      }
    }
  }

  lemma RoundPlaces(s: Side, env: Environment, k: nat) returns (job: Job, u: nat)
    requires Good(s) && RoundOf(s, env, k).Placed?
    ensures PlacesOn(s, env, k, RoundOf(s, env, k).side, job, u)
  {
    var ordered := Drain(env.pick, k, s.waiting);
    var selection := FirstPlacement(s, ordered, 0, env, k);
    job, u := ordered[selection.index], selection.unit;
    OfferPlaces(s, job, env, k, u, selection.claims);
    assert job in s.waiting by {
      DrainKeeps(env.pick, k, s.waiting);
      assert job in multiset(ordered);
    }
    var rest := s.(waiting := ordered[..selection.index] + ordered[selection.index + 1..]);
    DispatchToPlaces(rest, u, job, selection.claims, env.staging(job.id));
  }

  lemma DispatchToPlaces(s: Side, u: nat, job: Job, claims: bool, staging: Staging)
    requires u < |s.units|
    ensures OnUnit(DispatchTo(s, u, job, claims, staging), u, job.id)
  {
    if s.dispatchIsFree {
      AskBrings(Admit(s, u, job, claims), u, job.id, staging);
    }
  }
}
