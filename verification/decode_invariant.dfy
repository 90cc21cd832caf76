/** What every step of the decoder side keeps: slots, claims, the free list and the device. */
module DecodeInvariant {
  import opened Options
  import opened Lists
  import opened DecoderPools
  import opened DecodeSteps

  /** A unit holds at most two jobs, none of them cancelled; a decode in service is the
      holder of the compute and its input has landed. */
  ghost predicate UnitOk(unit: Unit) {
    && |unit.residents| <= INPUT_SLOT_COUNT
    && (forall p, q | 0 <= p < q < |unit.residents| :: unit.residents[p].id != unit.residents[q].id)
    && (unit.holder.Some? ==> Holds(unit, unit.holder.value))
    && (forall p | 0 <= p < |unit.residents| :: ResidentOk(unit.residents[p], unit.holder))
  }

  ghost predicate ResidentOk(job: Job, holder: Option<nat>) {
    && !job.cancelled
    && (job.completed ==> job.started)
    && (job.started ==> job.landed && holder == Some(job.id))
    && (job.landed ==> job.isAsked)
  }

  /** The units, but for one whose compute is being handed on. */
  ghost predicate UnitsOk(s: Side, passing: Option<nat>) {
    forall u | 0 <= u < |s.units| ::
      && UnitOk(s.units[u])
      && (s.units[u].holder.None? && passing != Some(u) ==> s.units[u].residents == [])
  }

  /** A unit is in the free list just when its compute has no holder. */
  ghost predicate FreeOk(s: Side, passing: Option<nat>) {
    && Distinct(s.free)
    && (forall u | u in s.free :: u < |s.units| && s.units[u].holder.None? && passing != Some(u))
    && (forall u | 0 <= u < |s.units| && s.units[u].holder.None? && passing != Some(u) :: u in s.free)
  }

  ghost predicate InService(s: Side, u: nat, id: nat) {
    OnUnit(s, u, id) && JobOn(s.units[u], id).started
  }

  /** The job holds its unit's compute with its input landed, and has not started. */
  ghost predicate AwaitsSlot(s: Side, u: nat, id: nat) {
    && OnUnit(s, u, id)
    && s.units[u].holder == Some(id)
    && JobOn(s.units[u], id).landed
    && !JobOn(s.units[u], id).started
  }

  /** The device's lists are the decodes in service and those waiting for a slot, but for one
      that is being begun. */
  ghost predicate DeviceLists(s: Side, beginning: Option<Decode>) {
    match s.device
    case None =>
      forall u, id | AwaitsSlot(s, u, id) :: beginning == Some(Own(u, id))
    case Some(d) =>
      && Distinct(d.running) && Distinct(d.waiting)
      && |d.running| <= d.slotCount
      && (forall x | x in d.running :: x !in d.waiting)
      && (forall u, id :: Own(u, id) in d.running <==> InService(s, u, id))
      && (forall u, id ::
            Own(u, id) in d.waiting <==> AwaitsSlot(s, u, id) && beginning != Some(Own(u, id)))
  }

  /** A decode waits for a slot only while every slot runs one. */
  ghost predicate DeviceFull(s: Side) {
    s.device.Some? && s.device.value.waiting != [] ==> |s.device.value.running| == s.device.value.slotCount
  }

  ghost predicate Untouched(job: Job) {
    !job.cancelled && !job.completed && !job.started && !job.isAsked && !job.landed
  }

  ghost predicate QueueOk(s: Side) {
    forall p | 0 <= p < |s.waiting| :: Untouched(s.waiting[p])
  }

  /** The invariant inside a step: one unit's compute may be passing on, one decode may be
      about to begin. */
  ghost predicate Within(s: Side, passing: Option<nat>, beginning: Option<Decode>) {
    UnitsOk(s, passing) && FreeOk(s, passing) && DeviceLists(s, beginning) && DeviceFull(s) && QueueOk(s)
  }

  ghost predicate Inv(s: Side) {
    Within(s, None, None)
  }

  // --------------------------------------------------------- small steps

  /** A unit that keeps its slots' ids and its holder keeps what stands on it. */
  lemma UnitReplaced(s: Side, u: nat, unit: Unit)
    requires u < |s.units| && |unit.residents| == |s.units[u].residents|
    requires forall q | 0 <= q < |unit.residents| :: unit.residents[q].id == s.units[u].residents[q].id
    ensures forall v, id :: OnUnit(s.(units := s.units[u := unit]), v, id) <==> OnUnit(s, v, id)
  {
    SamePlaces(unit.residents, s.units[u].residents);
  }

  /** Replacing a unit by one in order, under the same claim, keeps the units and the list. */
  lemma UnitsKept(s: Side, u: nat, unit: Unit, passing: Option<nat>)
    requires UnitsOk(s, passing) && FreeOk(s, passing) && u < |s.units|
    requires UnitOk(unit) && unit.holder == s.units[u].holder
    requires |unit.residents| == |s.units[u].residents|
    ensures UnitsOk(s.(units := s.units[u := unit]), passing)
    ensures FreeOk(s.(units := s.units[u := unit]), passing)
  {
  }

  /** The device's lists stay right when no decode's service changes. */
  lemma DeviceKept(s: Side, r: Side, beginning: Option<Decode>)
    requires DeviceLists(s, beginning) && r.device == s.device
    requires forall v, i :: InService(r, v, i) <==> InService(s, v, i)
    requires forall v, i :: AwaitsSlot(r, v, i) <==> AwaitsSlot(s, v, i)
    ensures DeviceLists(r, beginning)
  {
  }

  /** A landed holder starts; the running list has its entry already. */
  lemma StartKeeps(s: Side, u: nat, id: nat, passing: Option<nat>, beginning: Option<Decode>)
    requires UnitsOk(s, passing) && FreeOk(s, passing) && QueueOk(s) && AwaitsSlot(s, u, id)
    ensures UnitsOk(Start(s, u, id), passing) && FreeOk(Start(s, u, id), passing) && QueueOk(Start(s, u, id))
    ensures Start(s, u, id).device == s.device
    ensures forall v, i :: InService(Start(s, u, id), v, i) <==> InService(s, v, i) || (v == u && i == id)
    ensures forall v, i :: AwaitsSlot(Start(s, u, id), v, i) <==> AwaitsSlot(s, v, i) && (v != u || i != id)
  {
    var r := Start(s, u, id);
    var job := JobOn(s.units[u], id).(started := true);
    var unit := Predicted(WithJob(s.units[u], job), job, s.now);
    assert r.units == s.units[u := unit];
    UnitReplaced(s, u, unit);
    assert UnitOk(unit);
  }

  /** Begin gives the decode its slot, or its place among the waiting. */
  lemma BeginKeeps(s: Side, u: nat, id: nat, passing: Option<nat>)
    requires Within(s, passing, Some(Own(u, id))) && AwaitsSlot(s, u, id)
    ensures Within(Begin(s, u, id), passing, None)
  {
    match s.device {
      case None =>
        StartKeeps(s, u, id, passing, Some(Own(u, id)));
      case Some(d) =>
        if |d.running| < d.slotCount {
          var granted := s.(device := Some(d.(running := d.running + [Own(u, id)])));
          StartKeeps(granted, u, id, passing, Some(Own(u, id)));
        }
    }
  }

  /** Any change of a resident that neither lands nor starts it keeps everything. */
  lemma ResidentChanged(s: Side, u: nat, job: Job, expected: Ticks)
    requires Inv(s) && OnUnit(s, u, job.id)
    requires var was := JobOn(s.units[u], job.id);
      job.landed == was.landed && job.started == was.started && (job.completed ==> job.started) &&
      !job.cancelled && (was.isAsked ==> job.isAsked)
    ensures Inv(s.(units := s.units[u := WithJob(s.units[u], job).(expectedFree := expected)]))
  {
    var unit := WithJob(s.units[u], job).(expectedFree := expected);
    var r := s.(units := s.units[u := unit]);
    UnitReplaced(s, u, unit);
    UnitsKept(s, u, unit, None);
    DeviceKept(s, r, None);
  }

  /** The landing of an input keeps everything: its unit's compute has a holder. */
  lemma LandKeeps(s: Side, u: nat, id: nat)
    requires Inv(s) && OnUnit(s, u, id) && JobOn(s.units[u], id).isAsked && !JobOn(s.units[u], id).landed
    ensures s.units[u].holder.Some?
    ensures Inv(Land(s, u, id))
  {
    var job := JobOn(s.units[u], id).(landed := true, landingTicks := Some(s.now));
    var unit := WithJob(s.units[u], job);
    var landed := s.(units := s.units[u := unit]);
    UnitReplaced(s, u, unit);
    UnitsKept(s, u, unit, None);
    LandingServes(s, landed, u, id);
    if s.units[u].holder == Some(id) {
      BeginKeeps(landed, u, id, None);
    }
  }

  /** A landing puts no decode in service; it leaves its own waiting when it is the holder. */
  lemma LandingServes(s: Side, landed: Side, u: nat, id: nat)
    requires Inv(s) && OnUnit(s, u, id) && !JobOn(s.units[u], id).landed
    requires landed == s.(units :=
      s.units[u := WithJob(s.units[u], JobOn(s.units[u], id).(landed := true, landingTicks := Some(s.now)))])
    ensures forall v, i :: InService(landed, v, i) <==> InService(s, v, i)
    ensures forall v, i ::
      AwaitsSlot(landed, v, i) <==> AwaitsSlot(s, v, i) || (v == u && i == id && s.units[u].holder == Some(id))
    ensures DeviceLists(landed, Some(Own(u, id)))
    ensures s.units[u].holder != Some(id) ==> DeviceLists(landed, None)
  {
    UnitReplaced(s, u, landed.units[u]);
  }

  lemma StagedKeeps(s: Side, u: nat, id: nat, staging: Staging)
    requires Inv(s) && OnUnit(s, u, id) && !JobOn(s.units[u], id).landed
    ensures Inv(Staged(s, u, id, staging))
  {
    var job := JobOn(s.units[u], id).(isAsked := true);
    var expected := s.units[u].expectedFree;
    match staging {
      case AtOnce =>
        ResidentChanged(s, u, job, expected);
        assert WithJob(s.units[u], job) == WithJob(s.units[u], job).(expectedFree := expected);
        LandKeeps(s.(units := s.units[u := WithJob(s.units[u], job)]), u, id);
      case Expected(landing) =>
        var landingJob := job.(landingTicks := landing);
        ResidentChanged(s, u, landingJob, expected);
        assert WithJob(s.units[u], landingJob) == WithJob(s.units[u], landingJob).(expectedFree := expected);
    }
  }

  lemma PredictionKeeps(s: Side, u: nat, id: nat)
    requires Inv(s) && OnUnit(s, u, id)
    ensures Inv(s.(units := s.units[u := Predicted(s.units[u], JobOn(s.units[u], id), s.now)]))
  {
    var unit := s.units[u];
    var predicted := Predicted(unit, JobOn(unit, id), s.now);
    ResidentChanged(s, u, JobOn(unit, id), predicted.expectedFree);
    assert WithJob(unit, JobOn(unit, id)).(expectedFree := predicted.expectedFree) == predicted;
  }

  lemma AskKeeps(s: Side, u: nat, id: nat, staging: Staging)
    requires Inv(s) && OnUnit(s, u, id) && !JobOn(s.units[u], id).landed
    ensures Inv(AskForInput(s, u, id, staging))
  {
    StagedKeeps(s, u, id, staging);
    if JobOn(s.units[u], id).claimsAtDispatch {
      PredictionKeeps(Staged(s, u, id, staging), u, id);
    }
  }

  // ----------------------------------------------- taking a slot of a unit

  ghost predicate FitsSlot(s: Side, u: nat, job: Job, claims: bool) {
    && u < |s.units| && |s.units[u].residents| < INPUT_SLOT_COUNT
    && !Holds(s.units[u], job.id) && Untouched(job)
    && (claims <==> u in s.free)
  }

  lemma AdmitPlaces(s: Side, u: nat, job: Job, claims: bool)
    requires Inv(s) && FitsSlot(s, u, job, claims)
    ensures forall v, i :: OnUnit(Admit(s, u, job, claims), v, i) <==> OnUnit(s, v, i) || (v == u && i == job.id)
    ensures forall v, i :: InService(Admit(s, u, job, claims), v, i) <==> InService(s, v, i)
    ensures forall v, i :: AwaitsSlot(Admit(s, u, job, claims), v, i) <==> AwaitsSlot(s, v, i)
  {
    var r := Admit(s, u, job, claims);
    SamePlaces(s.units[u].residents, r.units[u].residents);
  }

  /** A job takes a slot with room; it claims the compute just when the unit was free. */
  lemma AdmitKeeps(s: Side, u: nat, job: Job, claims: bool)
    requires Inv(s) && FitsSlot(s, u, job, claims)
    ensures Inv(Admit(s, u, job, claims))
    ensures OnUnit(Admit(s, u, job, claims), u, job.id) && Untouched(JobOn(Admit(s, u, job, claims).units[u], job.id))
  {
    var r := Admit(s, u, job, claims);
    AdmitPlaces(s, u, job, claims);
    DeviceKept(s, r, None);
    SamePlaces(s.units[u].residents, r.units[u].residents);
    assert PlaceOf(r.units[u].residents, job.id) == |s.units[u].residents|;
  }

  lemma DispatchToKeeps(s: Side, u: nat, job: Job, claims: bool, staging: Staging)
    requires Inv(s) && FitsSlot(s, u, job, claims)
    ensures Inv(DispatchTo(s, u, job, claims, staging))
  {
    AdmitKeeps(s, u, job, claims);
    if s.dispatchIsFree {
      AskKeeps(Admit(s, u, job, claims), u, job.id, staging);
    }
  }

  // ----------------------------------------------- leaving a unit

  lemma {:induction false} OldestMeaning(residents: seq<Job>, landed: bool)
    ensures match OldestResident(residents, landed)
      case Some(id) => exists p | 0 <= p < |residents| ::
        residents[p].id == id && !residents[p].IsPastStart() && residents[p].landed == landed
      case None => forall p | 0 <= p < |residents| :: residents[p].IsPastStart() || residents[p].landed != landed
  {
    if residents != [] {
      OldestMeaning(residents[1..], landed);
      if OldestResident(residents[1..], landed).Some? {
        var p :| 0 <= p < |residents[1..]| && residents[1..][p].id == OldestResident(residents[1..], landed).value &&
          !residents[1..][p].IsPastStart() && residents[1..][p].landed == landed;
        assert residents[p + 1] == residents[1..][p];
      }
      assert forall p | 1 <= p < |residents| :: residents[p] == residents[1..][p - 1];
    }
  }

  /** The unit's compute passes to the oldest landed resident, is reserved for one in flight,
      or returns to the pool. */
  lemma OfferComputeKeeps(s: Side, u: nat)
    requires Within(s, Some(u), None) && u < |s.units| && s.units[u].holder.None?
    ensures Inv(OfferCompute(s, u))
  {
    var unit := s.units[u];
    var ready := OldestResident(unit.residents, true);
    var landing := OldestResident(unit.residents, false);
    OldestMeaning(unit.residents, true);
    OldestMeaning(unit.residents, false);
    if ready.Some? {
      var claimed := s.(units := s.units[u := unit.(holder := ready)]);
      ClaimKeeps(s, u, ready.value, unit.expectedFree);
      assert unit.(holder := ready) == unit.(holder := ready, expectedFree := unit.expectedFree);
      BeginKeeps(claimed, u, ready.value, None);
    } else if landing.Some? {
      var reserved := unit.(holder := landing);
      var predicted := Predicted(reserved, JobOn(reserved, landing.value), s.now);
      ClaimKeeps(s, u, landing.value, predicted.expectedFree);
      assert predicted == unit.(holder := landing, expectedFree := predicted.expectedFree);
    }
  }

  /** A resident claims the passing compute: in order but for the decode about to begin. */
  lemma ClaimKeeps(s: Side, u: nat, id: nat, expected: Ticks)
    requires Within(s, Some(u), None) && u < |s.units| && s.units[u].holder.None?
    requires OnUnit(s, u, id)
    ensures var r := s.(units := s.units[u := s.units[u].(holder := Some(id), expectedFree := expected)]);
      var job := JobOn(s.units[u], id);
      && JobOn(r.units[u], id) == job
      && Within(r, None, if job.landed then Some(Own(u, id)) else None)
      && (job.landed ==> AwaitsSlot(r, u, id))
  {
    var r := s.(units := s.units[u := s.units[u].(holder := Some(id), expectedFree := expected)]);
    UnitReplaced(s, u, r.units[u]);
    var job := JobOn(s.units[u], id);
    assert forall v, i :: InService(r, v, i) <==> InService(s, v, i);
    assert forall v, i :: AwaitsSlot(r, v, i) <==> AwaitsSlot(s, v, i) || (v == u && i == id && job.landed);
  }

  /** The unit the job left: in order, and no other job's place or service changed. */
  lemma LeftPlaces(unit: Unit, id: nat)
    requires UnitOk(unit) && Holds(unit, id)
    ensures UnitOk(Left(unit, id)) && !Holds(Left(unit, id), id)
    ensures forall i | i != id :: Holds(Left(unit, id), i) <==> Holds(unit, i)
    ensures forall i | i != id && Holds(unit, i) ::
      Holds(Left(unit, id), i) && JobOn(Left(unit, id), i) == JobOn(unit, i)
    ensures Left(unit, id).holder == if unit.holder == Some(id) then None else unit.holder
  {
    var left := Left(unit, id);
    var p := PlaceOf(unit.residents, id);
    assert left.residents == unit.residents[..p] + unit.residents[p + 1..];
    assert forall r | 0 <= r < |left.residents| :: left.residents[r] == unit.residents[if r < p then r else r + 1];
    forall i: nat | i != id
      ensures Holds(left, i) <==> Holds(unit, i)
      ensures Holds(unit, i) ==> Holds(left, i) && JobOn(left, i) == JobOn(unit, i)
    {
      var q := PlaceOf(unit.residents, i);
      if q < |unit.residents| {
        assert unit.residents[q] == left.residents[if q < p then q else q - 1];
      }
      var l := PlaceOf(left.residents, i);
      assert l < |left.residents| ==> left.residents[l] == unit.residents[if l < p then l else l + 1];
    }
  }

  /** The waiting decodes start one by one until no slot is free or none waits. */
  lemma {:induction false} StartWaitingKeeps(s: Side, passing: Option<nat>)
    requires UnitsOk(s, passing) && FreeOk(s, passing) && QueueOk(s) && DeviceLists(s, None) && WaitingOnUnits(s)
    ensures Within(StartWaiting(s), passing, None)
    ensures forall u | 0 <= u < |s.units| :: StartWaiting(s).units[u].holder == s.units[u].holder
    decreases if s.device.Some? then |s.device.value.waiting| else 0
  {
    if s.device.Some? {
      var d := s.device.value;
      if d.waiting != [] && |d.running| < d.slotCount {
        var granted := s.(device := Some(d.(running := d.running + [d.waiting[0]], waiting := d.waiting[1..])));
        assert d.waiting[0] in d.waiting;
        match d.waiting[0] {
          case Foreign(_) =>
            GrantForeign(s, granted);
            StartWaitingKeeps(granted, passing);
          case Own(u, id) =>
            GrantedStarts(s, granted, u, id, passing);
            StartWaitingKeeps(Start(granted, u, id), passing);
        }
      }
    }
  }

  /** The oldest waiting decode moves to the running ones. */
  ghost predicate Grants(s: Side, granted: Side) {
    && s.device.Some? && s.device.value.waiting != []
    && |s.device.value.running| < s.device.value.slotCount
    && granted == s.(device := Some(Device(
      s.device.value.slotCount,
      s.device.value.running + [s.device.value.waiting[0]],
      s.device.value.waiting[1..])))
  }

  lemma GrantForeign(s: Side, granted: Side)
    requires DeviceLists(s, None) && WaitingOnUnits(s) && Grants(s, granted) && s.device.value.waiting[0].Foreign?
    ensures DeviceLists(granted, None) && WaitingOnUnits(granted)
  {
    DistinctTail(s.device.value.waiting);
    DistinctGrows(s.device.value.running, s.device.value.waiting[0]);
    DeviceMoved(s, granted);
  }

  lemma DeviceMoved(s: Side, granted: Side)
    requires Grants(s, granted)
    ensures forall v, i :: InService(granted, v, i) <==> InService(s, v, i)
    ensures forall v, i :: AwaitsSlot(granted, v, i) <==> AwaitsSlot(s, v, i)
    ensures forall v, i :: OnUnit(granted, v, i) <==> OnUnit(s, v, i)
  {
  }

  lemma GrantOwn(s: Side, granted: Side, u: nat, id: nat)
    requires DeviceLists(s, None) && WaitingOnUnits(s) && Grants(s, granted) && s.device.value.waiting[0] == Own(u, id)
    requires OnUnit(granted, u, id)
    requires var r := Start(granted, u, id);
      && r.device == granted.device
      && (forall v, i :: InService(r, v, i) <==> InService(granted, v, i) || (v == u && i == id))
      && (forall v, i :: AwaitsSlot(r, v, i) <==> AwaitsSlot(granted, v, i) && (v != u || i != id))
    ensures DeviceLists(Start(granted, u, id), None) && WaitingOnUnits(Start(granted, u, id))
  {
    DistinctTail(s.device.value.waiting);
    DistinctGrows(s.device.value.running, s.device.value.waiting[0]);
    DeviceMoved(s, granted);
  }

  lemma GrantedStarts(s: Side, granted: Side, u: nat, id: nat, passing: Option<nat>)
    requires UnitsOk(s, passing) && FreeOk(s, passing) && QueueOk(s) && DeviceLists(s, None) && WaitingOnUnits(s)
    requires Grants(s, granted) && s.device.value.waiting[0] == Own(u, id)
    ensures AwaitsSlot(granted, u, id)
    ensures var r := Start(granted, u, id);
      && UnitsOk(r, passing) && FreeOk(r, passing) && QueueOk(r) && DeviceLists(r, None) && WaitingOnUnits(r)
      && r.device == granted.device
  {
    assert s.device.value.waiting[0] in s.device.value.waiting;
    StartKeeps(granted, u, id, passing, None);
    GrantOwn(s, granted, u, id);
  }

  /** The unit is left: its compute passes on if the job held it. */
  lemma LeaveKeeps(s: Side, u: nat, id: nat)
    requires Inv(s) && OnUnit(s, u, id)
    ensures var r := LeaveUnit(s, u, id);
      var passing := if s.units[u].holder == Some(id) then Some(u) else None;
      && UnitsOk(r, passing) && FreeOk(r, passing) && QueueOk(r) && r.device == s.device
      && (forall v, i :: InService(r, v, i) <==> InService(s, v, i) && (v != u || i != id))
      && (forall v, i :: AwaitsSlot(r, v, i) <==> AwaitsSlot(s, v, i) && (v != u || i != id))
      && (forall v, i :: OnUnit(r, v, i) <==> OnUnit(s, v, i) && (v != u || i != id))
      && r.units[u].holder == if s.units[u].holder == Some(id) then None else s.units[u].holder
  {
    LeftPlaces(s.units[u], id);
  }

  /** A decode in service ends: its unit's compute and its slot of the device pass on. */
  lemma FreeKeeps(s: Side, u: nat, id: nat)
    requires Inv(s) && InService(s, u, id)
    ensures WaitingOnUnits(LeaveUnit(s, u, id))
    ensures s.device.Some? ==> Own(u, id) in s.device.value.running
    ensures Inv(Free(s, u, id))
  {
    var left := LeaveUnit(s, u, id);
    LeaveKeeps(s, u, id);
    assert WaitingOnUnits(left);
    var back := GiveBack(left, Own(u, id));
    match s.device {
      case None =>
      case Some(d) =>
        var returned := left.(device := Some(d.(running := Without(d.running, Own(u, id)))));
        DeviceAfterReturn(s, left, returned, u, id);
        StartWaitingKeeps(returned, Some(u));
    }
    OfferComputeKeeps(back, u);
  }

  lemma DeviceAfterReturn(s: Side, left: Side, returned: Side, u: nat, id: nat)
    requires Inv(s) && InService(s, u, id) && s.device.Some? && left.device == s.device
    requires forall v, i :: InService(left, v, i) <==> InService(s, v, i) && (v != u || i != id)
    requires forall v, i :: AwaitsSlot(left, v, i) <==> AwaitsSlot(s, v, i) && (v != u || i != id)
    requires returned == left.(device := Some(s.device.value.(running := Without(s.device.value.running, Own(u, id)))))
    ensures DeviceLists(returned, None)
  {
    assert forall v, i :: InService(returned, v, i) <==> InService(left, v, i);
    assert forall v, i :: AwaitsSlot(returned, v, i) <==> AwaitsSlot(left, v, i);
  }

  /** A job leaves its slot before its decode started: whatever it held passes on. */
  lemma EvictKeeps(s: Side, u: nat, id: nat)
    requires Inv(s) && OnUnit(s, u, id) && !JobOn(s.units[u], id).started
    ensures Inv(Evict(s, u, id))
  {
    var withdrawn := Withdraw(s, Own(u, id));
    var left := LeaveUnit(withdrawn, u, id);
    LeaveKeeps(s, u, id);
    DeviceAfterWithdrawal(s, left, u, id);
    if s.units[u].holder == Some(id) {
      OfferComputeKeeps(left, u);
    }
  }

  lemma DeviceAfterWithdrawal(s: Side, left: Side, u: nat, id: nat)
    requires Inv(s) && OnUnit(s, u, id) && !JobOn(s.units[u], id).started
    requires left == LeaveUnit(Withdraw(s, Own(u, id)), u, id)
    ensures DeviceLists(left, None) && DeviceFull(left)
  {
    LeaveKeeps(s, u, id);
    var same := LeaveUnit(s, u, id);
    assert left.units == same.units;
    assert forall v, i :: InService(left, v, i) <==> InService(same, v, i);
    assert forall v, i :: AwaitsSlot(left, v, i) <==> AwaitsSlot(same, v, i);
  }

  // ----------------------------------------------- the other pools' decodes

  lemma ForeignTakeKeeps(s: Side, name: nat)
    requires Inv(s) && s.device.Some? && Foreign(name) !in s.device.value.running
    requires Foreign(name) !in s.device.value.waiting
    ensures Inv(ForeignTake(s, name))
  {
    var r := ForeignTake(s, name);
    DistinctGrows(s.device.value.running, Foreign(name));
    DistinctGrows(s.device.value.waiting, Foreign(name));
    assert forall v, i :: InService(r, v, i) <==> InService(s, v, i);
    assert forall v, i :: AwaitsSlot(r, v, i) <==> AwaitsSlot(s, v, i);
  }

  lemma ForeignReturnKeeps(s: Side, name: nat)
    requires Inv(s) && s.device.Some? && Foreign(name) in s.device.value.running
    ensures WaitingOnUnits(s) && Inv(GiveBack(s, Foreign(name)))
  {
    var d := s.device.value;
    var returned := s.(device := Some(d.(running := Without(d.running, Foreign(name)))));
    assert forall v, i :: InService(returned, v, i) <==> InService(s, v, i);
    assert forall v, i :: AwaitsSlot(returned, v, i) <==> AwaitsSlot(s, v, i);
    assert WaitingOnUnits(returned);
    StartWaitingKeeps(returned, None);
  }

  lemma ForeignWithdrawKeeps(s: Side, name: nat)
    requires Inv(s)
    ensures Inv(Withdraw(s, Foreign(name)))
  {
    var r := Withdraw(s, Foreign(name));
    assert forall v, i :: InService(r, v, i) <==> InService(s, v, i);
    assert forall v, i :: AwaitsSlot(r, v, i) <==> AwaitsSlot(s, v, i);
  }
}
