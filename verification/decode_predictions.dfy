/** When a unit is expected to free, over every run: the tick its decode started, or its input is
    expected to land, and the decode's declared time after it.
 */
module DecodePredictions {
  import opened Options
  import opened Lists
  import opened DecoderPools
  import opened DecodeSteps
  import opened DecodeInvariant
  import opened DecodeRuns

  // ------------------------------------------------------- what is expected

  /** The log has the decode's start, and the unit frees its declared time after it. */
  ghost predicate EndsAsStarted(log: seq<Started>, job: Job, expected: Ticks) {
    exists i | 0 <= i < |log| ::
      log[i].job == job.id &&
      expected == if job.occupancy.Finite? then Finite(log[i].tick + job.occupancy.ticks) else Unbounded
  }

  ghost predicate IsComing(job: Job, now: int, asksAtDispatch: bool) {
    && !job.landed && job.landingTicks.Some? && job.landingTicks.value > now
    && (asksAtDispatch || job.claimsAtDispatch)
  }

  /** A holder in service ends its declared time after its start; one whose input is expected
      later than now ends its declared time after the landing. */
  ghost predicate ExpectedFor(job: Job, expected: Ticks, now: int, asksAtDispatch: bool, log: seq<Started>) {
    && (job.started ==> EndsAsStarted(log, job, expected))
    && (IsComing(job, now, asksAtDispatch) ==>
          expected ==
          if job.occupancy.Finite? then Finite(job.landingTicks.value + job.occupancy.ticks) else Unbounded)
  }

  /** A landed input landed by now, a job that claimed its unit at dispatch holds it, and where
      inputs move at dispatch each but one has been asked for. */
  ghost predicate JobTimed(job: Job, holder: Option<nat>, now: int, asksAtDispatch: bool, but: Option<nat>) {
    && (job.landed ==> job.landingTicks.Some? && job.landingTicks.value <= now)
    && (job.claimsAtDispatch ==> holder == Some(job.id))
    && (asksAtDispatch && but != Some(job.id) ==> job.isAsked)
  }

  ghost predicate UnitTimed(unit: Unit, now: int, asksAtDispatch: bool, log: seq<Started>, but: Option<nat>) {
    && (forall p | 0 <= p < |unit.residents| :: JobTimed(unit.residents[p], unit.holder, now, asksAtDispatch, but))
    && (unit.holder.Some? && Holds(unit, unit.holder.value) ==>
          ExpectedFor(JobOn(unit, unit.holder.value), unit.expectedFree, now, asksAtDispatch, log))
  }

  ghost predicate TimedOn(s: Side, u: nat, but: Option<nat>)
    requires u < |s.units|
  {
    UnitTimed(s.units[u], s.now, s.dispatchIsFree, s.startLog, but)
  }

  ghost predicate Timed(s: Side) {
    && (forall u | 0 <= u < |s.units| :: TimedOn(s, u, None))
    && (forall p | 0 <= p < |s.waiting| :: s.waiting[p].landingTicks.None?)
  }

  /** Only one unit changes, and the log grows. */
  ghost predicate ChangesUnit(s: Side, r: Side, u: nat) {
    && r.now == s.now && r.dispatchIsFree == s.dispatchIsFree && r.waiting == s.waiting
    && |r.units| == |s.units| && (forall v | 0 <= v < |s.units| && v != u :: r.units[v] == s.units[v])
    && s.startLog <= r.startLog
  }

  lemma ChangedUnitTimed(s: Side, r: Side, u: nat)
    requires forall v | 0 <= v < |s.units| && v != u :: TimedOn(s, v, None)
    requires forall p | 0 <= p < |s.waiting| :: s.waiting[p].landingTicks.None?
    requires ChangesUnit(s, r, u) && (u < |r.units| ==> TimedOn(r, u, None))
    ensures Timed(r)
  {
    forall v | 0 <= v < |r.units| ensures TimedOn(r, v, None) {
      if v != u {
        assert TimedOn(s, v, None);
        LogGrows(s.units[v], s.now, s.dispatchIsFree, s.startLog, r.startLog);
      }
    }
  }

  lemma LogGrows(unit: Unit, now: int, asksAtDispatch: bool, log: seq<Started>, more: seq<Started>)
    requires UnitTimed(unit, now, asksAtDispatch, log, None) && log <= more
    ensures UnitTimed(unit, now, asksAtDispatch, more, None)
  {
    if unit.holder.Some? && Holds(unit, unit.holder.value) && JobOn(unit, unit.holder.value).started {
      var job := JobOn(unit, unit.holder.value);
      var i :| 0 <= i < |log| && log[i].job == job.id &&
        unit.expectedFree == if job.occupancy.Finite? then Finite(log[i].tick + job.occupancy.ticks) else Unbounded;
      assert more[i] == log[i];
      assert EndsAsStarted(more, job, unit.expectedFree);
    }
  }

  // ------------------------------------------------------------ one decode

  lemma StartTimed(s: Side, u: nat, id: nat)
    requires u < |s.units| && UnitOk(s.units[u]) && AwaitsSlot(s, u, id) && TimedOn(s, u, None)
    ensures ChangesUnit(s, Start(s, u, id), u) && TimedOn(Start(s, u, id), u, None)
    ensures Start(s, u, id).units[u].expectedFree == Finite(s.now).Plus(JobOn(s.units[u], id).occupancy)
  {
    var job := JobOn(s.units[u], id).(started := true);
    var r := Start(s, u, id);
    var p := PlaceOf(s.units[u].residents, id);
    assert JobTimed(s.units[u].residents[p], s.units[u].holder, s.now, s.dispatchIsFree, None);
    assert r.startLog[|s.startLog|] == Started(id, s.now);
    assert EndsAsStarted(r.startLog, job, r.units[u].expectedFree);
    assert JobOn(r.units[u], id) == job;
    forall q | 0 <= q < |r.units[u].residents|
      ensures JobTimed(r.units[u].residents[q], r.units[u].holder, s.now, s.dispatchIsFree, None)
    {
      assert JobTimed(s.units[u].residents[q], s.units[u].holder, s.now, s.dispatchIsFree, None);
    }
  }

  lemma BeginTimed(s: Side, u: nat, id: nat)
    requires u < |s.units| && UnitOk(s.units[u]) && AwaitsSlot(s, u, id) && TimedOn(s, u, None)
    ensures ChangesUnit(s, Begin(s, u, id), u) && TimedOn(Begin(s, u, id), u, None)
  {
    match s.device {
      case None => StartTimed(s, u, id);
      case Some(d) =>
        if |d.running| < d.slotCount {
          StartTimed(s.(device := Some(d.(running := d.running + [Own(u, id)]))), u, id);
        }
    }
  }

  /** The unit with one resident's record replaced. */
  lemma RecordTimed(s: Side, u: nat, job: Job, expected: Ticks, but: Option<nat>, after: Option<nat>)
    requires u < |s.units| && UnitOk(s.units[u]) && Holds(s.units[u], job.id) && TimedOn(s, u, but)
    requires after == but || (after.None? && but == Some(job.id))
    requires JobTimed(job, s.units[u].holder, s.now, s.dispatchIsFree, after)
    requires s.units[u].holder == Some(job.id) ==> ExpectedFor(job, expected, s.now, s.dispatchIsFree, s.startLog)
    requires s.units[u].holder != Some(job.id) ==> expected == s.units[u].expectedFree
    ensures TimedOn(s.(units := s.units[u := WithJob(s.units[u], job).(expectedFree := expected)]), u, after)
  {
    var unit := s.units[u];
    var p := PlaceOf(unit.residents, job.id);
    var r := WithJob(unit, job).(expectedFree := expected);
    forall q | 0 <= q < |r.residents|
      ensures JobTimed(r.residents[q], r.holder, s.now, s.dispatchIsFree, after)
    {
      assert JobTimed(unit.residents[q], unit.holder, s.now, s.dispatchIsFree, but);
      if q != p {
        assert unit.residents[q].id != unit.residents[p].id;
      }
    }
    if unit.holder.Some? && Holds(unit, unit.holder.value) && unit.holder != Some(job.id) {
      assert JobOn(r, unit.holder.value) == JobOn(unit, unit.holder.value);
    }
  }

  lemma LandTimed(s: Side, u: nat, id: nat)
    requires OnUnit(s, u, id) && UnitOk(s.units[u]) && JobOn(s.units[u], id).isAsked && !JobOn(s.units[u], id).landed
    requires TimedOn(s, u, None)
    ensures ChangesUnit(s, Land(s, u, id), u) && TimedOn(Land(s, u, id), u, None)
    ensures JobOn(Land(s, u, id).units[u], id).started ==>
      s.units[u].holder == Some(id) &&
      Land(s, u, id).units[u].expectedFree == Finite(s.now).Plus(JobOn(s.units[u], id).occupancy)
    ensures var job := JobOn(Land(s, u, id).units[u], id);
      job == JobOn(s.units[u], id).(landed := true, landingTicks := Some(s.now), started := job.started)
    ensures UnitOk(Land(s, u, id).units[u]) && Land(s, u, id).units[u].holder == s.units[u].holder
  {
    var was := JobOn(s.units[u], id);
    var p := PlaceOf(s.units[u].residents, id);
    assert ResidentOk(s.units[u].residents[p], s.units[u].holder);
    assert JobTimed(s.units[u].residents[p], s.units[u].holder, s.now, s.dispatchIsFree, None);
    var job := was.(landed := true, landingTicks := Some(s.now));
    var unit := WithJob(s.units[u], job);
    var landed := s.(units := s.units[u := unit]);
    assert unit == unit.(expectedFree := s.units[u].expectedFree);
    RecordTimed(s, u, job, s.units[u].expectedFree, None, None);
    LandedUnit(s.units[u], job);
    if s.units[u].holder == Some(id) {
      assert AwaitsSlot(landed, u, id);
      BeginTimed(landed, u, id);
      BegunUnit(landed, u, id);
    }
  }

  lemma LandedUnit(unit: Unit, job: Job)
    requires UnitOk(unit) && Holds(unit, job.id) && JobOn(unit, job.id).isAsked && !JobOn(unit, job.id).started
    requires job == JobOn(unit, job.id).(landed := true, landingTicks := job.landingTicks)
    ensures UnitOk(WithJob(unit, job))
  {
  }

  lemma StartedUnit(s: Side, u: nat, id: nat)
    requires u < |s.units| && UnitOk(s.units[u]) && AwaitsSlot(s, u, id)
    requires JobOn(s.units[u], id).landingTicks == Some(s.now)
    ensures var r := Start(s, u, id).units[u];
      && Holds(r, id) && UnitOk(r) && r.holder == s.units[u].holder
      && JobOn(r, id) == JobOn(s.units[u], id).(started := true)
      && r.expectedFree == Finite(s.now).Plus(JobOn(s.units[u], id).occupancy)
  {
  }

  lemma BegunUnit(s: Side, u: nat, id: nat)
    requires u < |s.units| && UnitOk(s.units[u]) && AwaitsSlot(s, u, id)
    requires JobOn(s.units[u], id).landingTicks == Some(s.now)
    ensures var r := Begin(s, u, id).units[u];
      && Holds(r, id) && UnitOk(r) && r.holder == s.units[u].holder
      && JobOn(r, id) == JobOn(s.units[u], id).(started := JobOn(r, id).started)
      && (JobOn(r, id).started ==> r.expectedFree == Finite(s.now).Plus(JobOn(s.units[u], id).occupancy))
  {
    match s.device {
      case None => StartedUnit(s, u, id);
      case Some(d) =>
        if |d.running| < d.slotCount {
          StartedUnit(s.(device := Some(d.(running := d.running + [Own(u, id)]))), u, id);
        }
    }
  }

  lemma AskTimed(s: Side, u: nat, id: nat, staging: Staging)
    requires OnUnit(s, u, id) && UnitOk(s.units[u]) && !JobOn(s.units[u], id).landed
    requires TimedOn(s, u, if s.dispatchIsFree then Some(id) else None)
    requires s.dispatchIsFree && s.units[u].holder == Some(id) ==> JobOn(s.units[u], id).claimsAtDispatch
    ensures ChangesUnit(s, AskForInput(s, u, id, staging), u) && TimedOn(AskForInput(s, u, id, staging), u, None)
  {
    match staging {
      case AtOnce => AskAtOnceTimed(s, u, id);
      case Expected(landing) => AskComingTimed(s, u, id, landing);
    }
  }

  lemma AskedTimed(s: Side, u: nat, id: nat)
    requires OnUnit(s, u, id) && UnitOk(s.units[u]) && !JobOn(s.units[u], id).landed
    requires TimedOn(s, u, if s.dispatchIsFree then Some(id) else None)
    requires s.dispatchIsFree && s.units[u].holder == Some(id) ==> JobOn(s.units[u], id).claimsAtDispatch
    ensures var asked := s.(units := s.units[u := WithJob(s.units[u], JobOn(s.units[u], id).(isAsked := true))]);
      UnitOk(asked.units[u]) && TimedOn(asked, u, None)
    ensures JobOn(s.units[u], id).claimsAtDispatch ==> s.units[u].holder == Some(id)
  {
    var was := JobOn(s.units[u], id);
    var p := PlaceOf(s.units[u].residents, id);
    var but := if s.dispatchIsFree then Some(id) else None;
    assert ResidentOk(s.units[u].residents[p], s.units[u].holder);
    assert JobTimed(s.units[u].residents[p], s.units[u].holder, s.now, s.dispatchIsFree, but);
    var job := was.(isAsked := true);
    var unit := WithJob(s.units[u], job);
    assert unit == unit.(expectedFree := s.units[u].expectedFree);
    RecordTimed(s, u, job, s.units[u].expectedFree, but, None);
  }

  /** The prediction renewed for a holder that has landed. */
  lemma RenewedTimed(s: Side, u: nat, id: nat)
    requires OnUnit(s, u, id) && UnitOk(s.units[u]) && TimedOn(s, u, None) && s.units[u].holder == Some(id)
    requires JobOn(s.units[u], id).landed && JobOn(s.units[u], id).landingTicks == Some(s.now)
    requires JobOn(s.units[u], id).started ==>
      s.units[u].expectedFree == Finite(s.now).Plus(JobOn(s.units[u], id).occupancy)
    ensures TimedOn(s.(units := s.units[u := Predicted(s.units[u], JobOn(s.units[u], id), s.now)]), u, None)
  {
    var unit := s.units[u];
    var job := JobOn(unit, id);
    var p := PlaceOf(unit.residents, id);
    assert JobTimed(unit.residents[p], unit.holder, s.now, s.dispatchIsFree, None);
    RecordTimed(s, u, job, Finite(s.now).Plus(job.occupancy), None, None);
    assert WithJob(unit, job) == unit;
  }

  lemma AskAtOnceTimed(s: Side, u: nat, id: nat)
    requires OnUnit(s, u, id) && UnitOk(s.units[u]) && !JobOn(s.units[u], id).landed
    requires TimedOn(s, u, if s.dispatchIsFree then Some(id) else None)
    requires s.dispatchIsFree && s.units[u].holder == Some(id) ==> JobOn(s.units[u], id).claimsAtDispatch
    ensures ChangesUnit(s, AskForInput(s, u, id, AtOnce), u) && TimedOn(AskForInput(s, u, id, AtOnce), u, None)
  {
    AskedTimed(s, u, id);
    var asked := s.(units := s.units[u := WithJob(s.units[u], JobOn(s.units[u], id).(isAsked := true))]);
    LandTimed(asked, u, id);
    if JobOn(s.units[u], id).claimsAtDispatch {
      RenewedTimed(Land(asked, u, id), u, id);
    }
  }

  lemma AskComingTimed(s: Side, u: nat, id: nat, landing: Option<int>)
    requires OnUnit(s, u, id) && UnitOk(s.units[u]) && !JobOn(s.units[u], id).landed
    requires TimedOn(s, u, if s.dispatchIsFree then Some(id) else None)
    requires s.dispatchIsFree && s.units[u].holder == Some(id) ==> JobOn(s.units[u], id).claimsAtDispatch
    ensures ChangesUnit(s, AskForInput(s, u, id, Expected(landing)), u)
    ensures TimedOn(AskForInput(s, u, id, Expected(landing)), u, None)
  {
    var was := JobOn(s.units[u], id);
    var p := PlaceOf(s.units[u].residents, id);
    var but := if s.dispatchIsFree then Some(id) else None;
    assert ResidentOk(s.units[u].residents[p], s.units[u].holder);
    assert JobTimed(s.units[u].residents[p], s.units[u].holder, s.now, s.dispatchIsFree, but);
    var job := was.(isAsked := true, landingTicks := landing);
    var unit := WithJob(s.units[u], job);
    var expected := if was.claimsAtDispatch then Predicted(unit, job, s.now).expectedFree else unit.expectedFree;
    RecordTimed(s, u, job, expected, but, None);
    assert AskForInput(s, u, id, Expected(landing)).units == s.units[u := unit.(expectedFree := expected)];
  }

  // ------------------------------------------------------- slots and claims

  lemma AdmitTimed(s: Side, u: nat, job: Job, claims: bool)
    requires Inv(s) && FitsSlot(s, u, job, claims) && TimedOn(s, u, None) && job.landingTicks.None?
    ensures ChangesUnit(s, Admit(s, u, job, claims), u)
    ensures TimedOn(Admit(s, u, job, claims), u, if s.dispatchIsFree then Some(job.id) else None)
    ensures Admit(s, u, job, claims).units[u].holder == Some(job.id) ==>
      JobOn(Admit(s, u, job, claims).units[u], job.id).claimsAtDispatch
  {
    var r := Admit(s, u, job, claims);
    var before, after := s.units[u], r.units[u];
    SamePlaces(before.residents, after.residents);
    assert PlaceOf(after.residents, job.id) == |before.residents|;
    assert UnitOk(before);
    forall q | 0 <= q < |after.residents|
      ensures JobTimed(
        after.residents[q], after.holder, s.now, s.dispatchIsFree, if s.dispatchIsFree then Some(job.id) else None)
    {
      if q < |before.residents| {
        assert JobTimed(before.residents[q], before.holder, s.now, s.dispatchIsFree, None);
      }
    }
    if !claims {
      assert before.holder.Some? && Holds(before, before.holder.value) && before.holder != Some(job.id);
      assert JobOn(after, before.holder.value) == JobOn(before, before.holder.value);
    }
  }

  lemma DispatchToTimed(s: Side, u: nat, job: Job, claims: bool, staging: Staging)
    requires Inv(s) && Timed(s) && FitsSlot(s, u, job, claims) && job.landingTicks.None?
    ensures Timed(DispatchTo(s, u, job, claims, staging))
  {
    assert TimedOn(s, u, None);
    AdmitTimed(s, u, job, claims);
    AdmitKeeps(s, u, job, claims);
    var admitted := Admit(s, u, job, claims);
    if s.dispatchIsFree {
      AskTimed(admitted, u, job.id, staging);
    }
    ChangedUnitTimed(s, DispatchTo(s, u, job, claims, staging), u);
  }

  /** The compute passes on to a landed resident, or is reserved until the one in flight is done. */
  lemma OfferComputeTimed(s: Side, u: nat)
    requires Within(s, Some(u), None) && u < |s.units| && s.units[u].holder.None? && Timed(s)
    ensures Timed(OfferCompute(s, u))
  {
    var unit := s.units[u];
    var ready := OldestResident(unit.residents, true);
    var landing := OldestResident(unit.residents, false);
    OldestMeaning(unit.residents, true);
    OldestMeaning(unit.residents, false);
    assert TimedOn(s, u, None);
    if ready.Some? {
      var claimed := s.(units := s.units[u := unit.(holder := ready)]);
      ClaimKeeps(s, u, ready.value, unit.expectedFree);
      assert unit.(holder := ready) == unit.(holder := ready, expectedFree := unit.expectedFree);
      ClaimTimed(s, u, ready.value, unit.expectedFree);
      BeginTimed(claimed, u, ready.value);
      ChangedUnitTimed(s, OfferCompute(s, u), u);
    } else if landing.Some? {
      var reserved := unit.(holder := landing);
      var predicted := Predicted(reserved, JobOn(reserved, landing.value), s.now);
      OldestIs(unit.residents, false);
      assert predicted == unit.(holder := landing, expectedFree := predicted.expectedFree);
      ClaimTimed(s, u, landing.value, predicted.expectedFree);
      ChangedUnitTimed(s, OfferCompute(s, u), u);
    } else {
      ChangedUnitTimed(s, OfferCompute(s, u), u);
    }
  }

  lemma {:induction false} OldestIs(residents: seq<Job>, landed: bool)
    requires OldestResident(residents, landed).Some?
    requires forall p, q | 0 <= p < q < |residents| :: residents[p].id != residents[q].id
    ensures var job := residents[PlaceOf(residents, OldestResident(residents, landed).value)];
      !job.IsPastStart() && job.landed == landed
  {
    if residents[0].IsPastStart() || residents[0].landed != landed {
      OldestIs(residents[1..], landed);
      var id := OldestResident(residents[1..], landed).value;
      var p := PlaceOf(residents[1..], id);
      assert residents[p + 1].id == id;
    }
  }

  lemma ClaimTimed(s: Side, u: nat, id: nat, expected: Ticks)
    requires OnUnit(s, u, id) && s.units[u].holder.None? && TimedOn(s, u, None)
    requires ExpectedFor(JobOn(s.units[u], id), expected, s.now, s.dispatchIsFree, s.startLog)
    ensures TimedOn(s.(units := s.units[u := s.units[u].(holder := Some(id), expectedFree := expected)]), u, None)
  {
    var unit := s.units[u].(holder := Some(id), expectedFree := expected);
    forall q | 0 <= q < |unit.residents|
      ensures JobTimed(unit.residents[q], unit.holder, s.now, s.dispatchIsFree, None)
    {
      assert JobTimed(s.units[u].residents[q], s.units[u].holder, s.now, s.dispatchIsFree, None);
    }
  }

  // ------------------------------------------------------- leaving a unit

  lemma LeftTimed(s: Side, r: Side, u: nat, id: nat)
    requires OnUnit(s, u, id) && UnitOk(s.units[u]) && Timed(s) && ChangesUnit(s, r, u)
    requires r.units[u] == Left(s.units[u], id) && r.startLog == s.startLog
    ensures Timed(r)
  {
    assert TimedOn(s, u, None);
    var unit, left := s.units[u], Left(s.units[u], id);
    var p := PlaceOf(unit.residents, id);
    LeftPlaces(unit, id);
    forall q | 0 <= q < |left.residents|
      ensures JobTimed(left.residents[q], left.holder, s.now, s.dispatchIsFree, None)
    {
      var q' := if q < p then q else q + 1;
      assert left.residents[q] == unit.residents[q'];
      assert JobTimed(unit.residents[q'], unit.holder, s.now, s.dispatchIsFree, None);
      assert unit.residents[q'].id != unit.residents[p].id;
    }
    ChangedUnitTimed(s, r, u);
  }

  lemma LeaveTimed(s: Side, u: nat, id: nat)
    requires OnUnit(s, u, id) && UnitOk(s.units[u]) && Timed(s)
    ensures Timed(LeaveUnit(s, u, id))
  {
    LeftTimed(s, LeaveUnit(s, u, id), u, id);
  }

  /** Device lists, the queue's order and time apart, nothing changes. */
  lemma QuietTimed(s: Side, r: Side)
    requires Timed(s) && r.units == s.units && r.startLog == s.startLog && r.dispatchIsFree == s.dispatchIsFree
    requires r.now >= s.now && forall p | 0 <= p < |r.waiting| :: r.waiting[p].landingTicks.None?
    ensures Timed(r)
  {
    forall u | 0 <= u < |r.units| ensures TimedOn(r, u, None) {
      assert TimedOn(s, u, None);
      forall p | 0 <= p < |r.units[u].residents|
        ensures JobTimed(r.units[u].residents[p], r.units[u].holder, r.now, r.dispatchIsFree, None)
      {
        assert JobTimed(s.units[u].residents[p], s.units[u].holder, s.now, s.dispatchIsFree, None);
      }
    }
  }

  lemma {:induction false} StartWaitingTimed(s: Side, passing: Option<nat>)
    requires UnitsOk(s, passing) && FreeOk(s, passing) && QueueOk(s) && DeviceLists(s, None) && WaitingOnUnits(s)
    requires Timed(s)
    ensures Timed(StartWaiting(s))
    decreases if s.device.Some? then |s.device.value.waiting| else 0
  {
    if s.device.Some? {
      var d := s.device.value;
      if d.waiting != [] && |d.running| < d.slotCount {
        var granted := s.(device := Some(d.(running := d.running + [d.waiting[0]], waiting := d.waiting[1..])));
        assert d.waiting[0] in d.waiting;
        QuietTimed(s, granted);
        match d.waiting[0] {
          case Foreign(_) =>
            GrantForeign(s, granted);
            StartWaitingTimed(granted, passing);
          case Own(u, id) =>
            StartKeeps(granted, u, id, passing, None);
            GrantOwn(s, granted, u, id);
            GrantedTimed(granted, u, id);
            StartWaitingTimed(Start(granted, u, id), passing);
        }
      }
    }
  }

  lemma GrantedTimed(s: Side, u: nat, id: nat)
    requires u < |s.units| && UnitOk(s.units[u]) && AwaitsSlot(s, u, id) && Timed(s)
    ensures Timed(Start(s, u, id))
  {
    assert TimedOn(s, u, None);
    StartTimed(s, u, id);
    ChangedUnitTimed(s, Start(s, u, id), u);
  }

  lemma FreeTimed(s: Side, u: nat, id: nat)
    requires Inv(s) && InService(s, u, id) && Timed(s)
    ensures WaitingOnUnits(LeaveUnit(s, u, id)) && Timed(Free(s, u, id))
  {
    FreeKeeps(s, u, id);
    assert UnitOk(s.units[u]);
    var left := LeaveUnit(s, u, id);
    LeaveTimed(s, u, id);
    LeaveKeeps(s, u, id);
    var back := GiveBack(left, Own(u, id));
    match s.device {
      case None =>
      case Some(d) =>
        var returned := left.(device := Some(d.(running := Without(d.running, Own(u, id)))));
        DeviceAfterReturn(s, left, returned, u, id);
        QuietTimed(left, returned);
        StartWaitingTimed(returned, Some(u));
        StartWaitingKeeps(returned, Some(u));
    }
    OfferComputeTimed(back, u);
  }

  lemma EvictTimed(s: Side, u: nat, id: nat)
    requires Inv(s) && OnUnit(s, u, id) && !JobOn(s.units[u], id).started && Timed(s)
    ensures Timed(Evict(s, u, id))
  {
    assert UnitOk(s.units[u]);
    var withdrawn := Withdraw(s, Own(u, id));
    QuietTimed(s, withdrawn);
    var left := LeaveUnit(withdrawn, u, id);
    LeaveTimed(withdrawn, u, id);
    LeaveKeeps(s, u, id);
    DeviceAfterWithdrawal(s, left, u, id);
    if s.units[u].holder == Some(id) {
      OfferComputeTimed(left, u);
    }
  }

  // ---------------------------------------------------------------- the steps

  lemma RoundTimed(s: Side, env: Environment, k: nat)
    requires Good(s) && Timed(s)
    ensures Timed(RoundOf(s, env, k).side)
  {
    var ordered := Drain(env.pick, k, s.waiting);
    var drained := s.(waiting := ordered);
    DrainedIsGood(s, env.pick, k);
    DrainKeeps(env.pick, k, s.waiting);
    forall p | 0 <= p < |ordered| ensures ordered[p].landingTicks.None? {
      assert ordered[p] in multiset(ordered);
      assert ordered[p] in s.waiting;
    }
    QuietTimed(s, drained);
    match FirstPlacement(s, ordered, 0, env, k) {
      case NoSelection =>
      case Selected(index, u, claims) => PlaceTimed(s, ordered, index, env, k, u, claims);
    }
  }

  lemma PlaceTimed(s: Side, ordered: seq<Job>, index: nat, env: Environment, k: nat, u: nat, claims: bool)
    requires Good(s.(waiting := ordered)) && Timed(s.(waiting := ordered)) && index < |ordered|
    requires OfferFor(s, ordered[index], env, k) == Placement(u, claims)
    ensures u < |s.units| && Timed(Place(s, ordered, index, u, claims, env))
  {
    var job := ordered[index];
    var drained := s.(waiting := ordered);
    var restored := s.(waiting := ordered[..index] + ordered[index + 1..]);
    OfferMeaning(s.units, s.free, job, s.now, env.ViewOf(k, job.id));
    QueuedIsOnNoUnit(drained, index, u);
    DeviceKept(drained, restored, None);
    QuietTimed(drained, restored);
    DispatchToTimed(restored, u, job, claims, env.staging(job.id));
  }

  lemma DispatchTimed(s: Side, env: Environment)
    requires Good(s) && Timed(s)
    ensures Timed(Dispatch(s, env))
  {
    var rule: Rounds := (t: Side, j: nat) => RoundOf(t, env, j);
    var kept := (t: Side) => Good(t) && Timed(t);
    var reached := (t: Side, j: nat) => true;
    forall t: Side, j: nat | kept(t)
      ensures kept(rule(t, j).side)
    {
      RoundIsGood(t, env, j);
      RoundTimed(t, env, j);
    }
    var last := LoopKeeps(s, rule, 0, kept, reached);
  }

  lemma CancelOneTimed(s: Side, id: nat, env: Environment)
    requires Good(s) && Timed(s)
    ensures Timed(CancelOne(s, id, env))
  {
    var p := PlaceOf(s.waiting, id);
    if p < |s.waiting| {
      QuietTimed(s, CancelOne(s, id, env));
    } else if UnitOf(s.units, id, 0).Some? {
      var u := UnitOf(s.units, id, 0).value;
      if !JobOn(s.units[u], id).completed {
        if !JobOn(s.units[u], id).started {
          EvictTimed(s, u, id);
        } else {
          FreeTimed(s, u, id);
          FreeIsGood(s, u, id);
          DispatchTimed(Free(s, u, id), env);
        }
      }
    }
  }

  lemma {:induction false} CancelAllTimed(s: Side, ids: seq<nat>, env: Environment)
    requires Good(s) && Timed(s)
    ensures Timed(CancelAll(s, ids, env))
    decreases |ids|
  {
    if ids != [] {
      CancelOneIsGood(s, ids[0], env);
      CancelOneTimed(s, ids[0], env);
      CancelAllTimed(CancelOne(s, ids[0], env), ids[1..], env);
    }
  }

  lemma CompletedTimed(s: Side, u: nat, id: nat)
    requires Good(s) && InService(s, u, id) && Timed(s)
    ensures Timed(Completed(s, u, id))
  {
    assert TimedOn(s, u, None) && UnitOk(s.units[u]);
    var job := JobOn(s.units[u], id).(completed := true);
    var p := PlaceOf(s.units[u].residents, id);
    assert JobTimed(s.units[u].residents[p], s.units[u].holder, s.now, s.dispatchIsFree, None);
    assert s.units[u].holder == Some(id) ==>
      ExpectedFor(JobOn(s.units[u], id), s.units[u].expectedFree, s.now, s.dispatchIsFree, s.startLog);
    RecordTimed(s, u, job, s.units[u].expectedFree, None, None);
    assert WithJob(s.units[u], job) == WithJob(s.units[u], job).(expectedFree := s.units[u].expectedFree);
    ChangedUnitTimed(s, Completed(s, u, id), u);
  }

  lemma {:induction false} ReleasedTimed(queue: seq<Job>, jobs: set<nat>, now: int)
    requires forall p | 0 <= p < |queue| :: queue[p].landingTicks.None?
    ensures forall p | 0 <= p < |Released(queue, jobs, now)| :: Released(queue, jobs, now)[p].landingTicks.None?
  {
    if queue != [] {
      ReleasedTimed(queue[1..], jobs, now);
    }
  }

  lemma InputTimed(s: Side, step: Step)
    requires Good(s) && Enabled(s, step) && Timed(s) && (step.InputAsked? || step.InputLanded?)
    ensures Timed(Changed(s, step))
  {
    var u, id := step.unit, step.job;
    assert TimedOn(s, u, None) && UnitOk(s.units[u]);
    var p := PlaceOf(s.units[u].residents, id);
    assert JobTimed(s.units[u].residents[p], s.units[u].holder, s.now, s.dispatchIsFree, None);
    assert ResidentOk(s.units[u].residents[p], s.units[u].holder);
    match step {
      case InputAsked(_, _, staging) => AskTimed(s, u, id, staging);
      case InputLanded(_, _) => LandTimed(s, u, id);
    }
    ChangedUnitTimed(s, Changed(s, step), u);
  }

  lemma ChangedTimed(s: Side, step: Step)
    requires Good(s) && Enabled(s, step) && Timed(s)
    ensures Timed(Changed(s, step))
  {
    match step
    case Advance(tick) => QuietTimed(s, s.(now := tick));
    case Enqueue(occupancy, carriesInput, isStartable, _) =>
      QuietTimed(s, Enqueued(s, occupancy, carriesInput, isStartable));
    case ReleaseWindow(jobs, _) =>
      ReleasedTimed(s.waiting, jobs, s.now);
      QuietTimed(s, s.(waiting := Released(s.waiting, jobs, s.now)));
    case Cancel(requests, env) => CancelAllTimed(s, requests, env);
    case InputAsked(_, _, _) => InputTimed(s, step);
    case InputLanded(_, _) => InputTimed(s, step);
    case DecodeEnded(u, id, _, _) =>
      CompletedIsGood(s, u, id);
      CompletedTimed(s, u, id);
      FreeTimed(Completed(s, u, id), u, id);
    case ResultRead(u, id, _) => FreeTimed(s, u, id);
    case Retry(_) =>
    case OtherTakes(name) => QuietTimed(s, ForeignTake(s, name));
    case OtherReturns(name) => ReturnTimed(s, name);
    case OtherWithdraws(name) => QuietTimed(s, Withdraw(s, Foreign(name)));
  }

  lemma ReturnTimed(s: Side, name: nat)
    requires Good(s) && Timed(s) && s.device.Some? && Foreign(name) in s.device.value.running
    ensures WaitingOnUnits(s) && Timed(GiveBack(s, Foreign(name)))
  {
    ForeignReturnKeeps(s, name);
    var d := s.device.value;
    var returned := s.(device := Some(d.(running := Without(d.running, Foreign(name)))));
    assert forall v, i :: InService(returned, v, i) <==> InService(s, v, i);
    assert forall v, i :: AwaitsSlot(returned, v, i) <==> AwaitsSlot(s, v, i);
    assert WaitingOnUnits(returned);
    QuietTimed(s, returned);
    StartWaitingTimed(returned, None);
  }

  // ----------------------------------------------------------------- the runs

  lemma {:induction false} RunTimed(s: Side, steps: seq<Step>)
    requires Boundary(s) && IsRun(s, steps) && Timed(s)
    ensures Timed(After(s, steps))
    decreases |steps|
  {
    if steps != [] {
      StepKeepsBoundary(s, steps[0]);
      ChangedIsGood(s, steps[0]);
      ChangedTimed(s, steps[0]);
      match DispatcherOf(steps[0]) {
        case Some(env) => DispatchTimed(Changed(s, steps[0]), env);
        case None =>
      }
      RunTimed(Apply(s, steps[0]), steps[1..]);
    }
  }

  /** In every run from the start: a decode in service frees its unit its declared time after its
      logged start; while the input of a unit's holder is still to land, later than now, the unit
      frees the holder's declared time after the landing. Where inputs do not move at dispatch,
      the latter is said of a holder that claimed the unit as it was dispatched. */
  lemma EveryUnitTimed(
    unitCount: nat, slotCount: Option<nat>, dispatchIsFree: bool, steps: seq<Step>, u: nat, id: nat)
    requires IsRunFromStart(unitCount, slotCount, dispatchIsFree, steps)
    requires OnUnit(After(Initial(unitCount, slotCount, dispatchIsFree), steps), u, id)
    requires After(Initial(unitCount, slotCount, dispatchIsFree), steps).units[u].holder == Some(id)
    ensures var s := After(Initial(unitCount, slotCount, dispatchIsFree), steps);
      ExpectedFor(JobOn(s.units[u], id), s.units[u].expectedFree, s.now, s.dispatchIsFree, s.startLog)
  {
    var start := Initial(unitCount, slotCount, dispatchIsFree);
    RunTimed(start, steps);
    assert TimedOn(After(start, steps), u, None);
  }
}
