/** The shared device's slots over every run: decodes wait in one line, each new one behind the
    others, and a free slot goes to the head of the line.
 */
module DecodeSlots {
  import opened Options
  import opened Lists
  import opened DecodeSteps
  import opened DecodeInvariant
  import opened DecodeRuns

  // ------------------------------------------------------------- a fair line

  /** What may happen to the device: a decode takes a free slot that nobody waits for, joins the
      line, is served from its head, drops out of it, or gives its slot back. */
  datatype Move = Takes(decode: Decode) | Joins(decode: Decode) | Serves | Drops(decode: Decode) | Ends(decode: Decode)

  ghost predicate MayMove(d: Device, move: Move) {
    match move
    case Takes(x) => d.waiting == [] && |d.running| < d.slotCount
    case Joins(x) => |d.running| >= d.slotCount
    case Serves => d.waiting != [] && |d.running| < d.slotCount
    case Drops(x) => true
    case Ends(x) => true
  }

  function Moved(d: Device, move: Move): Device {
    match move
    case Takes(x) => d.(running := d.running + [x])
    case Joins(x) => d.(waiting := d.waiting + [x])
    case Serves =>
      if d.waiting == [] then d else d.(running := d.running + [d.waiting[0]], waiting := d.waiting[1..])
    case Drops(x) => d.(waiting := Without(d.waiting, x))
    case Ends(x) => d.(running := Without(d.running, x))
  }

  function MovedAll(d: Device, moves: seq<Move>): Device
    decreases |moves|
  {
    if moves == [] then d else MovedAll(Moved(d, moves[0]), moves[1..])
  }

  ghost predicate MayMoveAll(d: Device, moves: seq<Move>)
    decreases |moves|
  {
    moves == [] || (MayMove(d, moves[0]) && MayMoveAll(Moved(d, moves[0]), moves[1..]))
  }

  /** The device went from the one state to the other by such moves. */
  ghost predicate Fair(d: Option<Device>, e: Option<Device>) {
    if d.None? || e.None? then d == e
    else exists moves :: MayMoveAll(d.value, moves) && MovedAll(d.value, moves) == e.value
  }

  lemma FairSame(d: Option<Device>)
    ensures Fair(d, d)
  {
    if d.Some? {
      assert MayMoveAll(d.value, []) && MovedAll(d.value, []) == d.value;
    }
  }

  lemma FairOne(d: Device, move: Move)
    requires MayMove(d, move)
    ensures Fair(Some(d), Some(Moved(d, move)))
  {
    assert [move][1..] == [];
    assert MayMoveAll(Moved(d, move), []);
    assert MayMoveAll(d, [move]) && MovedAll(d, [move]) == MovedAll(Moved(d, move), []);
  }

  lemma {:induction false} MovesThen(d: Device, first: seq<Move>, later: seq<Move>)
    requires MayMoveAll(d, first) && MayMoveAll(MovedAll(d, first), later)
    ensures MayMoveAll(d, first + later) && MovedAll(d, first + later) == MovedAll(MovedAll(d, first), later)
    decreases |first|
  {
    if first == [] {
      assert first + later == later;
    } else {
      MovesThen(Moved(d, first[0]), first[1..], later);
      assert (first + later)[1..] == first[1..] + later;
    }
  }

  lemma FairTwice(d: Option<Device>, m: Option<Device>, e: Option<Device>)
    requires Fair(d, m) && Fair(m, e)
    ensures Fair(d, e)
  {
    if d.Some? && m.Some? && e.Some? {
      var first :| MayMoveAll(d.value, first) && MovedAll(d.value, first) == m.value;
      var later :| MayMoveAll(m.value, later) && MovedAll(m.value, later) == e.value;
      MovesThen(d.value, first, later);
    }
  }

  // --------------------------------------------------- nobody is overtaken

  /** Those that stand before the decode in the line. */
  function Ahead(line: seq<Decode>, a: Decode): seq<Decode> {
    if line == [] || line[0] == a then [] else [line[0]] + Ahead(line[1..], a)
  }

  /** The decode waits, and through the moves is neither served nor dropped. */
  ghost predicate StaysInLine(d: Device, moves: seq<Move>, a: Decode)
    decreases |moves|
  {
    && a in d.waiting
    && (moves != [] ==>
          && !(moves[0].Serves? && d.waiting[0] == a) && moves[0] != Drops(a)
          && StaysInLine(Moved(d, moves[0]), moves[1..], a))
  }

  lemma {:induction false} AheadWithout(line: seq<Decode>, x: Decode, a: Decode)
    requires x != a
    ensures forall y | y in Ahead(Without(line, x), a) :: y in Ahead(line, a)
  {
    if line != [] && line[0] != x && line[0] != a {
      AheadWithout(line[1..], x, a);
      assert Without(line, x) == [line[0]] + Without(line[1..], x);
    }
  }

  lemma {:induction false} AheadJoined(line: seq<Decode>, x: Decode, a: Decode)
    requires a in line
    ensures Ahead(line + [x], a) == Ahead(line, a)
  {
    if line[0] != a {
      AheadJoined(line[1..], x, a);
      assert (line + [x])[1..] == line[1..] + [x];
    }
  }

  /** One move serves none that stands behind a decode that stays, and puts none before it. */
  lemma MoveOvertakesNone(d: Device, move: Move, a: Decode)
    requires MayMove(d, move) && a in d.waiting && !(move.Serves? && d.waiting[0] == a) && move != Drops(a)
    ensures forall x | x in Moved(d, move).running :: x in d.running || x in Ahead(d.waiting, a)
    ensures forall x | x in Ahead(Moved(d, move).waiting, a) :: x in Ahead(d.waiting, a)
  {
    match move {
      case Takes(x) =>
      case Joins(x) => AheadJoined(d.waiting, x, a);
      case Serves =>
      case Drops(x) => AheadWithout(d.waiting, x, a);
      case Ends(x) =>
    }
  }

  /** While a decode stays in the line, whoever is served stood before it, and nobody comes before
      it that did not. */
  lemma {:induction false} NotOvertaken(d: Device, moves: seq<Move>, a: Decode)
    requires MayMoveAll(d, moves) && StaysInLine(d, moves, a)
    ensures forall x | x in MovedAll(d, moves).running :: x in d.running || x in Ahead(d.waiting, a)
    ensures forall x | x in Ahead(MovedAll(d, moves).waiting, a) :: x in Ahead(d.waiting, a)
    decreases |moves|
  {
    if moves != [] {
      MoveOvertakesNone(d, moves[0], a);
      NotOvertaken(Moved(d, moves[0]), moves[1..], a);
    }
  }

  // ------------------------------------------------------- the manager's steps

  lemma BeginIsFair(s: Side, u: nat, id: nat)
    requires OnUnit(s, u, id) && DeviceFull(s)
    ensures Fair(s.device, Begin(s, u, id).device)
  {
    FairSame(s.device);
    if s.device.Some? && !JobOn(s.units[u], id).cancelled {
      var d := s.device.value;
      FairOne(d, if |d.running| < d.slotCount then Takes(Own(u, id)) else Joins(Own(u, id)));
    }
  }

  lemma LandIsFair(s: Side, u: nat, id: nat)
    requires OnUnit(s, u, id) && DeviceFull(s)
    ensures Fair(s.device, Land(s, u, id).device)
  {
    var job := JobOn(s.units[u], id).(landed := true, landingTicks := Some(s.now));
    FairSame(s.device);
    if s.units[u].holder == Some(id) {
      BeginIsFair(s.(units := s.units[u := WithJob(s.units[u], job)]), u, id);
    }
  }

  lemma AskIsFair(s: Side, u: nat, id: nat, staging: Staging)
    requires OnUnit(s, u, id) && DeviceFull(s)
    ensures Fair(s.device, AskForInput(s, u, id, staging).device)
  {
    FairSame(s.device);
    if staging.AtOnce? {
      LandIsFair(s.(units := s.units[u := WithJob(s.units[u], JobOn(s.units[u], id).(isAsked := true))]), u, id);
    }
  }

  lemma OfferIsFair(s: Side, u: nat)
    requires u < |s.units| && DeviceFull(s)
    ensures Fair(s.device, OfferCompute(s, u).device)
  {
    FairSame(s.device);
    var ready := OldestResident(s.units[u].residents, true);
    if s.units[u].holder.None? && ready.Some? {
      BeginIsFair(s.(units := s.units[u := s.units[u].(holder := ready)]), u, ready.value);
    }
  }

  lemma {:induction false} StartWaitingIsFair(s: Side)
    requires WaitingOnUnits(s)
    ensures Fair(s.device, StartWaiting(s).device)
    decreases if s.device.Some? then |s.device.value.waiting| else 0
  {
    FairSame(s.device);
    if s.device.Some? {
      var d := s.device.value;
      if d.waiting != [] && |d.running| < d.slotCount {
        var granted := s.(device := Some(d.(running := d.running + [d.waiting[0]], waiting := d.waiting[1..])));
        assert d.waiting[0] in d.waiting;
        FairOne(d, Serves);
        match d.waiting[0] {
          case Foreign(_) => StartWaitingIsFair(granted);
          case Own(u, id) => StartWaitingIsFair(Start(granted, u, id));
        }
        FairTwice(s.device, granted.device, StartWaiting(s).device);
      }
    }
  }

  lemma GiveBackIsFair(s: Side, decode: Decode)
    requires WaitingOnUnits(s)
    ensures Fair(s.device, GiveBack(s, decode).device)
  {
    FairSame(s.device);
    if s.device.Some? {
      var d := s.device.value;
      var returned := s.(device := Some(d.(running := Without(d.running, decode))));
      FairOne(d, Ends(decode));
      StartWaitingIsFair(returned);
      FairTwice(s.device, returned.device, GiveBack(s, decode).device);
    }
  }

  lemma WithdrawIsFair(s: Side, decode: Decode)
    ensures Fair(s.device, Withdraw(s, decode).device)
  {
    FairSame(s.device);
    if s.device.Some? {
      FairOne(s.device.value, Drops(decode));
    }
  }

  lemma FreeIsFair(s: Side, u: nat, id: nat)
    requires Inv(s) && InService(s, u, id)
    ensures WaitingOnUnits(LeaveUnit(s, u, id)) && Fair(s.device, Free(s, u, id).device)
  {
    FreeKeeps(s, u, id);
    var left := LeaveUnit(s, u, id);
    var back := GiveBack(left, Own(u, id));
    GiveBackIsFair(left, Own(u, id));
    GiveBackIsFull(s, u, id);
    OfferIsFair(back, u);
    FairTwice(s.device, back.device, Free(s, u, id).device);
  }

  /** Once waiting decodes have been started, any still waiting find no slot free. */
  lemma GiveBackIsFull(s: Side, u: nat, id: nat)
    requires Inv(s) && InService(s, u, id) && WaitingOnUnits(LeaveUnit(s, u, id))
    ensures DeviceFull(GiveBack(LeaveUnit(s, u, id), Own(u, id)))
  {
    var left := LeaveUnit(s, u, id);
    LeaveKeeps(s, u, id);
    if s.device.Some? {
      var d := s.device.value;
      var returned := left.(device := Some(d.(running := Without(d.running, Own(u, id)))));
      DeviceAfterReturn(s, left, returned, u, id);
      StartWaitingKeeps(returned, Some(u));
    }
  }

  lemma EvictIsFair(s: Side, u: nat, id: nat)
    requires Inv(s) && OnUnit(s, u, id) && !JobOn(s.units[u], id).started
    ensures Fair(s.device, Evict(s, u, id).device)
  {
    var left := LeaveUnit(Withdraw(s, Own(u, id)), u, id);
    WithdrawIsFair(s, Own(u, id));
    DeviceAfterWithdrawal(s, left, u, id);
    if s.units[u].holder == Some(id) {
      OfferIsFair(left, u);
      FairTwice(s.device, left.device, Evict(s, u, id).device);
    }
  }

  lemma RoundIsFair(s: Side, env: Environment, k: nat)
    requires Good(s)
    ensures Fair(s.device, RoundOf(s, env, k).side.device)
  {
    FairSame(s.device);
    var ordered := Drain(env.pick, k, s.waiting);
    match FirstPlacement(s, ordered, 0, env, k) {
      case NoSelection =>
      case Selected(index, u, claims) =>
        var rest := s.(waiting := ordered[..index] + ordered[index + 1..]);
        var job := ordered[index];
        if s.dispatchIsFree {
          AskIsFair(Admit(rest, u, job, claims), u, job.id, env.staging(job.id));
        }
    }
  }

  lemma DispatchIsFair(s: Side, env: Environment)
    requires Good(s)
    ensures Fair(s.device, Dispatch(s, env).device)
  {
    var rule: Rounds := (t: Side, j: nat) => RoundOf(t, env, j);
    var kept := (t: Side) => Good(t) && Fair(s.device, t.device);
    var reached := (t: Side, j: nat) => true;
    FairSame(s.device);
    forall t: Side, j: nat | kept(t)
      ensures kept(rule(t, j).side)
    {
      RoundIsGood(t, env, j);
      RoundIsFair(t, env, j);
      FairTwice(s.device, t.device, rule(t, j).side.device);
    }
    var last := LoopKeeps(s, rule, 0, kept, reached);
  }

  lemma CancelOneIsFair(s: Side, id: nat, env: Environment)
    requires Good(s)
    ensures Fair(s.device, CancelOne(s, id, env).device)
  {
    FairSame(s.device);
    if PlaceOf(s.waiting, id) == |s.waiting| && UnitOf(s.units, id, 0).Some? {
      var u := UnitOf(s.units, id, 0).value;
      if !JobOn(s.units[u], id).completed {
        if !JobOn(s.units[u], id).started {
          EvictIsFair(s, u, id);
        } else {
          FreeIsFair(s, u, id);
          FreeIsGood(s, u, id);
          DispatchIsFair(Free(s, u, id), env);
          FairTwice(s.device, Free(s, u, id).device, CancelOne(s, id, env).device);
        }
      }
    }
  }

  lemma {:induction false} CancelAllIsFair(s: Side, ids: seq<nat>, env: Environment)
    requires Good(s)
    ensures Fair(s.device, CancelAll(s, ids, env).device)
    decreases |ids|
  {
    FairSame(s.device);
    if ids != [] {
      CancelOneIsGood(s, ids[0], env);
      CancelOneIsFair(s, ids[0], env);
      CancelAllIsFair(CancelOne(s, ids[0], env), ids[1..], env);
      FairTwice(s.device, CancelOne(s, ids[0], env).device, CancelAll(s, ids, env).device);
    }
  }

  lemma TakeIsFair(s: Side, name: nat)
    requires DeviceFull(s) && s.device.Some?
    ensures Fair(s.device, ForeignTake(s, name).device)
  {
    var d := s.device.value;
    FairOne(d, if |d.running| < d.slotCount then Takes(Foreign(name)) else Joins(Foreign(name)));
  }

  lemma ChangedIsFair(s: Side, step: Step)
    requires Good(s) && Enabled(s, step)
    ensures Fair(s.device, Changed(s, step).device)
  {
    FairSame(s.device);
    match step
    case Advance(_) =>
    case Enqueue(_, _, _, _) =>
    case ReleaseWindow(_, _) =>
    case Cancel(requests, env) => CancelAllIsFair(s, requests, env);
    case InputAsked(u, id, staging) => AskIsFair(s, u, id, staging);
    case InputLanded(u, id) => LandIsFair(s, u, id);
    case DecodeEnded(u, id, freesUnit, _) =>
      CompletedIsGood(s, u, id);
      FreeIsFair(Completed(s, u, id), u, id);
    case ResultRead(u, id, _) => FreeIsFair(s, u, id);
    case Retry(_) =>
    case OtherTakes(name) => TakeIsFair(s, name);
    case OtherReturns(name) => ForeignReturnKeeps(s, name); GiveBackIsFair(s, Foreign(name));
    case OtherWithdraws(name) => WithdrawIsFair(s, Foreign(name));
  }

  lemma StepIsFair(s: Side, step: Step)
    requires Good(s) && Enabled(s, step)
    ensures Fair(s.device, Apply(s, step).device)
  {
    ChangedIsFair(s, step);
    ChangedIsGood(s, step);
    match DispatcherOf(step) {
      case Some(env) =>
        DispatchIsFair(Changed(s, step), env);
        FairTwice(s.device, Changed(s, step).device, Apply(s, step).device);
      case None =>
    }
  }

  /** Over every run the device's slots go to the head of its line, and newcomers stand behind. */
  lemma {:induction false} EveryRunIsFair(s: Side, steps: seq<Step>)
    requires Boundary(s) && IsRun(s, steps)
    ensures Fair(s.device, After(s, steps).device)
    decreases |steps|
  {
    FairSame(s.device);
    if steps != [] {
      StepKeepsBoundary(s, steps[0]);
      StepIsFair(s, steps[0]);
      EveryRunIsFair(Apply(s, steps[0]), steps[1..]);
      FairTwice(s.device, Apply(s, steps[0]).device, After(s, steps).device);
    }
  }
}
