/** Which patches idle, and when a life sends a round, told by the program and by what of it has
    started and finished.
 */
module PatchIdle {
  import opened PatchLives
  import opened PatchCycles

  // ------------------------------------------------------- by the program

  /** The operation measures the patch, and no discard has ended the patch since. */
  ghost predicate Prepares(program: seq<Operation>, w: World, i: nat, patch: nat) {
    && i in w.started && Runs(program, i, patch) && program[i].rounds > 0
    && forall d: nat | d in w.finished && Runs(program, d, patch) && program[d].discards :: d < i
  }

  ghost predicate IsPrepared(program: seq<Operation>, w: World, patch: nat) {
    exists i: nat :: Prepares(program, w, i, patch)
  }

  ghost predicate Occupies(program: seq<Operation>, w: World, o: nat, patch: nat) {
    o in w.started && o !in w.finished && Runs(program, o, patch)
  }

  ghost predicate IsBusy(program: seq<Operation>, w: World, patch: nat) {
    exists o: nat :: Occupies(program, w, o, patch)
  }

  ghost predicate IdlesAsMeant(program: seq<Operation>, w: World, patch: nat) {
    && (patch in w.prepared <==> IsPrepared(program, w, patch))
    && (patch in w.idle <==> IsPrepared(program, w, patch) && !IsBusy(program, w, patch))
  }

  ghost predicate AllIdleAsMeant(program: seq<Operation>, w: World) {
    forall patch: nat :: IdlesAsMeant(program, w, patch)
  }

  /** An operation of the life has started, and no discard has ended the life. */
  ghost predicate IsCurrent(program: seq<Operation>, w: World, s: StreamId) {
    && (exists i: nat :: i in w.started && IsMember(program, i, s))
    && forall d: nat :: !EndedBy(program, w, d, s)
  }

  ghost predicate AllHeldAsMeant(program: seq<Operation>, w: World) {
    forall s :: Holds(w.book, s) <==> IsCurrent(program, w, s)
  }

  // ------------------------------------------------------- the lives' order

  /** Between two operations of different lives of a patch stands the discard that ended the first. */
  lemma {:induction false} LifeEnds(program: seq<Operation>, i: nat, j: nat, patch: nat) returns (d: nat)
    requires i <= j <= |program| && LifeOf(program, i, patch) < LifeOf(program, j, patch)
    ensures i <= d < j && program[d].discards && Runs(program, d, patch)
    ensures LifeOf(program, d, patch) == LifeOf(program, i, patch)
    decreases j - i
  {
    if program[i].discards && Runs(program, i, patch) {
      d := i;
    } else {
      d := LifeEnds(program, i + 1, j, patch);
    }
  }

  ghost predicate EndsBetween(program: seq<Operation>, w: World, i: nat, j: nat, patch: nat, d: nat) {
    i <= d < j <= |program| && d in w.finished && program[d].discards && Runs(program, d, patch)
  }

  /** Once the later operation has its turn, the discard between has finished. */
  lemma LifeEnded(program: seq<Operation>, w: World, i: nat, j: nat, s: StreamId)
    requires InOrder(program, w) && i <= j && IsMember(program, i, s) && Runs(program, j, s.patch)
    requires j in w.started || MayStart(program, w, j)
    ensures s.life <= LifeOf(program, j, s.patch)
    ensures s.life < LifeOf(program, j, s.patch) ==>
      exists d: nat :: EndedBy(program, w, d, s) && EndsBetween(program, w, i, j, s.patch, d)
  {
    LivesCome(program, i, j, s.patch);
    if s.life < LifeOf(program, j, s.patch) {
      var d := LifeEnds(program, i, j, s.patch);
      Sharing(program, d, j, s.patch);
      assert EndedBy(program, w, d, s) && EndsBetween(program, w, i, j, s.patch, d);
    }
  }

  /** An operation that runs, or may start, on a current life's patch is of that life. */
  lemma IsOfLife(program: seq<Operation>, w: World, o: nat, s: StreamId)
    requires InOrder(program, w) && IsCurrent(program, w, s) && Runs(program, o, s.patch)
    requires (o in w.started && o !in w.finished) || MayStart(program, w, o)
    ensures IsMember(program, o, s)
  {
    var i: nat :| i in w.started && IsMember(program, i, s);
    Sharing(program, o, i, s.patch);
    assert i <= o;
    LifeEnded(program, w, i, o, s);
  }

  // -------------------------------------------------------------- the idle

  lemma FinishIdlesOne(program: seq<Operation>, w: World, o: nat, patch: nat)
    requires InOrder(program, w) && o in w.running && IdlesAsMeant(program, w, patch)
    ensures o < |program| && IdlesAsMeant(program, Finish(program, w, o), patch)
  {
    var next := Finish(program, w, o);
    if Runs(program, o, patch) {
      forall i: nat ensures !Occupies(program, next, i, patch) {
        if Occupies(program, next, i, patch) {
          OneBody(program, w, i, o, patch);
        }
      }
      assert Occupies(program, w, o, patch);
    } else {
      forall i: nat ensures Occupies(program, next, i, patch) <==> Occupies(program, w, i, patch) {
      }
    }
    FinishPrepared(program, w, o, patch);
  }

  /** An operation's end leaves what is prepared, but for the patches a discard ends. */
  lemma FinishPrepared(program: seq<Operation>, w: World, o: nat, patch: nat)
    requires InOrder(program, w) && o in w.running && o < |program|
    ensures IsPrepared(program, Finish(program, w, o), patch) <==>
      IsPrepared(program, w, patch) && !(program[o].discards && Runs(program, o, patch))
  {
    var next := Finish(program, w, o);
    if program[o].discards && Runs(program, o, patch) {
      forall i: nat ensures !Prepares(program, next, i, patch) {
        if Prepares(program, next, i, patch) {
          assert o < i;
          Sharing(program, o, i, patch);
        }
      }
    } else {
      forall i: nat ensures Prepares(program, next, i, patch) <==> Prepares(program, w, i, patch) {
      }
    }
  }

  lemma BeginIdlesOne(program: seq<Operation>, w: World, o: nat, patch: nat)
    requires InOrder(program, w) && MayStart(program, w, o) && IdlesAsMeant(program, w, patch)
    ensures IdlesAsMeant(program, Begun(program, w, o), patch)
  {
    var next := Begun(program, w, o);
    forall i: nat | i != o
      ensures Occupies(program, next, i, patch) <==> Occupies(program, w, i, patch)
      ensures Prepares(program, next, i, patch) <==> Prepares(program, w, i, patch)
    {
    }
    assert !Occupies(program, w, o, patch) && !Prepares(program, w, o, patch);
    if Runs(program, o, patch) {
      assert Occupies(program, next, o, patch);
      if program[o].rounds > 0 {
        forall d: nat | d in next.finished && Runs(program, d, patch) && program[d].discards ensures d < o {
          Sharing(program, o, d, patch);
        }
        assert Prepares(program, next, o, patch);
      }
    }
  }

  lemma FinishIdles(program: seq<Operation>, w: World, o: nat)
    requires InOrder(program, w) && o in w.running && AllIdleAsMeant(program, w)
    ensures o < |program| && AllIdleAsMeant(program, Finish(program, w, o))
  {
    forall patch: nat ensures IdlesAsMeant(program, Finish(program, w, o), patch) {
      FinishIdlesOne(program, w, o, patch);
    }
  }

  lemma BeginIdles(program: seq<Operation>, w: World, o: nat)
    requires InOrder(program, w) && MayStart(program, w, o) && AllIdleAsMeant(program, w)
    ensures AllIdleAsMeant(program, Begun(program, w, o))
  {
    forall patch: nat ensures IdlesAsMeant(program, Begun(program, w, o), patch) {
      BeginIdlesOne(program, w, o, patch);
    }
  }

  // -------------------------------------------------------------- the held

  lemma FinishHolds(program: seq<Operation>, w: World, o: nat)
    requires IsProgram(program) && InOrder(program, w) && o in w.running && AllHeldAsMeant(program, w)
    ensures o < |program| && AllHeldAsMeant(program, Finish(program, w, o))
  {
    var next := Finish(program, w, o);
    forall s ensures Holds(next.book, s) <==> IsCurrent(program, next, s) {
      FinishEach(program, w, o, s);
      forall d: nat
        ensures EndedBy(program, next, d, s) <==>
          EndedBy(program, w, d, s) || (d == o && program[o].discards && IsMember(program, o, s))
      {
      }
      if IsCurrent(program, w, s) && program[o].discards && OnPatch(StreamsOf(program, o), s.patch) {
        IsOfLife(program, w, o, s);
        assert EndedBy(program, next, o, s);
      } else if program[o].discards && IsMember(program, o, s) {
        assert s in StreamsOf(program, o) && OnPatch(StreamsOf(program, o), s.patch);
      }
      assert IsCurrent(program, next, s) ==> IsCurrent(program, w, s) by {
        assert forall d: nat :: EndedBy(program, w, d, s) ==> EndedBy(program, next, d, s);
      }
    }
  }

  lemma BeginHolds(program: seq<Operation>, w: World, o: nat)
    requires IsProgram(program) && InOrder(program, w) && MayStart(program, w, o) && AllHeldAsMeant(program, w)
    ensures AllHeldAsMeant(program, Begun(program, w, o))
  {
    forall s ensures Holds(Begun(program, w, o).book, s) <==> IsCurrent(program, Begun(program, w, o), s) {
      BeginHoldsOne(program, w, o, s);
    }
  }

  lemma BeginHoldsOne(program: seq<Operation>, w: World, o: nat, s: StreamId)
    requires IsProgram(program) && InOrder(program, w) && MayStart(program, w, o)
    requires Holds(w.book, s) <==> IsCurrent(program, w, s)
    ensures Holds(Begun(program, w, o).book, s) <==> IsCurrent(program, Begun(program, w, o), s)
  {
    var next := Begun(program, w, o);
    BeginEach(program, w, o, s);
    assert forall d: nat :: EndedBy(program, next, d, s) <==> EndedBy(program, w, d, s);
    if IsMember(program, o, s) {
      assert s in StreamsOf(program, o) && OnPatch(StreamsOf(program, o), s.patch);
      forall d: nat ensures !EndedBy(program, w, d, s) {
        NotEnded(program, w, o, d, s);
      }
      assert o in next.started;
    } else {
      assert IsCurrent(program, next, s) <==> IsCurrent(program, w, s);
      if OnPatch(StreamsOf(program, o), s.patch) && IsCurrent(program, w, s) {
        IsOfLife(program, w, o, s);
      }
    }
  }

  // -------------------------------------------------------------- the steps

  ghost predicate AsMeant(program: seq<Operation>, w: World) {
    AllIdleAsMeant(program, w) && AllHeldAsMeant(program, w)
  }

  /** Rounds given and sent move nobody. */
  lemma RoundsMoveNone(program: seq<Operation>, w: World, next: World)
    requires AsMeant(program, w) && next.book.streamOf == w.book.streamOf
    requires next.idle == w.idle && next.prepared == w.prepared
    requires next.started == w.started && next.finished == w.finished
    ensures AsMeant(program, next)
  {
    forall patch: nat ensures IdlesAsMeant(program, next, patch) {
      assert IdlesAsMeant(program, w, patch);
      assert forall i: nat :: Occupies(program, next, i, patch) <==> Occupies(program, w, i, patch);
      assert forall i: nat :: Prepares(program, next, i, patch) <==> Prepares(program, w, i, patch);
    }
    forall s ensures Holds(next.book, s) <==> IsCurrent(program, next, s) {
      assert Holds(next.book, s) <==> Holds(w.book, s);
      assert forall d: nat :: EndedBy(program, next, d, s) <==> EndedBy(program, w, d, s);
    }
  }

  lemma EmitBodyMoves(program: seq<Operation>, w: World, o: nat)
    requires IsProgram(program) && Core(program, w) && o < |program| && o in w.running && AsMeant(program, w)
    requires forall s :: IsMember(program, o, s) ==> Fresh(w, s)
    ensures AsMeant(program, EmitBody(program, w, o))
  {
    var run := RoundRun(program, w, o);
    SendKeeps(program, w, o);
    RoundsMoveNone(program, w, run);
    FinishIdles(program, run, o);
    FinishHolds(program, run, o);
  }

  lemma {:induction false} EmitBodiesMove(program: seq<Operation>, w: World, bodies: seq<nat>)
    requires IsProgram(program) && Core(program, w) && BodiesRunBut(program, w, {}) && Due(program, w, bodies)
    requires AsMeant(program, w)
    ensures AsMeant(program, EmitBodies(program, w, bodies))
    decreases |bodies|
  {
    if bodies != [] {
      StillDue(program, w, bodies);
      EmitBodyMoves(program, w, bodies[0]);
      EmitBodiesMove(program, EmitBody(program, w, bodies[0]), bodies[1..]);
    }
  }

  lemma CrossMoves(program: seq<Operation>, w: World, tick: nat, idle: seq<nat>, bodies: seq<nat>)
    requires IsProgram(program) && Kept(program, w) && May(program, w, Crosses(tick, idle, bodies))
    requires AsMeant(program, w)
    ensures var next := Cross(program, w, tick, idle, bodies);
      next.isOver || AsMeant(program, next)
  {
    var crossed := w.(tick := tick, book := ExtendAll(w.book, idle, tick));
    ExtendKeeps(program, w, tick, idle);
    RoundsMoveNone(program, w, crossed);
    forall k, s | 0 <= k < |bodies| && IsMember(program, bodies[k], s) ensures Fresh(crossed, s) {
      assert bodies[k] in bodies;
      assert s.patch !in w.idle;
    }
    EmitBodiesMove(program, crossed, bodies);
  }

  lemma StartMoves(program: seq<Operation>, w: World, o: nat)
    requires IsProgram(program) && Kept(program, w) && MayStart(program, w, o) && AsMeant(program, w)
    ensures AsMeant(program, StartCommand(program, w, o))
  {
    var begun := Begun(program, w, o);
    BeginOrder(program, w, o);
    BeginIdles(program, w, o);
    BeginHolds(program, w, o);
    if program[o].rounds == 0 {
      FinishIdles(program, begun, o);
      FinishHolds(program, begun, o);
      NotRunning(program, w, o);
      assert begun.running - {o} == w.running - {o};
      assert StartCommand(program, w, o) == Finish(program, begun, o);
    } else {
      assert StartCommand(program, w, o) == begun;
    }
  }

  /** A complete workload stays complete. */
  lemma OverStays(program: seq<Operation>, w: World, step: Step)
    requires IsProgram(program) && Kept(program, w) && May(program, w, step) && w.isOver
    ensures Take(program, w, step).isOver
  {
    match step
    case Crosses(_, _, bodies) =>
      if bodies != [] {
        assert bodies[0] in bodies && bodies[0] in w.running;
        AllFinished(program, w, bodies[0]);
      }
    case Starts(o) =>
      AllFinished(program, w, o);
  }

  lemma StepMoves(program: seq<Operation>, w: World, step: Step)
    requires IsProgram(program) && Kept(program, w) && May(program, w, step)
    requires w.isOver || AsMeant(program, w)
    ensures Take(program, w, step).isOver || AsMeant(program, Take(program, w, step))
  {
    if w.isOver {
      OverStays(program, w, step);
    } else {
      match step
      case Crosses(tick, idle, bodies) => CrossMoves(program, w, tick, idle, bodies);
      case Starts(o) => StartMoves(program, w, o);
    }
  }

  lemma {:induction false} RunMoves(program: seq<Operation>, w: World, steps: seq<Step>)
    requires IsProgram(program) && Kept(program, w) && IsRun(program, w, steps)
    requires w.isOver || AsMeant(program, w)
    ensures After(program, w, steps).isOver || AsMeant(program, After(program, w, steps))
    decreases |steps|
  {
    if steps != [] {
      StepKeeps(program, w, steps[0]);
      StepMoves(program, w, steps[0]);
      RunMoves(program, Take(program, w, steps[0]), steps[1..]);
    }
  }

  // ------------------------------------------------------------- every run

  /** In every run that is not over, a patch idles just when an operation that measures it has
      started since its last discard and none runs on it. */
  lemma WhoIdles(program: seq<Operation>, steps: seq<Step>, patch: nat)
    requires IsProgram(program) && IsRun(program, Initial, steps) && !After(program, Initial, steps).isOver
    ensures var w := After(program, Initial, steps);
      patch in w.idle <==> IsPrepared(program, w, patch) && !IsBusy(program, w, patch)
  {
    InitialKept(program);
    RunMoves(program, Initial, steps);
    assert IdlesAsMeant(program, After(program, Initial, steps), patch);
  }

  /** The life goes on, an operation has measured it, and none that runs in it withholds its
      rounds. */
  ghost predicate IsSending(program: seq<Operation>, w: World, s: StreamId) {
    && IsCurrent(program, w, s)
    && (exists i: nat :: i in w.started && IsMember(program, i, s) && program[i].rounds > 0)
    && (forall o: nat | o in w.started && o !in w.finished && IsMember(program, o, s) :: program[o].emits)
  }

  /** What prepares a current life's patch is of that life. */
  lemma PreparedInLife(program: seq<Operation>, w: World, i: nat, j: nat, s: StreamId)
    requires InOrder(program, w) && IsCurrent(program, w, s) && Prepares(program, w, i, s.patch)
    requires j in w.started && IsMember(program, j, s)
    ensures IsMember(program, i, s)
  {
    if i < j {
      LivesCome(program, i, j, s.patch);
      NoneBetween(program, w, i, j, s.patch);
    } else {
      LifeEnded(program, w, j, i, s);
    }
  }

  /** After what prepares a patch, operations on it are of one life. */
  lemma NoneBetween(program: seq<Operation>, w: World, i: nat, j: nat, patch: nat)
    requires InOrder(program, w) && Prepares(program, w, i, patch) && i < j && j in w.started
    requires Runs(program, j, patch)
    ensures LifeOf(program, i, patch) >= LifeOf(program, j, patch)
  {
    if LifeOf(program, i, patch) < LifeOf(program, j, patch) {
      var d := LifeEnds(program, i, j, patch);
      Sharing(program, d, j, patch);
      assert false;
    }
  }

  lemma IdlerSends(program: seq<Operation>, w: World, s: StreamId)
    requires InOrder(program, w) && AsMeant(program, w) && HoldsIdle(w, s)
    ensures IsSending(program, w, s)
  {
    assert IsCurrent(program, w, s) && IdlesAsMeant(program, w, s.patch);
    var i: nat :| Prepares(program, w, i, s.patch);
    var j: nat :| j in w.started && IsMember(program, j, s);
    PreparedInLife(program, w, i, j, s);
    forall o: nat ensures !(o in w.started && o !in w.finished && IsMember(program, o, s)) {
      assert !Occupies(program, w, o, s.patch);
    }
  }

  lemma BodySends(program: seq<Operation>, w: World, o: nat, s: StreamId)
    requires Kept(program, w) && EmitsInto(program, w, o, s)
    ensures IsSending(program, w, s)
  {
    forall d: nat ensures !EndedBy(program, w, d, s) {
      NotEnded(program, w, o, d, s);
    }
    forall i: nat | i in w.started && i !in w.finished && IsMember(program, i, s) ensures program[i].emits {
      OneBody(program, w, i, o, s.patch);
    }
  }

  /** A discard at or after an operation of the life, once finished, has left the life ended. */
  lemma DiscardEnds(program: seq<Operation>, w: World, i: nat, d: nat, s: StreamId)
    requires InOrder(program, w) && IsMember(program, i, s)
    requires d in w.finished && Runs(program, d, s.patch) && program[d].discards
    ensures i <= d ==> exists e: nat :: EndedBy(program, w, e, s)
  {
    if i <= d {
      LifeEnded(program, w, i, d, s);
      if s.life == LifeOf(program, d, s.patch) {
        assert EndedBy(program, w, d, s);
      }
    }
  }

  /** A life that sends does it from a body or, with none on its patch, idling. */
  lemma SenderIsFound(program: seq<Operation>, w: World, s: StreamId)
    requires InOrder(program, w) && AsMeant(program, w) && IsSending(program, w, s)
    ensures HoldsIdle(w, s) || exists o :: EmitsInto(program, w, o, s)
  {
    assert IdlesAsMeant(program, w, s.patch);
    if o: nat :| Occupies(program, w, o, s.patch) {
      IsOfLife(program, w, o, s);
      assert EmitsInto(program, w, o, s);
    } else {
      var i: nat :| i in w.started && IsMember(program, i, s) && program[i].rounds > 0;
      forall d: nat | d in w.finished && Runs(program, d, s.patch) && program[d].discards ensures d < i {
        DiscardEnds(program, w, i, d, s);
      }
      assert Prepares(program, w, i, s.patch);
    }
  }

  /** In every run that is not over, a boundary sends one round of each life that an operation has
      measured and no discard has ended, unless a body that emits nothing runs in it; and no
      round of any other. */
  lemma RoundsByProgram(
    program: seq<Operation>, steps: seq<Step>, tick: nat, idle: seq<nat>, bodies: seq<nat>, s: StreamId)
    requires IsProgram(program) && IsRun(program, Initial, steps) && !After(program, Initial, steps).isOver
    requires May(program, After(program, Initial, steps), Crosses(tick, idle, bodies))
    ensures var w := After(program, Initial, steps);
      |LifeIn(Cross(program, w, tick, idle, bodies).book, s).sent| ==
        |LifeIn(w.book, s).sent| + (if IsSending(program, w, s) then 1 else 0)
  {
    var w := After(program, Initial, steps);
    InitialKept(program);
    EveryRunKeeps(program, Initial, steps);
    RunMoves(program, Initial, steps);
    OneRoundEachBoundary(program, w, tick, idle, bodies, s);
    if IsSending(program, w, s) {
      SenderIsFound(program, w, s);
    } else if HoldsIdle(w, s) {
      IdlerSends(program, w, s);
    } else if o: nat :| EmitsInto(program, w, o, s) {
      BodySends(program, w, o, s);
    }
  }
}
