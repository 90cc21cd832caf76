/** The engine's run over protected streams, event by event. */
module ProtectedEngine {
  import opened Options
  import opened Clocks
  import opened ProtectedCycles
  import opened ProtectedRuns

  /** Which queued event the engine takes, and what its action lets the machine do. */
  datatype Turn = Turn(event: nat, deeds: seq<Deed>)

  function DoAll(period: nat, w: World, deeds: seq<Deed>): (r: World)
    requires period > 0
    ensures r.now == w.now
    decreases |deeds|
  {
    BoundaryIsLater(period, w.now);
    if deeds == [] then w else DoAll(period, Do(period, w, deeds[0]), deeds[1..])
  }

  ghost predicate MayDoAll(period: nat, w: World, e: Event, deeds: seq<Deed>)
    requires period > 0
    decreases |deeds|
  {
    BoundaryIsLater(period, w.now);
    deeds == [] || (MayDo(period, w, e, deeds[0]) && MayDoAll(period, Do(period, w, deeds[0]), e, deeds[1..]))
  }

  /** Each close asked for finds its stream on the boundary. */
  ghost predicate ClosesHold(period: nat, w: World, deeds: seq<Deed>)
    requires period > 0
    decreases |deeds|
  {
    BoundaryIsLater(period, w.now);
    deeds != [] ==>
      && (deeds[0].Ends? ==> CloseAssertsHold(w, deeds[0].stream))
      && ClosesHold(period, Do(period, w, deeds[0]), deeds[1..])
  }

  function Acted(period: nat, w: World, i: nat): World
    requires period > 0 && i < |w.queue|
  {
    BoundaryIsLater(period, w.queue[i].time);
    Act(period, Popped(w, i), w.queue[i].action)
  }

  ghost predicate MayTurn(period: nat, w: World, turn: Turn)
    requires period > 0
  {
    && IsFirst(w.queue, turn.event)
    && MayDoAll(period, Acted(period, w, turn.event), w.queue[turn.event], turn.deeds)
  }

  function Take(period: nat, w: World, turn: Turn): World
    requires period > 0 && turn.event < |w.queue|
  {
    Finish(DoAll(period, Acted(period, w, turn.event), turn.deeds), w.queue[turn.event].action)
  }

  /** No assertion of the event's action, or of the deeds it allows, fails. */
  ghost predicate NothingFails(period: nat, w: World, turn: Turn)
    requires period > 0 && turn.event < |w.queue|
  {
    && AssertsHold(Popped(w, turn.event), w.queue[turn.event].action)
    && ClosesHold(period, Acted(period, w, turn.event), turn.deeds)
  }

  lemma {:induction false} DoAllKeeps(period: nat, w: World, extra: Option<Event>, e: Event, deeds: seq<Deed>)
    requires period > 0 && Kept(period, w, extra) && MayDoAll(period, w, e, deeds)
    requires e.action.Other? && e.setAt < w.now ==> forall s :: !EmittedNow(w, s)
    ensures Kept(period, DoAll(period, w, deeds), extra) && ClosesHold(period, w, deeds)
    decreases |deeds|
  {
    if deeds != [] {
      BoundaryIsLater(period, w.now);
      match deeds[0] {
        case Starts(s) => StartsKeeps(period, w, extra, s);
        case Ends(s) => EndsKeeps(period, w, extra, s);
        case Later(delay) => LaterKeeps(period, w, extra, delay);
      }
      DoAllKeeps(period, Do(period, w, deeds[0]), extra, e, deeds[1..]);
    }
  }

  lemma ActKeeps(period: nat, w: World, i: nat)
    requires period > 0 && Kept(period, w, None) && IsFirst(w.queue, i)
    ensures var e := w.queue[i];
      var a := Acted(period, w, i);
      && AssertsHold(Popped(w, i), e.action)
      && Kept(period, a, if e.action.Open? then Some(ToEmit(Popped(w, i), e.action.stream)) else None)
      && (e.action.Other? && e.setAt < a.now ==> forall s :: !EmittedNow(a, s))
  {
    var e := w.queue[i];
    var p := Popped(w, i);
    PoppedKeeps(period, w, i);
    BoundaryIsLater(period, p.now);
    assert QueueOk(w);
    match e.action {
      case Open(s) => OpenKeeps(period, p, e, s);
      case EmitRound(s) => EmitKeeps(period, p, e, s);
      case Release(s) => ReleaseKeeps(period, p, e, s);
      case Other => OtherKeeps(period, p, e);
    }
  }

  /** One event: nothing fails, and what is kept stays kept. */
  lemma TurnKeeps(period: nat, w: World, turn: Turn)
    requires period > 0 && Kept(period, w, None) && MayTurn(period, w, turn)
    ensures NothingFails(period, w, turn) && Kept(period, Take(period, w, turn), None)
  {
    var e := w.queue[turn.event];
    var a := Acted(period, w, turn.event);
    ActKeeps(period, w, turn.event);
    match e.action {
      case Open(s) =>
        var toEmit := ToEmit(Popped(w, turn.event), s);
        DoAllKeeps(period, a, Some(toEmit), e, turn.deeds);
        FinishKeeps(period, DoAll(period, a, turn.deeds), s, toEmit);
      case _ =>
        DoAllKeeps(period, a, None, e, turn.deeds);
    }
  }

  ghost predicate IsRun(period: nat, w: World, turns: seq<Turn>)
    requires period > 0
    decreases |turns|
  {
    turns == [] ||
    (MayTurn(period, w, turns[0]) && IsRun(period, Take(period, w, turns[0]), turns[1..]))
  }

  ghost function After(period: nat, w: World, turns: seq<Turn>): World
    requires period > 0 && IsRun(period, w, turns)
    decreases |turns|
  {
    if turns == [] then w else After(period, Take(period, w, turns[0]), turns[1..])
  }

  /** Before the first event: other actions may be scheduled, no stream has begun. */
  ghost predicate IsStart(w: World) {
    && w.cycles == map[]
    && (forall i | 0 <= i < |w.queue| :: w.queue[i].action.Other? && w.queue[i].priority == DEFAULT)
    && (forall i | 0 <= i < |w.queue| :: w.queue[i].time >= w.now && w.queue[i].setAt <= w.now)
  }

  lemma {:induction false} NoneOwned(queue: seq<Event>, s: nat)
    requires forall i | 0 <= i < |queue| :: queue[i].action.Other?
    ensures Own(queue, s) == []
  {
    if queue != [] {
      NoneOwned(queue[1..], s);
    }
  }

  lemma StartIsKept(period: nat, w: World)
    requires period > 0 && IsStart(w)
    ensures Kept(period, w, None)
  {
    forall s: nat
      ensures CycleOk(period, w.now, s, CycleOf(w, s), Extra(None, s) + Own(w.queue, s))
    {
      NoneOwned(w.queue, s);
    }
  }

  lemma {:induction false} RunKeeps(period: nat, w: World, turns: seq<Turn>)
    requires period > 0 && Kept(period, w, None) && IsRun(period, w, turns)
    ensures Kept(period, After(period, w, turns), None)
    ensures forall n | 0 <= n < |turns| ::
      IsRun(period, w, turns[..n]) && turns[n].event < |After(period, w, turns[..n]).queue| &&
      NothingFails(period, After(period, w, turns[..n]), turns[n])
    decreases |turns|
  {
    if turns != [] {
      TurnKeeps(period, w, turns[0]);
      var next := Take(period, w, turns[0]);
      RunKeeps(period, next, turns[1..]);
      forall n | 0 <= n < |turns|
        ensures IsRun(period, w, turns[..n]) && turns[n].event < |After(period, w, turns[..n]).queue|
        ensures NothingFails(period, After(period, w, turns[..n]), turns[n])
      {
        if n > 0 {
          assert turns[..n][1..] == turns[1..][..n - 1] && turns[1..][n - 1] == turns[n];
        }
      }
    }
  }

  /** In every run from the start, every assertion of the cycle code holds at every event. */
  lemma NoAssertionFails(period: nat, w: World, turns: seq<Turn>)
    requires period > 0 && IsStart(w) && IsRun(period, w, turns)
    ensures forall n | 0 <= n < |turns| ::
      IsRun(period, w, turns[..n]) && turns[n].event < |After(period, w, turns[..n]).queue| &&
      NothingFails(period, After(period, w, turns[..n]), turns[n])
  {
    StartIsKept(period, w);
    RunKeeps(period, w, turns);
  }

  // ------------------------------------------------- a close off its boundary

  /** One action due at the start, on a machine with no stream yet. */
  const Begins: World := World(0, [Event(0, DEFAULT, 0, 0, Other)], 1, map[])

  const Running: Cycle := Unused.(isActive := true, nextBoundary := Some(10))

  /** The region runs, and the boundary at tick 10 is due. */
  const Due: World := World(0, [Event(10, DEFAULT, 1, 0, Open(5))], 2, map[5 := Running])

  /** The boundary is open, and its round is due. */
  const RoundDue: World :=
    World(10, [Event(10, PROTECTED_ROUND, 2, 10, EmitRound(5))], 3, map[5 := Running.(isOpen := true)])

  const Emitted: Cycle :=
    Running.(nextBoundary := Some(20), nextRound := 1, lastEmission := Some(10), rounds := [Emission(1, 10, false)])

  /** The round is out, and an action set after it is due at the same tick. */
  const TooLate: World :=
    World(10, [Event(20, DEFAULT, 3, 10, Open(5)), Event(10, DEFAULT, 4, 10, Other)], 5, map[5 := Emitted])

  lemma RunFirst(period: nat, w: World, turn: Turn, rest: seq<Turn>)
    requires period > 0 && MayTurn(period, w, turn)
    ensures IsRun(period, Take(period, w, turn), rest) ==>
      IsRun(period, w, [turn] + rest) && After(period, w, [turn] + rest) == After(period, Take(period, w, turn), rest)
  {
    assert ([turn] + rest)[1..] == rest;
  }

  lemma Edges()
    ensures NextBoundary(10, 0) == 10 && NextBoundary(10, 10) == 20 && IsEdge(10, 10)
  {
    CyclesOfEdge(10, 0);
    CyclesOfEdge(10, 1);
    assert 10 == 1 * 10;
  }

  lemma RegionStarts()
    ensures MayTurn(10, Begins, Turn(0, [Starts(5)])) && Take(10, Begins, Turn(0, [Starts(5)])) == Due
  {
    Edges();
    var started := Acted(10, Begins, 0);
    assert started == Begins.(queue := []);
    assert [Starts(5)][1..] == [];
    assert Activate(10, started, 5) == Due by {
      assert [] + Due.queue == Due.queue;
    }
    assert DoAll(10, started, [Starts(5)]) == DoAll(10, Due, []);
  }

  lemma BoundaryOpens()
    ensures MayTurn(10, Due, Turn(0, [])) && Take(10, Due, Turn(0, [])) == RoundDue
  {
    var acted := Acted(10, Due, 0);
    assert acted.queue == [] && acted.cycles == RoundDue.cycles;
    assert [] + RoundDue.queue == RoundDue.queue;
  }

  lemma RoundLeaves()
    ensures MayTurn(10, RoundDue, Turn(0, [Later(0)])) && Take(10, RoundDue, Turn(0, [Later(0)])) == TooLate
  {
    Edges();
    var sent := Acted(10, RoundDue, 0);
    assert [] + [Emission(1, 10, false)] == Emitted.rounds;
    assert sent.queue == [Event(20, DEFAULT, 3, 10, Open(5))] && sent.cycles == TooLate.cycles;
    assert [Later(0)][1..] == [];
    assert Schedule(sent, 0, DEFAULT, Other) == TooLate;
    assert DoAll(10, sent, [Later(0)]) == DoAll(10, TooLate, []);
  }

  /** An action set at the tick of a stream's own round, after it, runs at that tick; a region it
      ends is not on its boundary, which is a cycle on. */
  lemma ClosesOffBoundary()
    ensures IsStart(Begins)
    ensures var turns := [Turn(0, [Starts(5)])] + ([Turn(0, [])] + ([Turn(0, [Later(0)])] + []));
      IsRun(10, Begins, turns) && After(10, Begins, turns) == TooLate
    ensures IsFirst(TooLate.queue, 1) && TooLate.queue[1].action == Other && IsEdge(10, TooLate.queue[1].time)
    ensures CycleOf(Popped(TooLate, 1), 5).isActive && CycleOf(Popped(TooLate, 1), 5).activatedAt < 10
    ensures !CloseAssertsHold(Popped(TooLate, 1), 5)
  {
    Edges();
    RegionStarts();
    BoundaryOpens();
    RoundLeaves();
    RunFirst(10, Begins, Turn(0, [Starts(5)]), [Turn(0, [])] + ([Turn(0, [Later(0)])] + []));
    RunFirst(10, Due, Turn(0, []), [Turn(0, [Later(0)])] + []);
    RunFirst(10, RoundDue, Turn(0, [Later(0)]), []);
  }

  // ------------------------------------------------ what a stream emitted

  /** One round each cycle from the first edge: each boundary before now has its round while
      the stream is unsealed, no other tick has one, and only the round that seals it is
      final. */
  lemma OneRoundEachCycle(period: nat, start: World, turns: seq<Turn>, s: nat, k: nat)
    requires period > 0 && IsStart(start) && IsRun(period, start, turns)
    ensures var w := After(period, start, turns);
      var c := CycleOf(w, s);
      var first := NextBoundary(period, c.activatedAt);
      && |c.rounds| == c.nextRound
      && (forall j | 0 <= j < |c.rounds| ::
            c.rounds[j] == Emission(j + 1, first + j * period, c.sealedLength.Some? && j == |c.rounds| - 1))
      && (c.sealedLength.Some? ==> c.sealedLength.value == c.nextRound > 0)
      && (c.isActive && c.sealedLength.None? && first + k * period < w.now ==> k < c.nextRound)
  {
    var w := After(period, start, turns);
    StartIsKept(period, start);
    RunKeeps(period, start, turns);
    var c := CycleOf(w, s);
    assert CycleOk(period, w.now, s, c, Extra(None, s) + Own(w.queue, s));
    MoreCycles(c.nextRound, k, period);
  }

  /** Time does not pass a stream that is closing: its final round is this tick's. */
  lemma ClosingHoldsTime(period: nat, w: World, s: nat, i: nat)
    requires period > 0 && Kept(period, w, None) && CycleOf(w, s).isActive && CycleOf(w, s).closes
    requires IsFirst(w.queue, i)
    ensures w.queue[i].time == w.now
  {
    assert CycleOk(period, w.now, s, CycleOf(w, s), Extra(None, s) + Own(w.queue, s));
    OwnIsQueued(w.queue, s);
    var own := Own(w.queue, s);
    assert Extra(None, s) + own == own;
    assert own[0] in w.queue;
    var j :| 0 <= j < |w.queue| && w.queue[j] == own[0];
  }

  lemma {:induction false} DoAllKeepsSealed(period: nat, w: World, e: Event, deeds: seq<Deed>, s: nat)
    requires period > 0 && MayDoAll(period, w, e, deeds) && CycleOf(w, s).sealedLength.Some?
    ensures CycleOf(DoAll(period, w, deeds), s).rounds == CycleOf(w, s).rounds
    ensures CycleOf(DoAll(period, w, deeds), s).sealedLength == CycleOf(w, s).sealedLength
    decreases |deeds|
  {
    if deeds != [] {
      BoundaryIsLater(period, w.now);
      DoAllKeepsSealed(period, Do(period, w, deeds[0]), e, deeds[1..], s);
    }
  }

  /** A sealed stream emits nothing more. */
  lemma NothingAfterSeal(period: nat, w: World, turn: Turn, s: nat)
    requires period > 0 && Kept(period, w, None) && MayTurn(period, w, turn) && CycleOf(w, s).sealedLength.Some?
    ensures CycleOf(Take(period, w, turn), s).rounds == CycleOf(w, s).rounds
    ensures CycleOf(Take(period, w, turn), s).sealedLength == CycleOf(w, s).sealedLength
  {
    var e := w.queue[turn.event];
    BoundaryIsLater(period, e.time);
    assert CycleOk(period, w.now, s, CycleOf(w, s), Extra(None, s) + Own(w.queue, s));
    assert Extra(None, s) + Own(w.queue, s) == Own(w.queue, s);
    OwnTaken(w.queue, turn.event, s);
    assert e.action != EmitRound(s);
    DoAllKeepsSealed(period, Acted(period, w, turn.event), e, turn.deeds, s);
  }
}
