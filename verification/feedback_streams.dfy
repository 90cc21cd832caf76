/** The engine and the protected streams as objects: a queue the engine takes its first event
    from, and one cycle record per stream. Each method leaves the world the step gives.
 */
module FeedbackStreamObjects {
  import opened Options
  import opened Clocks
  import opened ProtectedCycles
  import opened ProtectedRuns
  import opened ProtectedEngine
  import opened EngineOrder

  class Engine {
    var now: nat
    var queue: seq<Event>
    var nextSequence: nat

    constructor ()
      ensures now == 0 && queue == [] && nextSequence == 0
    {
      now, queue, nextSequence := 0, [], 0;
    }

    /** The world with the engine's part replaced by what this object holds. */
    ghost function Over(w: World): World
      reads this
    {
      w.(now := now, queue := queue, nextSequence := nextSequence)
    }

    method ScheduleAction(delay: nat, priority: nat, action: Action)
      modifies this`queue, this`nextSequence
      ensures forall w :: Over(w) == Schedule(old(Over(w)), delay, priority, action)
    {
      queue := queue + [Event(now + delay, priority, nextSequence, now, action)];
      nextSequence := nextSequence + 1;
    }

    ghost predicate IsQueue()
      reads this
    {
      IsNumbered(queue, nextSequence)
    }

    /** The event due first, by time, then priority, then sequence, sets the time. */
    method PopFirst() returns (event: Event, ghost i: nat)
      requires queue != [] && IsQueue()
      modifies this`now, this`queue
      ensures IsFirst(old(queue), i) && event == old(queue)[i]
      ensures forall w :: Over(w) == Popped(old(Over(w)), i)
    {
      var first := 0;
      var j := 1;
      while j < |queue|
        invariant first < j <= |queue|
        invariant forall m | 0 <= m < j && m != first :: queue[first].Before(queue[m])
      {
        if queue[j].Before(queue[first]) {
          first := j;
        }
        j := j + 1;
      }
      event := queue[first];
      i := first;
      now := event.time;
      queue := queue[..first] + queue[first + 1..];
    }
  }

  class FeedbackStreams {
    const engine: Engine
    const period: nat
    var cycles: map<nat, Cycle>

    constructor (engine: Engine, period: nat)
      ensures this.engine == engine && this.period == period && cycles == map[]
    {
      this.engine, this.period := engine, period;
      cycles := map[];
    }

    ghost function State(): World
      reads this, engine
    {
      World(engine.now, engine.queue, engine.nextSequence, cycles)
    }

    function Live(stream: nat): Cycle
      reads this
    {
      if stream in cycles then cycles[stream] else Unused
    }

    method ScheduleNextBoundary(stream: nat)
      requires period > 0
      modifies this`cycles, engine`queue, engine`nextSequence
      ensures NextBoundary(period, engine.now) >= engine.now
      ensures State() == ScheduleBoundary(period, old(State()), stream)
    {
      BoundaryIsLater(period, engine.now);
      var next := Edge(period, 0, engine.now);
      if next == engine.now {
        next := next + period;
      }
      cycles := cycles[stream := Live(stream).(nextBoundary := Some(next))];
      ghost var w := State();
      engine.ScheduleAction(next - engine.now, DEFAULT, Open(stream));
      assert State() == engine.Over(w);
    }

    method ActivateRegion(stream: nat)
      requires period > 0
      modifies this`cycles, engine`queue, engine`nextSequence
      ensures NextBoundary(period, engine.now) >= engine.now
      ensures State() == Activate(period, old(State()), stream)
    {
      BoundaryIsLater(period, engine.now);
      cycles := cycles[stream := Live(stream).(isActive := true, activatedAt := engine.now)];
      ScheduleNextBoundary(stream);
    }

    method RequestTheClose(stream: nat)
      requires CloseAssertsHold(State(), stream)
      modifies this`cycles
      ensures State() == RequestClose(old(State()), stream)
    {
      assert Live(stream).isActive;
      assert Live(stream).nextBoundary == Some(engine.now);
      cycles := cycles[stream := Live(stream).(closes := true)];
    }

    method OpenProtectedBoundary(stream: nat)
      requires AssertsHold(State(), Open(stream))
      modifies this`cycles
      ensures State() == OpenBoundary(old(State()), stream)
    {
      assert Live(stream).isActive;
      assert Live(stream).nextBoundary == Some(engine.now);
      assert !Live(stream).isOpen;
      cycles := cycles[stream := Live(stream).(isOpen := true)];
    }

    method EmitProtectedRound(stream: nat)
      requires period > 0 && AssertsHold(State(), EmitRound(stream))
      modifies this`cycles, engine`queue, engine`nextSequence
      ensures NextBoundary(period, engine.now) >= engine.now
      ensures State() == Emit(period, old(State()), stream)
    {
      BoundaryIsLater(period, engine.now);
      var live := Live(stream);
      assert live.isActive && live.isOpen;
      var round := live.nextRound + 1;
      live := live.(
        isOpen := false, nextRound := round, lastEmission := Some(engine.now),
        rounds := live.rounds + [Emission(round, engine.now, live.closes)]);
      if live.closes {
        cycles := cycles[stream := live.(nextBoundary := None, sealedLength := Some(round))];
        ghost var w := State();
        engine.ScheduleAction(0, PROTECTED_RELEASE, Release(stream));
        assert State() == engine.Over(w);
        return;
      }
      cycles := cycles[stream := live];
      ScheduleNextBoundary(stream);
    }

    method ReleaseProtectedRegion(stream: nat)
      requires AssertsHold(State(), Release(stream))
      modifies this`cycles
      ensures State() == ReleaseRegion(old(State()), stream)
    {
      var live := Live(stream);
      assert live.isActive && live.closes && live.nextBoundary.None?;
      assert live.lastEmission == Some(engine.now);
      cycles := cycles[stream := live.(isActive := false, closes := false, lastEmission := None)];
    }

    /** One event of a run: the engine takes its first one, the action runs with no assertion
        failing, and the deeds it allows are done. */
    method RunOne(deeds: seq<Deed>, ghost turn: Turn)
      requires period > 0 && Kept(period, State(), None) && engine.IsQueue() && engine.queue != []
      requires MayTurn(period, State(), turn) && turn.deeds == deeds
      modifies this`cycles, engine
      ensures State() == Take(period, old(State()), turn) && Kept(period, State(), None)
      ensures engine.IsQueue()
    {
      ghost var w := State();
      TakeNumbered(period, w, turn);
      TurnKeeps(period, w, turn);
      ActKeeps(period, w, turn.event);
      var event, i := engine.PopFirst();
      OneIsFirst(w.queue, i, turn.event);
      assert State() == engine.Over(w);
      match event.action {
        case Open(s) => OpenProtectedBoundary(s);
        case EmitRound(s) => EmitProtectedRound(s);
        case Release(s) => ReleaseProtectedRegion(s);
        case Other =>
      }
      assert State() == Acted(period, w, turn.event);
      DoTheDeeds(deeds);
      if event.action.Open? {
        ghost var done := State();
        engine.ScheduleAction(0, PROTECTED_ROUND, EmitRound(event.action.stream));
        assert State() == engine.Over(done);
      }
    }

    method DoTheDeeds(deeds: seq<Deed>)
      requires period > 0 && ClosesHold(period, State(), deeds)
      modifies this`cycles, engine`queue, engine`nextSequence
      ensures State() == DoAll(period, old(State()), deeds)
    {
      var n := 0;
      while n < |deeds|
        invariant n <= |deeds| && ClosesHold(period, State(), deeds[n..])
        invariant DoAll(period, State(), deeds[n..]) == DoAll(period, old(State()), deeds)
      {
        BoundaryIsLater(period, engine.now);
        assert deeds[n..][0] == deeds[n] && deeds[n..][1..] == deeds[n + 1..];
        match deeds[n] {
          case Starts(s) => ActivateRegion(s);
          case Ends(s) => RequestTheClose(s);
          case Later(delay) =>
            ghost var w := State();
            engine.ScheduleAction(delay, DEFAULT, Other);
            assert State() == engine.Over(w);
        }
        n := n + 1;
      }
    }
  }

  /** Only one event comes before every other. */
  lemma OneIsFirst(queue: seq<Event>, i: nat, j: nat)
    requires IsFirst(queue, i) && IsFirst(queue, j)
    ensures i == j
  {
    assert queue[i].time <= queue[j].time && queue[j].time <= queue[i].time;
  }
}
