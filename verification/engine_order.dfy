/** The order the engine runs actions in, over whole runs: by tick, at one tick by priority,
    and at one tick and priority in the order they were scheduled.
 */
module EngineOrder {
  import opened Options
  import opened ProtectedCycles
  import opened ProtectedRuns
  import opened ProtectedEngine

  // ------------------------------------------------- what scheduling adds

  /** The queue with events scheduled since: at its end, each with the next number, none due
      before now. */
  ghost predicate Grew(w: World, r: World) {
    && r.now == w.now && w.nextSequence <= r.nextSequence
    && |w.queue| <= |r.queue| && r.queue[..|w.queue|] == w.queue
    && (forall k | |w.queue| <= k < |r.queue| ::
          w.nextSequence <= r.queue[k].sequence < r.nextSequence && r.queue[k].time >= w.now)
    && (forall j, k | |w.queue| <= j < k < |r.queue| :: r.queue[j].sequence < r.queue[k].sequence)
  }

  lemma GrewThenGrew(w: World, m: World, r: World)
    requires Grew(w, m) && Grew(m, r)
    ensures Grew(w, r)
  {
    forall k | 0 <= k < |m.queue|
      ensures r.queue[k] == m.queue[k]
    {
      assert r.queue[..|m.queue|][k] == r.queue[k];
    }
    assert r.queue[..|w.queue|] == r.queue[..|m.queue|][..|w.queue|];
  }

  lemma ActGrew(period: nat, w: World, i: nat)
    requires period > 0 && i < |w.queue|
    ensures Grew(Popped(w, i), Acted(period, w, i))
  {
    BoundaryIsLater(period, w.queue[i].time);
  }

  lemma {:induction false} DoAllGrew(period: nat, w: World, deeds: seq<Deed>)
    requires period > 0
    ensures Grew(w, DoAll(period, w, deeds))
    decreases |deeds|
  {
    if deeds != [] {
      BoundaryIsLater(period, w.now);
      var next := Do(period, w, deeds[0]);
      DoAllGrew(period, next, deeds[1..]);
      GrewThenGrew(w, next, DoAll(period, w, deeds));
    }
  }

  lemma TurnGrew(period: nat, w: World, turn: Turn)
    requires period > 0 && turn.event < |w.queue|
    ensures Grew(Popped(w, turn.event), Take(period, w, turn))
  {
    var popped := Popped(w, turn.event);
    var acted := Acted(period, w, turn.event);
    var done := DoAll(period, acted, turn.deeds);
    ActGrew(period, w, turn.event);
    DoAllGrew(period, acted, turn.deeds);
    GrewThenGrew(popped, acted, done);
    GrewThenGrew(popped, done, Take(period, w, turn));
  }

  lemma GrewNumbered(w: World, r: World)
    requires IsNumbered(w.queue, w.nextSequence) && Grew(w, r)
    ensures IsNumbered(r.queue, r.nextSequence)
  {
    forall k | 0 <= k < |w.queue|
      ensures r.queue[k] == w.queue[k]
    {
      assert r.queue[..|w.queue|][k] == r.queue[k];
    }
  }

  lemma TakeNumbered(period: nat, w: World, turn: Turn)
    requires period > 0 && turn.event < |w.queue| && IsNumbered(w.queue, w.nextSequence)
    ensures IsNumbered(Take(period, w, turn).queue, Take(period, w, turn).nextSequence)
  {
    var popped := Popped(w, turn.event);
    assert popped.queue == w.queue[..turn.event] + w.queue[turn.event + 1..];
    TurnGrew(period, w, turn);
    GrewNumbered(popped, Take(period, w, turn));
  }

  // --------------------------------------------------------- over a run

  /** The event the run's n-th turn takes. */
  ghost function Taken(period: nat, w: World, turns: seq<Turn>, n: nat): Event
    requires period > 0 && IsRun(period, w, turns) && n < |turns|
    decreases n
  {
    if n == 0 then w.queue[turns[0].event] else Taken(period, Take(period, w, turns[0]), turns[1..], n - 1)
  }

  /** An event taken at a turn was queued at the run's start or is scheduled in the run. */
  lemma {:induction false} TakenFromQueue(period: nat, w: World, turns: seq<Turn>, n: nat)
    requires period > 0 && Kept(period, w, None) && IsRun(period, w, turns) && n < |turns|
    ensures var e := Taken(period, w, turns, n);
      e in w.queue || (e.sequence >= w.nextSequence && e.time >= w.now)
    decreases n
  {
    if n > 0 {
      var next := Take(period, w, turns[0]);
      TurnKeeps(period, w, turns[0]);
      TakenFromQueue(period, next, turns[1..], n - 1);
      TurnGrew(period, w, turns[0]);
      AddedOrQueued(period, w, turns[0], Taken(period, w, turns, n));
    }
  }

  /** What a turn leaves queued was queued beside its own event, or was scheduled by it. */
  lemma AddedOrQueued(period: nat, w: World, turn: Turn, e: Event)
    requires period > 0 && Kept(period, w, None) && turn.event < |w.queue|
    requires var r := Take(period, w, turn); e in r.queue || (e.sequence >= r.nextSequence && e.time >= r.now)
    ensures (exists j | 0 <= j < |w.queue| && j != turn.event :: w.queue[j] == e) ||
      (e.sequence >= w.nextSequence && e.time >= w.queue[turn.event].time >= w.now)
  {
    var popped, r := Popped(w, turn.event), Take(period, w, turn);
    TurnGrew(period, w, turn);
    if e in r.queue {
      var k :| 0 <= k < |r.queue| && r.queue[k] == e;
      if k < |popped.queue| {
        assert r.queue[..|popped.queue|][k] == popped.queue[k];
        var j := if k < turn.event then k else k + 1;
        assert w.queue[j] == e;
      }
    }
  }

  /** Of any two turns: time does not run back; at one tick and priority the action scheduled
      first runs first; and an action runs after one of a greater priority of its tick only if
      it was scheduled once that one had been taken. */
  ghost predicate InOrder(e: Event, nextSequence: nat, f: Event) {
    && e.time <= f.time
    && (e.time == f.time && e.priority == f.priority ==> e.sequence < f.sequence)
    && (e.time == f.time && f.priority < e.priority ==> f.sequence >= nextSequence)
  }

  lemma {:induction false} TakenInOrder(period: nat, w: World, turns: seq<Turn>, n: nat, m: nat)
    requires period > 0 && Kept(period, w, None) && IsNumbered(w.queue, w.nextSequence)
    requires IsRun(period, w, turns) && n < m < |turns|
    ensures IsRun(period, w, turns[..n])
    ensures InOrder(
      Taken(period, w, turns, n), After(period, w, turns[..n]).nextSequence, Taken(period, w, turns, m))
    decreases n
  {
    var next := Take(period, w, turns[0]);
    TurnKeeps(period, w, turns[0]);
    if n == 0 {
      TakenFromQueue(period, next, turns[1..], m - 1);
      AddedOrQueued(period, w, turns[0], Taken(period, w, turns, m));
    } else {
      TakeNumbered(period, w, turns[0]);
      TakenInOrder(period, next, turns[1..], n - 1, m - 1);
      assert turns[..n][1..] == turns[1..][..n - 1];
    }
  }

  /** In every run from the start, actions run in the engine's order. */
  lemma EveryRunInOrder(period: nat, start: World, turns: seq<Turn>, n: nat, m: nat)
    requires period > 0 && IsStart(start) && IsNumbered(start.queue, start.nextSequence)
    requires IsRun(period, start, turns) && n < m < |turns|
    ensures IsRun(period, start, turns[..n])
    ensures InOrder(
      Taken(period, start, turns, n), After(period, start, turns[..n]).nextSequence, Taken(period, start, turns, m))
  {
    StartIsKept(period, start);
    TakenInOrder(period, start, turns, n, m);
  }

  // -------------------------------------------------- what an action sets off

  /** A region started runs, one asked to end closes, and an action set for later is the queue's
      last event, due then. */
  lemma DeedsDo(period: nat, w: World, deed: Deed)
    requires period > 0
    ensures NextBoundary(period, w.now) > w.now
    ensures var r := Do(period, w, deed);
      match deed
      case Starts(s) =>
        && CycleOf(r, s).isActive && CycleOf(r, s).activatedAt == w.now
        && CycleOf(r, s).nextBoundary == Some(NextBoundary(period, w.now))
      case Ends(s) => r == w.(cycles := r.cycles) && CycleOf(r, s) == CycleOf(w, s).(closes := true)
      case Later(delay) => r == w.(
        queue := w.queue + [Event(w.now + delay, DEFAULT, w.nextSequence, w.now, Other)],
        nextSequence := w.nextSequence + 1)
  {
    BoundaryIsLater(period, w.now);
  }
}
