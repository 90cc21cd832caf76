/** Protected streams on the engine: one round each cycle, in the order the engine runs actions
    due at one tick.

    The environment is what other actions do: they start regions, end them, and schedule more
    actions of the default priority.
 */
module ProtectedCycles {
  import opened Options
  import opened Clocks

  // ---------------------------------------------------------------- engine

  datatype Action = Open(stream: nat) | EmitRound(stream: nat) | Release(stream: nat) | Other

  /** setAt is the tick the event was scheduled at; the engine keeps no such field. */
  datatype Event = Event(time: nat, priority: nat, sequence: nat, setAt: nat, action: Action) {

    predicate Before(other: Event) {
      if time != other.time then time < other.time
      else if priority != other.priority then priority < other.priority
      else sequence < other.sequence
    }
  }

  const DEFAULT: nat := 0
  const PROTECTED_ROUND: nat := 1
  const PROTECTED_RELEASE: nat := 2

  datatype Emission = Emission(index: nat, tick: nat, isFinal: bool)

  /** One live stream: its cycle, and the rounds it emitted. since is the tick the stream's
      clock was last set at: its activation or its last emission. */
  datatype Cycle = Cycle(
    isActive: bool,
    nextBoundary: Option<nat>,
    isOpen: bool,
    closes: bool,
    nextRound: nat,
    lastEmission: Option<nat>,
    sealedLength: Option<nat>,
    activatedAt: nat,
    rounds: seq<Emission>)

  const Unused: Cycle := Cycle(false, None, false, false, 0, None, None, 0, [])

  datatype World = World(now: nat, queue: seq<Event>, nextSequence: nat, cycles: map<nat, Cycle>)

  function CycleOf(w: World, stream: nat): Cycle {
    if stream in w.cycles then w.cycles[stream] else Unused
  }

  function WithCycle(w: World, stream: nat, cycle: Cycle): World {
    w.(cycles := w.cycles[stream := cycle])
  }

  function Schedule(w: World, delay: nat, priority: nat, action: Action): World {
    w.(
      queue := w.queue + [Event(w.now + delay, priority, w.nextSequence, w.now, action)],
      nextSequence := w.nextSequence + 1)
  }

  /** No event of the queue is due earlier, none due with it has a lesser priority, and of those
      of its priority it was scheduled first. */
  ghost predicate IsFirst(queue: seq<Event>, i: nat) {
    i < |queue| && forall j | 0 <= j < |queue| ::
      && queue[i].time <= queue[j].time
      && (queue[i].time == queue[j].time ==> queue[i].priority <= queue[j].priority)
      && (queue[i].time == queue[j].time && queue[i].priority == queue[j].priority && j != i ==>
            queue[i].sequence < queue[j].sequence)
  }

  /** Events are numbered as they are scheduled, each with a number of its own. */
  ghost predicate IsNumbered(queue: seq<Event>, nextSequence: nat) {
    && (forall i | 0 <= i < |queue| :: queue[i].sequence < nextSequence)
    && (forall i, j | 0 <= i < j < |queue| :: queue[i].sequence != queue[j].sequence)
  }

  function Without(queue: seq<Event>, i: nat): seq<Event>
    requires i < |queue|
  {
    queue[..i] + queue[i + 1..]
  }

  // -------------------------------------------------------- the cycle's steps

  /** The first cycle boundary after now; an edge's own round is already out. */
  function NextBoundary(period: nat, now: nat): nat
    requires period > 0
  {
    var edge := Edge(period, 0, now);
    if edge == now then edge + period else edge
  }

  function ScheduleBoundary(period: nat, w: World, stream: nat): World
    requires period > 0 && NextBoundary(period, w.now) >= w.now
  {
    var next := NextBoundary(period, w.now);
    Schedule(
      WithCycle(w, stream, CycleOf(w, stream).(nextBoundary := Some(next))),
      next - w.now, DEFAULT, Open(stream))
  }

  function Activate(period: nat, w: World, stream: nat): World
    requires period > 0 && NextBoundary(period, w.now) >= w.now
  {
    ScheduleBoundary(period, WithCycle(w, stream, CycleOf(w, stream).(isActive := true, activatedAt := w.now)), stream)
  }

  /** The region's end operation finished: it closes on the current boundary. */
  function RequestClose(w: World, stream: nat): World {
    WithCycle(w, stream, CycleOf(w, stream).(closes := true))
  }

  function OpenBoundary(w: World, stream: nat): World {
    WithCycle(w, stream, CycleOf(w, stream).(isOpen := true))
  }

  function Emit(period: nat, w: World, stream: nat): World
    requires period > 0 && NextBoundary(period, w.now) >= w.now
  {
    var cycle := CycleOf(w, stream);
    var round := cycle.nextRound + 1;
    var emitted := cycle.(
      isOpen := false,
      nextRound := round,
      lastEmission := Some(w.now),
      rounds := cycle.rounds + [Emission(round, w.now, cycle.closes)]);
    if cycle.closes then
      Schedule(
        WithCycle(w, stream, emitted.(nextBoundary := None, sealedLength := Some(round))),
        0, PROTECTED_RELEASE, Release(stream))
    else ScheduleBoundary(period, WithCycle(w, stream, emitted), stream)
  }

  function ReleaseRegion(w: World, stream: nat): World {
    WithCycle(w, stream, CycleOf(w, stream).(isActive := false, closes := false, lastEmission := None))
  }

  // --------------------------------------------------------- the assertions

  /** What the code asserts as it opens a boundary, emits, releases, or asks for a close. */
  predicate AssertsHold(w: World, action: Action) {
    match action
    case Open(s) =>
      var cycle := CycleOf(w, s);
      cycle.isActive && cycle.nextBoundary == Some(w.now) && !cycle.isOpen
    case EmitRound(s) => CycleOf(w, s).isActive && CycleOf(w, s).isOpen
    case Release(s) =>
      var cycle := CycleOf(w, s);
      cycle.isActive && cycle.closes && cycle.nextBoundary.None? && cycle.lastEmission == Some(w.now)
    case Other => true
  }

  predicate CloseAssertsHold(w: World, stream: nat) {
    CycleOf(w, stream).isActive && CycleOf(w, stream).nextBoundary == Some(w.now)
  }

  // ----------------------------------------------------------- one event

  /** What an event's action lets the rest of the machine do. */
  datatype Deed = Starts(stream: nat) | Ends(stream: nat) | Later(delay: nat)

  /** A region starts once. One ends in an action set at an earlier tick, its body ending on
      a cycle edge after the tick it started at. */
  ghost predicate MayDo(period: nat, w: World, event: Event, deed: Deed) {
    match deed
    case Starts(s) => !event.action.EmitRound? && !CycleOf(w, s).isActive && CycleOf(w, s).sealedLength.None?
    case Ends(s) =>
      && event.action.Other? && event.setAt < w.now && IsEdge(period, w.now)
      && CycleOf(w, s).isActive && CycleOf(w, s).activatedAt < w.now
    case Later(_) => true
  }

  function Do(period: nat, w: World, deed: Deed): World
    requires period > 0 && NextBoundary(period, w.now) >= w.now
  {
    match deed
    case Starts(s) => Activate(period, w, s)
    case Ends(s) => RequestClose(w, s)
    case Later(delay) => Schedule(w, delay, DEFAULT, Other)
  }

  /** The action's own effect before the deeds it lets happen. */
  function Act(period: nat, w: World, action: Action): World
    requires period > 0 && NextBoundary(period, w.now) >= w.now
  {
    match action
    case Open(s) => OpenBoundary(w, s)
    case EmitRound(s) => Emit(period, w, s)
    case Release(s) => ReleaseRegion(w, s)
    case Other => w
  }

  /** What the action does after them: an open boundary's round is emitted this tick. */
  function Finish(w: World, action: Action): World {
    match action
    case Open(s) => Schedule(w, 0, PROTECTED_ROUND, EmitRound(s))
    case _ => w
  }

  /** The event is taken from the queue and sets the time. */
  function Popped(w: World, i: nat): World
    requires i < |w.queue|
  {
    w.(now := w.queue[i].time, queue := Without(w.queue, i))
  }

  lemma BoundaryIsLater(period: nat, now: nat)
    requires period > 0
    ensures NextBoundary(period, now) > now && IsEdge(period, NextBoundary(period, now))
    ensures forall tick: nat | IsEdge(period, tick) && tick > now :: tick >= NextBoundary(period, now)
  {
    EdgeIsNext(period, now, 0);
    var edge := Edge(period, 0, now);
    if edge == now {
      var n: nat :| edge == n * period;
      assert (n + 1) * period == edge + period;
      assert IsEdge(period, edge + period);
    }
    forall tick: nat | IsEdge(period, tick) && tick > now
      ensures tick >= NextBoundary(period, now)
    {
      EdgeIsNext(period, now, tick);
      if edge == now {
        EdgesApart(period, now, tick);
      }
    }
  }
}
