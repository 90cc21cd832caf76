/** Every run of the engine over protected streams: no assertion of the cycle code fails, and a
    stream emits one round each cycle from its first edge to its seal.
 */
module ProtectedRuns {
  import opened Options
  import opened Clocks
  import opened ProtectedCycles

  function StreamOf(action: Action): Option<nat> {
    match action
    case Open(s) => Some(s)
    case EmitRound(s) => Some(s)
    case Release(s) => Some(s)
    case Other => None
  }

  function If(e: Event, stream: nat): seq<Event> {
    if StreamOf(e.action) == Some(stream) then [e] else []
  }

  /** The stream's own events among those queued. */
  function Own(queue: seq<Event>, stream: nat): seq<Event> {
    if queue == [] then [] else If(queue[0], stream) + Own(queue[1..], stream)
  }

  // ------------------------------------------------------------ what is kept

  /** The tick the stream's clock was last set at. */
  function Since(c: Cycle): nat {
    if c.lastEmission.Some? then c.lastEmission.value else c.activatedAt
  }

  function First(period: nat, c: Cycle): nat
    requires period > 0
  {
    NextBoundary(period, c.activatedAt)
  }

  /** One round each cycle from the first edge, numbered in order; the last is final just when
      the stream is sealed, at that length. */
  ghost predicate RoundsOk(period: nat, c: Cycle)
    requires period > 0
  {
    && |c.rounds| == c.nextRound
    && (c.sealedLength.Some? ==> c.sealedLength.value == c.nextRound && c.nextRound > 0)
    && (forall k | 0 <= k < |c.rounds| ::
          c.rounds[k] == Emission(k + 1, First(period, c) + k * period, c.sealedLength.Some? && k == |c.rounds| - 1))
  }

  ghost predicate IsEvent(own: seq<Event>, action: Action, time: nat, priority: nat) {
    |own| == 1 && own[0].action == action && own[0].time == time && own[0].priority == priority
  }

  ghost predicate Inactive(c: Cycle, own: seq<Event>) {
    && own == [] && !c.isOpen && !c.closes && c.nextBoundary.None? && c.lastEmission.None?
    && (c.sealedLength.None? ==> c.nextRound == 0)
  }

  /** Between rounds: the next boundary is one cycle after the last round. */
  ghost predicate Cycling(period: nat, now: nat, stream: nat, c: Cycle, own: seq<Event>)
    requires period > 0
  {
    && c.nextBoundary.Some? && c.sealedLength.None?
    && now <= c.nextBoundary.value == NextBoundary(period, Since(c))
    && c.nextBoundary.value == First(period, c) + c.nextRound * period
    && (c.lastEmission.Some? <==> c.nextRound > 0)
    && c.activatedAt <= Since(c) <= now
    && (c.closes || c.isOpen ==> c.nextBoundary.value == now)
    && (if c.isOpen then IsEvent(own, EmitRound(stream), now, PROTECTED_ROUND)
        else IsEvent(own, Open(stream), c.nextBoundary.value, DEFAULT))
  }

  /** The final round is out; the release follows this tick. */
  ghost predicate Closing(now: nat, stream: nat, c: Cycle, own: seq<Event>) {
    && c.nextBoundary.None? && c.closes && !c.isOpen && c.lastEmission == Some(now) && c.sealedLength.Some?
    && IsEvent(own, Release(stream), now, PROTECTED_RELEASE)
  }

  ghost predicate CycleOk(period: nat, now: nat, stream: nat, c: Cycle, own: seq<Event>)
    requires period > 0
  {
    && RoundsOk(period, c)
    && (if !c.isActive then Inactive(c, own)
        else Cycling(period, now, stream, c, own) || Closing(now, stream, c, own))
  }

  /** An event of the stream that is being run, or is about to be scheduled. */
  function Extra(extra: Option<Event>, stream: nat): seq<Event> {
    if extra.Some? && StreamOf(extra.value.action) == Some(stream) then [extra.value] else []
  }

  ghost predicate CyclesOk(period: nat, w: World, extra: Option<Event>)
    requires period > 0
  {
    forall s :: CycleOk(period, w.now, s, CycleOf(w, s), Extra(extra, s) + Own(w.queue, s))
  }

  ghost predicate QueueOk(w: World) {
    forall i | 0 <= i < |w.queue| ::
      && w.queue[i].time >= w.now && w.queue[i].setAt <= w.now
      && (w.queue[i].action.Other? || w.queue[i].action.Open? ==> w.queue[i].priority == DEFAULT)
  }

  ghost predicate EmittedNow(w: World, stream: nat) {
    CycleOf(w, stream).lastEmission == Some(w.now)
  }

  /** Once a round is out at a tick, no action of the default priority set at an earlier tick
      is still due at it. */
  ghost predicate RoundsComeAfter(w: World) {
    forall s | EmittedNow(w, s) ::
      forall i | 0 <= i < |w.queue| && w.queue[i].time == w.now && w.queue[i].priority == DEFAULT ::
        w.queue[i].setAt == w.now
  }

  ghost predicate Kept(period: nat, w: World, extra: Option<Event>)
    requires period > 0
  {
    CyclesOk(period, w, extra) && QueueOk(w) && RoundsComeAfter(w)
  }

  // ------------------------------------------------------------- the queue

  lemma {:induction false} OwnAppend(a: seq<Event>, b: seq<Event>, stream: nat)
    ensures Own(a + b, stream) == Own(a, stream) + Own(b, stream)
  {
    if a == [] {
      assert a + b == b;
    } else {
      OwnAppend(a[1..], b, stream);
      assert (a + b)[1..] == a[1..] + b && (a + b)[0] == a[0];
      Associates(If(a[0], stream), Own(a[1..], stream), Own(b, stream));
    }
  }

  lemma Associates(a: seq<Event>, b: seq<Event>, c: seq<Event>)
    ensures a + (b + c) == a + b + c
  {
  }

  lemma OwnScheduled(w: World, delay: nat, priority: nat, action: Action, stream: nat)
    ensures Own(Schedule(w, delay, priority, action).queue, stream) ==
      Own(w.queue, stream) +
      (if StreamOf(action) == Some(stream) then [Event(w.now + delay, priority, w.nextSequence, w.now, action)] else [])
  {
    var event := Event(w.now + delay, priority, w.nextSequence, w.now, action);
    OwnAppend(w.queue, [event], stream);
    assert [event][1..] == [];
  }

  /** The stream's only event taken, or another's. */
  lemma OwnTaken(queue: seq<Event>, i: nat, stream: nat)
    requires i < |queue| && |Own(queue, stream)| <= 1
    ensures if StreamOf(queue[i].action) == Some(stream)
      then Own(queue, stream) == [queue[i]] && Own(Without(queue, i), stream) == []
      else Own(Without(queue, i), stream) == Own(queue, stream)
  {
    var before, after := Own(queue[..i], stream), Own(queue[i + 1..], stream);
    OwnSplit(queue, i, stream);
    if StreamOf(queue[i].action) == Some(stream) {
      assert |before + ([queue[i]] + after)| == |before| + 1 + |after|;
      assert before == [] && after == [];
    }
  }

  lemma OwnSplit(queue: seq<Event>, i: nat, stream: nat)
    requires i < |queue|
    ensures Own(queue, stream) == Own(queue[..i], stream) + (If(queue[i], stream) + Own(queue[i + 1..], stream))
    ensures Own(Without(queue, i), stream) == Own(queue[..i], stream) + Own(queue[i + 1..], stream)
  {
    assert queue == queue[..i] + queue[i..];
    OwnAppend(queue[..i], queue[i..], stream);
    OwnAppend(queue[..i], queue[i + 1..], stream);
  }

  /** An event is taken: the time moves to it, and it is its stream's only one. */
  lemma PoppedKeeps(period: nat, w: World, i: nat)
    requires period > 0 && Kept(period, w, None) && IsFirst(w.queue, i)
    ensures Kept(period, Popped(w, i), Some(w.queue[i]))
    ensures w.queue[i].priority == DEFAULT && w.queue[i].setAt < Popped(w, i).now ==>
      forall s :: !EmittedNow(Popped(w, i), s)
    ensures w.queue[i].action.EmitRound? ==>
      forall j | 0 <= j < |Popped(w, i).queue| ::
        Popped(w, i).queue[j].time > Popped(w, i).now || Popped(w, i).queue[j].priority != DEFAULT
  {
    var p := Popped(w, i);
    var e := w.queue[i];
    PoppedCycles(period, w, i);
    PoppedQueue(w, i);
    forall s | EmittedNow(p, s)
      ensures p.now == w.now && EmittedNow(w, s)
    {
      assert CycleOk(period, w.now, s, CycleOf(w, s), Extra(None, s) + Own(w.queue, s));
    }
    if e.action.EmitRound? {
      RoundsHaveTheirPriority(period, w, i);
    }
  }

  lemma PoppedQueue(w: World, i: nat)
    requires QueueOk(w) && IsFirst(w.queue, i)
    ensures QueueOk(Popped(w, i))
    ensures forall j | 0 <= j < |Popped(w, i).queue| ::
      && Popped(w, i).queue[j] in w.queue
      && w.queue[i].time <= Popped(w, i).queue[j].time
      && (w.queue[i].time == Popped(w, i).queue[j].time ==> w.queue[i].priority <= Popped(w, i).queue[j].priority)
  {
    var p := Popped(w, i);
    assert forall j | 0 <= j < |p.queue| :: p.queue[j] == w.queue[if j < i then j else j + 1];
  }

  lemma RoundsHaveTheirPriority(period: nat, w: World, i: nat)
    requires period > 0 && CyclesOk(period, w, None) && i < |w.queue| && w.queue[i].action.EmitRound?
    ensures w.queue[i].priority == PROTECTED_ROUND
  {
    var s := w.queue[i].action.stream;
    assert CycleOk(period, w.now, s, CycleOf(w, s), Extra(None, s) + Own(w.queue, s));
    OwnTaken(w.queue, i, s);
  }

  lemma PoppedCycles(period: nat, w: World, i: nat)
    requires period > 0 && CyclesOk(period, w, None) && QueueOk(w) && IsFirst(w.queue, i)
    ensures CyclesOk(period, Popped(w, i), Some(w.queue[i]))
  {
    var p := Popped(w, i);
    var e := w.queue[i];
    forall s: nat
      ensures CycleOk(period, p.now, s, CycleOf(p, s), Extra(Some(e), s) + Own(p.queue, s))
    {
      assert CycleOk(period, w.now, s, CycleOf(w, s), Extra(None, s) + Own(w.queue, s));
      assert Extra(None, s) + Own(w.queue, s) == Own(w.queue, s);
      OwnTaken(w.queue, i, s);
      assert Extra(Some(e), s) + Own(p.queue, s) == Own(w.queue, s);
      OwnIsQueued(w.queue, s);
      PoppedCycle(period, w, i, s);
    }
  }

  lemma {:induction false} OwnIsQueued(queue: seq<Event>, stream: nat)
    ensures forall e :: e in Own(queue, stream) ==> e in queue
  {
    if queue != [] {
      OwnIsQueued(queue[1..], stream);
    }
  }

  lemma PoppedCycle(period: nat, w: World, i: nat, s: nat)
    requires period > 0 && QueueOk(w) && IsFirst(w.queue, i)
    requires CycleOk(period, w.now, s, CycleOf(w, s), Own(w.queue, s))
    requires forall e :: e in Own(w.queue, s) ==> e in w.queue
    ensures CycleOk(period, w.queue[i].time, s, CycleOf(w, s), Own(w.queue, s))
  {
    var own := Own(w.queue, s);
    if own != [] {
      assert own[0] in w.queue;
      var j :| 0 <= j < |w.queue| && w.queue[j] == own[0];
      assert w.queue[i].time <= own[0].time;
    }
  }

  // ------------------------------------------------------------ the actions

  /** Every other stream's cycle and events are as they were. */
  lemma OthersKept(period: nat, w: World, extra: Option<Event>, r: World, after: Option<Event>, stream: nat)
    requires period > 0 && CyclesOk(period, w, extra) && r.now == w.now
    requires forall s | s != stream :: CycleOf(r, s) == CycleOf(w, s) && Own(r.queue, s) == Own(w.queue, s)
    requires forall s | s != stream :: Extra(after, s) == Extra(extra, s)
    requires CycleOk(period, r.now, stream, CycleOf(r, stream), Extra(after, stream) + Own(r.queue, stream))
    ensures CyclesOk(period, r, after)
  {
    forall s: nat
      ensures CycleOk(period, r.now, s, CycleOf(r, s), Extra(after, s) + Own(r.queue, s))
    {
      assert CycleOk(period, w.now, s, CycleOf(w, s), Extra(extra, s) + Own(w.queue, s));
    }
  }

  lemma ScheduledOthers(w: World, delay: nat, priority: nat, action: Action)
    ensures forall s: nat | StreamOf(action) != Some(s) ::
      Own(Schedule(w, delay, priority, action).queue, s) == Own(w.queue, s)
  {
    forall s: nat | StreamOf(action) != Some(s)
      ensures Own(Schedule(w, delay, priority, action).queue, s) == Own(w.queue, s)
    {
      OwnScheduled(w, delay, priority, action, s);
      assert Own(w.queue, s) + [] == Own(w.queue, s);
    }
  }

  /** An event scheduled now keeps the queue and its order. */
  lemma QueueGrows(w: World, r: World, delay: nat, priority: nat, action: Action)
    requires QueueOk(w) && (action.Other? || action.Open? ==> priority == DEFAULT)
    requires r.now == w.now && r.queue == w.queue + [Event(w.now + delay, priority, w.nextSequence, w.now, action)]
    ensures QueueOk(r)
    ensures RoundsComeAfter(w) && (forall x | EmittedNow(r, x) :: EmittedNow(w, x)) ==> RoundsComeAfter(r)
  {
  }

  /** The emission that follows an open boundary, about to be scheduled. */
  function ToEmit(w: World, stream: nat): Event {
    Event(w.now, PROTECTED_ROUND, w.nextSequence, w.now, EmitRound(stream))
  }

  ghost predicate Runs(period: nat, w: World, e: Event)
    requires period > 0
  {
    && Kept(period, w, Some(e)) && e.time == w.now
    && (e.action.EmitRound? ==> forall j | 0 <= j < |w.queue| ::
      w.queue[j].time > w.now || w.queue[j].priority != DEFAULT)
  }

  lemma RunningCycle(period: nat, w: World, e: Event, s: nat)
    requires period > 0 && Runs(period, w, e) && StreamOf(e.action) == Some(s)
    ensures Own(w.queue, s) == [] && CycleOk(period, w.now, s, CycleOf(w, s), [e])
    ensures AssertsHold(w, e.action)
  {
    assert CycleOk(period, w.now, s, CycleOf(w, s), Extra(Some(e), s) + Own(w.queue, s));
    assert Extra(Some(e), s) + Own(w.queue, s) == [e] + Own(w.queue, s);
  }

  lemma OpenKeeps(period: nat, w: World, e: Event, s: nat)
    requires period > 0 && Runs(period, w, e) && e.action == Open(s)
    ensures AssertsHold(w, e.action)
    ensures Kept(period, OpenBoundary(w, s), Some(ToEmit(w, s)))
  {
    RunningCycle(period, w, e, s);
    var r := OpenBoundary(w, s);
    assert Extra(Some(ToEmit(w, s)), s) + Own(r.queue, s) == [ToEmit(w, s)];
    OthersKept(period, w, Some(e), r, Some(ToEmit(w, s)), s);
    assert forall x | EmittedNow(r, x) :: EmittedNow(w, x);
  }

  lemma NextOfEdge(period: nat, c: Cycle, now: nat)
    requires period > 0 && now == First(period, c) + c.nextRound * period
    ensures IsEdge(period, now)
    ensures NextBoundary(period, now) == now + period == First(period, c) + (c.nextRound + 1) * period
  {
    BoundaryIsLater(period, c.activatedAt);
    var n: nat :| First(period, c) == n * period;
    assert now == (n + c.nextRound) * period;
    CyclesOfEdge(period, n + c.nextRound);
    assert (n + c.nextRound + 0) * period == now;
    assert (c.nextRound + 1) * period == c.nextRound * period + period;
  }

  lemma EmittedRounds(period: nat, now: nat, c: Cycle)
    requires period > 0 && RoundsOk(period, c) && c.sealedLength.None? && now == First(period, c) + c.nextRound * period
    ensures var e := c.(
        nextRound := c.nextRound + 1,
        rounds := c.rounds + [Emission(c.nextRound + 1, now, c.closes)],
        sealedLength := if c.closes then Some(c.nextRound + 1) else None);
      RoundsOk(period, e)
  {
  }

  /** What an emission schedules: the release of a closing region, or the next boundary. */
  lemma EmitSchedules(period: nat, w: World, s: nat)
    requires period > 0 && NextBoundary(period, w.now) == w.now + period
    ensures var c := CycleOf(w, s);
      var r := Emit(period, w, s);
      && r == Schedule(
        WithCycle(w, s, CycleOf(r, s)), if c.closes then 0 else period,
        if c.closes then PROTECTED_RELEASE else DEFAULT, if c.closes then Release(s) else Open(s))
      && forall x | x != s :: CycleOf(r, x) == CycleOf(w, x)
  {
    var c := CycleOf(w, s);
    var r := Emit(period, w, s);
    assert r.cycles == w.cycles[s := CycleOf(r, s)];
  }

  lemma EmitOwn(period: nat, w: World, s: nat)
    requires period > 0 && NextBoundary(period, w.now) == w.now + period && Own(w.queue, s) == []
    ensures var c := CycleOf(w, s);
      Own(Emit(period, w, s).queue, s) == [Event(
        w.now + (if c.closes then 0 else period),
        if c.closes then PROTECTED_RELEASE else DEFAULT, w.nextSequence, w.now,
        if c.closes then Release(s) else Open(s))]
    ensures forall x: nat | x != s :: Own(Emit(period, w, s).queue, x) == Own(w.queue, x)
  {
    var base := WithCycle(w, s, CycleOf(Emit(period, w, s), s));
    EmitSchedules(period, w, s);
    if CycleOf(w, s).closes {
      OwnsOne(base, 0, PROTECTED_RELEASE, Release(s), s);
    } else {
      OwnsOne(base, period, DEFAULT, Open(s), s);
    }
  }

  lemma OwnsOne(w: World, delay: nat, priority: nat, action: Action, s: nat)
    requires Own(w.queue, s) == [] && StreamOf(action) == Some(s)
    ensures var r := Schedule(w, delay, priority, action);
      && Own(r.queue, s) == [Event(w.now + delay, priority, w.nextSequence, w.now, action)]
      && forall x: nat | x != s :: Own(r.queue, x) == Own(w.queue, x)
  {
    ScheduledOthers(w, delay, priority, action);
    OwnScheduled(w, delay, priority, action, s);
  }

  lemma EmitKeepsCycles(period: nat, w: World, e: Event, s: nat)
    requires period > 0 && Runs(period, w, e) && e.action == EmitRound(s)
    ensures NextBoundary(period, w.now) == w.now + period && CyclesOk(period, Emit(period, w, s), None)
  {
    RunningCycle(period, w, e, s);
    var c := CycleOf(w, s);
    NextOfEdge(period, c, w.now);
    EmittedRounds(period, w.now, c);
    EmitSchedules(period, w, s);
    EmitOwn(period, w, s);
    EmittedCycle(period, w, e, s, Emit(period, w, s));
    OthersKept(period, w, Some(e), Emit(period, w, s), None, s);
  }

  lemma EmitKeeps(period: nat, w: World, e: Event, s: nat)
    requires period > 0 && Runs(period, w, e) && e.action == EmitRound(s)
    ensures AssertsHold(w, e.action)
    ensures NextBoundary(period, w.now) >= w.now && Kept(period, Emit(period, w, s), None)
  {
    RunningCycle(period, w, e, s);
    EmitKeepsCycles(period, w, e, s);
    EmitSchedules(period, w, s);
    var c := CycleOf(w, s);
    QueueGrows(w, Emit(period, w, s), if c.closes then 0 else period, if c.closes then PROTECTED_RELEASE else DEFAULT,
      if c.closes then Release(s) else Open(s));
  }

  lemma EmittedCycle(period: nat, w: World, e: Event, s: nat, r: World)
    requires period > 0 && NextBoundary(period, w.now) >= w.now && r == Emit(period, w, s)
    requires CycleOk(period, w.now, s, CycleOf(w, s), [e]) && e.action == EmitRound(s)
    requires NextBoundary(period, w.now) == w.now + period ==
      First(period, CycleOf(w, s)) + (CycleOf(w, s).nextRound + 1) * period
    requires RoundsOk(period, CycleOf(r, s))
    requires Own(r.queue, s) == [Event(
      w.now + (if CycleOf(w, s).closes then 0 else period),
      if CycleOf(w, s).closes then PROTECTED_RELEASE else DEFAULT, w.nextSequence, w.now,
      if CycleOf(w, s).closes then Release(s) else Open(s))]
    ensures CycleOk(period, r.now, s, CycleOf(r, s), Extra(None, s) + Own(r.queue, s))
  {
    assert Extra(None, s) + Own(r.queue, s) == Own(r.queue, s);
  }

  lemma ReleaseKeeps(period: nat, w: World, e: Event, s: nat)
    requires period > 0 && Runs(period, w, e) && e.action == Release(s)
    ensures AssertsHold(w, e.action)
    ensures Kept(period, ReleaseRegion(w, s), None)
  {
    RunningCycle(period, w, e, s);
    var r := ReleaseRegion(w, s);
    OthersKept(period, w, Some(e), r, None, s);
    assert forall x | EmittedNow(r, x) :: EmittedNow(w, x);
  }

  lemma OtherKeeps(period: nat, w: World, e: Event)
    requires period > 0 && Runs(period, w, e) && e.action == Other
    ensures Kept(period, w, None)
  {
    assert forall s :: Extra(Some(e), s) == Extra(None, s);
  }

  // -------------------------------------------------------------- the deeds

  /** At a cycle edge, an active stream's next boundary is now just when the stream started
      before this tick and its round of this tick is not out. */
  lemma ClosesOnBoundaryExactly(period: nat, w: World, extra: Option<Event>, s: nat)
    requires period > 0 && CyclesOk(period, w, extra) && CycleOf(w, s).isActive && IsEdge(period, w.now)
    ensures CloseAssertsHold(w, s) <==> CycleOf(w, s).activatedAt < w.now && !EmittedNow(w, s)
  {
    var c := CycleOf(w, s);
    assert CycleOk(period, w.now, s, c, Extra(extra, s) + Own(w.queue, s));
    BoundaryIsLater(period, Since(c));
  }

  lemma StartSchedules(period: nat, w: World, s: nat)
    requires period > 0 && NextBoundary(period, w.now) >= w.now
    ensures var r := Activate(period, w, s);
      && r == Schedule(WithCycle(w, s, CycleOf(r, s)), NextBoundary(period, w.now) - w.now, DEFAULT, Open(s))
      && CycleOf(r, s) ==
        CycleOf(w, s).(isActive := true, activatedAt := w.now, nextBoundary := Some(NextBoundary(period, w.now)))
      && forall x | x != s :: CycleOf(r, x) == CycleOf(w, x)
  {
    var r := Activate(period, w, s);
    assert r.cycles == w.cycles[s := CycleOf(r, s)];
  }

  lemma StartedCycle(period: nat, w: World, extra: Option<Event>, s: nat)
    requires period > 0 && CyclesOk(period, w, extra) && !CycleOf(w, s).isActive && CycleOf(w, s).sealedLength.None?
    requires NextBoundary(period, w.now) >= w.now
    ensures CyclesOk(period, Activate(period, w, s), extra)
  {
    var r := Activate(period, w, s);
    var next := NextBoundary(period, w.now);
    assert CycleOk(period, w.now, s, CycleOf(w, s), Extra(extra, s) + Own(w.queue, s));
    assert Extra(extra, s) == [] && Own(w.queue, s) == [];
    StartSchedules(period, w, s);
    var base := WithCycle(w, s, CycleOf(r, s));
    OwnScheduled(base, next - w.now, DEFAULT, Open(s), s);
    ScheduledOthers(base, next - w.now, DEFAULT, Open(s));
    assert Extra(extra, s) + Own(r.queue, s) == Own(r.queue, s);
    OthersKept(period, w, extra, r, extra, s);
  }

  lemma StartsKeeps(period: nat, w: World, extra: Option<Event>, s: nat)
    requires period > 0 && Kept(period, w, extra) && !CycleOf(w, s).isActive && CycleOf(w, s).sealedLength.None?
    ensures NextBoundary(period, w.now) >= w.now && Kept(period, Activate(period, w, s), extra)
    ensures forall x | EmittedNow(Activate(period, w, s), x) :: EmittedNow(w, x)
  {
    BoundaryIsLater(period, w.now);
    StartedCycle(period, w, extra, s);
    StartSchedules(period, w, s);
    var r := Activate(period, w, s);
    assert forall x | EmittedNow(r, x) :: EmittedNow(w, x);
    QueueGrows(w, r, NextBoundary(period, w.now) - w.now, DEFAULT, Open(s));
  }

  lemma EndsKeeps(period: nat, w: World, extra: Option<Event>, s: nat)
    requires period > 0 && Kept(period, w, extra) && CycleOf(w, s).isActive && IsEdge(period, w.now)
    requires CycleOf(w, s).activatedAt < w.now && !EmittedNow(w, s)
    ensures CloseAssertsHold(w, s) && Kept(period, RequestClose(w, s), extra)
    ensures forall x | EmittedNow(RequestClose(w, s), x) :: EmittedNow(w, x)
  {
    ClosesOnBoundaryExactly(period, w, extra, s);
    EndedCycles(period, w, extra, s);
    assert forall x | EmittedNow(RequestClose(w, s), x) :: EmittedNow(w, x);
  }

  lemma EndedCycles(period: nat, w: World, extra: Option<Event>, s: nat)
    requires period > 0 && CyclesOk(period, w, extra) && CloseAssertsHold(w, s)
    ensures CyclesOk(period, RequestClose(w, s), extra)
  {
    var r := RequestClose(w, s);
    assert CycleOk(period, w.now, s, CycleOf(w, s), Extra(extra, s) + Own(w.queue, s));
    OthersKept(period, w, extra, r, extra, s);
  }

  lemma LaterKeeps(period: nat, w: World, extra: Option<Event>, delay: nat)
    requires period > 0 && Kept(period, w, extra)
    ensures Kept(period, Schedule(w, delay, DEFAULT, Other), extra)
    ensures forall x | EmittedNow(Schedule(w, delay, DEFAULT, Other), x) :: EmittedNow(w, x)
  {
    var r := Schedule(w, delay, DEFAULT, Other);
    ScheduledOthers(w, delay, DEFAULT, Other);
    SameCycles(period, w, extra, r);
    assert forall x | EmittedNow(r, x) :: EmittedNow(w, x);
    QueueGrows(w, r, delay, DEFAULT, Other);
  }

  lemma SameCycles(period: nat, w: World, extra: Option<Event>, r: World)
    requires period > 0 && CyclesOk(period, w, extra) && r.now == w.now && r.cycles == w.cycles
    requires forall s: nat :: Own(r.queue, s) == Own(w.queue, s)
    ensures CyclesOk(period, r, extra)
  {
    forall s: nat
      ensures CycleOk(period, r.now, s, CycleOf(r, s), Extra(extra, s) + Own(r.queue, s))
    {
      assert CycleOk(period, w.now, s, CycleOf(w, s), Extra(extra, s) + Own(w.queue, s));
    }
  }

  lemma FinishedCycles(period: nat, w: World, s: nat, toEmit: Event)
    requires period > 0 && CyclesOk(period, w, Some(toEmit))
    requires toEmit.action == EmitRound(s) && toEmit.time == w.now && toEmit.priority == PROTECTED_ROUND
    ensures CyclesOk(period, Finish(w, Open(s)), None)
  {
    var r := Finish(w, Open(s));
    ScheduledOthers(w, 0, PROTECTED_ROUND, EmitRound(s));
    OwnScheduled(w, 0, PROTECTED_ROUND, EmitRound(s), s);
    assert CycleOk(period, w.now, s, CycleOf(w, s), Extra(Some(toEmit), s) + Own(w.queue, s));
    assert Extra(Some(toEmit), s) + Own(w.queue, s) == [toEmit] + Own(w.queue, s);
    assert Own(w.queue, s) == [];
    assert Extra(None, s) + Own(r.queue, s) == Own(r.queue, s);
    OthersKept(period, w, Some(toEmit), r, None, s);
  }

  lemma FinishKeeps(period: nat, w: World, s: nat, toEmit: Event)
    requires period > 0 && Kept(period, w, Some(toEmit))
    requires toEmit.action == EmitRound(s) && toEmit.time == w.now && toEmit.priority == PROTECTED_ROUND
    ensures Kept(period, Finish(w, Open(s)), None)
  {
    FinishedCycles(period, w, s, toEmit);
    var r := Finish(w, Open(s));
    assert forall x | EmittedNow(r, x) :: EmittedNow(w, x);
    QueueGrows(w, r, 0, PROTECTED_ROUND, EmitRound(s));
  }
}
