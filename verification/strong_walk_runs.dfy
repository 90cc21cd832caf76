/** What the strong device's runs come to. */
module StrongWalkRuns {
  import opened Options
  import opened Lists
  import opened StrongDevices
  import opened StrongWalks

  // ---------------------------------------------------------------- events

  lemma ArriveKeeps(d: Device, id: nat, steps: seq<Option<nat>>)
    requires Kept(d, []) && id !in d.walks && StepsOk(steps)
    ensures Kept(Arrive(d, id, steps), [])
  {
    assert UnitsOk(d, [], DISPATCHER) && TodoOk(d, [], id);
    if DispatcherIsFree(d) {
      SubmittedKept(d, id, steps);
      SettleKeeps(Submitted(d, id, steps), [Next(id)]);
    } else {
      var walk := Walk(steps, 0, false, None, None, Queued(DISPATCHER), false);
      var e := Put(d, id, walk).(queues := Set(d.queues, DISPATCHER, d.queues(DISPATCHER) + [id]));
      DistinctGrows(d.queues(DISPATCHER), id);
      forall r
        ensures UnitsOk(e, [], r)
      {
        assert UnitsOk(d, [], r);
        NewHolder(d, e, id, r);
      }
      forall x
        ensures TodoOk(e, [], x)
      {
        assert TodoOk(d, [], x);
      }
    }
  }

  lemma NewHolder(d: Device, e: Device, id: nat, r: nat)
    requires id !in d.walks && id in e.walks && e.walks == d.walks[id := e.walks[id]]
    ensures |Holders(e, r)| == |Holders(d, r)| + if Holds(e.walks[id], r) then 1 else 0
  {
    assert Holders(e, r) == if Holds(e.walks[id], r) then Holders(d, r) + {id} else Holders(d, r);
  }

  lemma SubmittedKept(d: Device, id: nat, steps: seq<Option<nat>>)
    requires Kept(d, []) && id !in d.walks && DispatcherIsFree(d) && StepsOk(steps)
    ensures Kept(Submitted(d, id, steps), [Next(id)])
  {
    var e := Submitted(d, id, steps);
    assert [Next(id)] + [] == [Next(id)];
    forall r
      ensures UnitsOk(e, [Next(id)], r)
    {
      assert UnitsOk(d, [], r);
      NewHolder(d, e, id, r);
      CountFirst(Next(id), [], Free(r));
    }
    forall x
      ensures TodoOk(e, [Next(id)], x)
    {
      assert TodoOk(d, [], x);
      CountFirst(Next(id), [], Next(x));
      CountFirst(Next(id), [], Answer(x));
    }
  }

  /** What a step's end sets off. */
  function AtStepEnd(walk: Walk, id: nat): seq<Todo> {
    (if walk.releasing.Some? then [Free(walk.releasing.value)] else []) + [Next(id)]
  }

  lemma StepEndCounts(walk: Walk, id: nat, r: nat)
    ensures Count(AtStepEnd(walk, id), Free(r)) == if walk.releasing == Some(r) then 1 else 0
    ensures Count(AtStepEnd(walk, id), Next(r)) == if r == id then 1 else 0
    ensures Count(AtStepEnd(walk, id), Answer(r)) == 0
  {
    var first := if walk.releasing.Some? then [Free(walk.releasing.value)] else [];
    CountAppend(first, [Next(id)], Free(r));
    CountAppend(first, [Next(id)], Next(r));
    CountAppend(first, [Next(id)], Answer(r));
    assert first != [] ==> first[1..] == [];
    assert [Next(id)][1..] == [];
  }

  lemma StepEndStarts(d: Device, id: nat)
    requires Kept(d, []) && id in d.walks && d.walks[id].phase.Running?
    ensures var walk := d.walks[id];
      Kept(Put(d, id, walk.(index := walk.index + 1, releasing := None, phase := Between)), AtStepEnd(walk, id))
  {
    var walk := d.walks[id];
    assert WalkOk(walk);
    var e := Put(d, id, walk.(index := walk.index + 1, releasing := None, phase := Between));
    var todo := AtStepEnd(walk, id);
    forall r
      ensures UnitsOk(e, todo, r)
    {
      assert UnitsOk(d, [], r);
      StepEndCounts(walk, id, r);
      HoldersChange(d, e, id, r);
    }
    forall x
      ensures TodoOk(e, todo, x)
    {
      assert TodoOk(d, [], x);
      StepEndCounts(walk, id, x);
    }
  }

  lemma StepEndKeeps(d: Device, id: nat)
    requires Kept(d, []) && id in d.walks && d.walks[id].phase.Running?
    ensures Kept(StepEnd(d, id), [])
  {
    StepEndStarts(d, id);
    var walk := d.walks[id];
    SettleKeeps(Put(d, id, walk.(index := walk.index + 1, releasing := None, phase := Between)), AtStepEnd(walk, id));
  }

  lemma CancelKeeps(d: Device, id: nat)
    requires Kept(d, []) && id in d.walks
    ensures Kept(Cancel(d, id), [])
  {
    var e := Cancel(d, id);
    assert UnitsOk(d, [], DISPATCHER) && WalkOk(d.walks[id]);
    assert WalkOk(e.walks[id]);
    forall r
      ensures UnitsOk(e, [], r)
    {
      assert UnitsOk(d, [], r);
      HoldersChange(d, e, id, r);
    }
    forall x
      ensures TodoOk(e, [], x)
    {
      assert TodoOk(d, [], x);
    }
  }

  datatype Event = Arrives(id: nat, steps: seq<Option<nat>>) | StepEnds(id: nat) | Cancels(id: nat)

  ghost predicate Enabled(d: Device, event: Event) {
    match event
    case Arrives(id, steps) => id !in d.walks && StepsOk(steps)
    case StepEnds(id) => id in d.walks && d.walks[id].phase.Running?
    case Cancels(id) => id in d.walks
  }

  function Apply(d: Device, event: Event): Device
    requires Enabled(d, event)
  {
    match event
    case Arrives(id, steps) => Arrive(d, id, steps)
    case StepEnds(id) => StepEnd(d, id)
    case Cancels(id) => Cancel(d, id)
  }

  lemma EventKeeps(d: Device, event: Event)
    requires Kept(d, []) && Enabled(d, event)
    ensures Kept(Apply(d, event), [])
  {
    match event {
      case Arrives(id, steps) => ArriveKeeps(d, id, steps);
      case StepEnds(id) => StepEndKeeps(d, id);
      case Cancels(id) => CancelKeeps(d, id);
    }
  }

  ghost predicate IsRun(d: Device, events: seq<Event>)
    decreases |events|
  {
    events == [] || (Enabled(d, events[0]) && IsRun(Apply(d, events[0]), events[1..]))
  }

  ghost function After(d: Device, events: seq<Event>): Device
    requires IsRun(d, events)
    decreases |events|
  {
    if events == [] then d else After(Apply(d, events[0]), events[1..])
  }

  function Unused(capacity: nat -> nat): Device {
    Device(capacity, (r: nat) => capacity(r), (r: nat) => [], map[], [])
  }

  lemma UnusedIsKept(capacity: nat -> nat)
    ensures Kept(Unused(capacity), [])
  {
    forall r
      ensures UnitsOk(Unused(capacity), [], r)
    {
      assert Holders(Unused(capacity), r) == {};
    }
  }

  lemma {:induction false} RunKeeps(d: Device, events: seq<Event>)
    requires Kept(d, []) && IsRun(d, events)
    ensures Kept(After(d, events), [])
    decreases |events|
  {
    if events != [] {
      EventKeeps(d, events[0]);
      RunKeeps(Apply(d, events[0]), events[1..]);
    }
  }

  /** Every run of arrivals, step ends and cancels from an unused device keeps its invariant. */
  lemma EveryRunKeeps(capacity: nat -> nat, events: seq<Event>)
    requires IsRun(Unused(capacity), events)
    ensures Kept(After(Unused(capacity), events), [])
  {
    UnusedIsKept(capacity);
    RunKeeps(Unused(capacity), events);
  }

  // -------------------------------------------------- what that means

  /** Each resource's free units and its holders are its capacity; while decodes wait for it,
      none is free. */
  lemma UnitsConserved(d: Device, r: nat)
    requires Kept(d, [])
    ensures d.free(r) + |Holders(d, r)| == d.capacity(r) && d.free(r) >= 0
    ensures d.queues(r) != [] ==> d.free(r) == 0
    ensures forall id :: id in d.queues(r) <==> id in d.walks && d.walks[id].phase == Queued(r)
  {
    assert UnitsOk(d, [], r);
  }

  ghost function Awaited(d: Device): set<nat> {
    set id | id in d.walks && d.walks[id].phase.Queued? :: d.walks[id].phase.resource
  }

  ghost function AwaitedAbove(d: Device, r: nat): set<nat> {
    set q | q in Awaited(d) && q > r
  }

  /** A resource awaited while nothing runs is held by a decode that waits for a later one. */
  lemma HolderWaitsAbove(d: Device, r: nat) returns (above: nat)
    requires Kept(d, []) && r in Awaited(d) && d.capacity(r) >= 1
    requires forall id | id in d.walks :: !d.walks[id].phase.Running?
    ensures above > r && above in Awaited(d)
  {
    var waiter :| waiter in d.walks && d.walks[waiter].phase == Queued(r);
    assert UnitsOk(d, [], r);
    assert waiter in d.queues(r);
    assert |Holders(d, r)| >= 1;
    var holder :| holder in Holders(d, r);
    assert WalkOk(d.walks[holder]) && TodoOk(d, [], holder);
    above := d.walks[holder].phase.resource;
  }

  lemma {:induction false} NothingAwaited(d: Device, r: nat)
    requires Kept(d, []) && (forall q :: d.capacity(q) >= 1)
    requires forall id | id in d.walks :: !d.walks[id].phase.Running?
    ensures r !in Awaited(d)
    decreases AwaitedAbove(d, r)
  {
    if r in Awaited(d) {
      var above := HolderWaitsAbove(d, r);
      assert AwaitedAbove(d, above) < AwaitedAbove(d, r) by {
        assert above in AwaitedAbove(d, r) && above !in AwaitedAbove(d, above);
      }
      NothingAwaited(d, above);
    }
  }

  lemma QuietHasEnded(d: Device)
    requires Kept(d, []) && (forall r :: d.capacity(r) >= 1)
    requires forall id | id in d.walks :: !d.walks[id].phase.Running?
    ensures forall id | id in d.walks :: d.walks[id].phase.Ended? || d.walks[id].phase.Withdrawn?
    ensures forall r :: d.free(r) == d.capacity(r)
  {
    forall id | id in d.walks
      ensures d.walks[id].phase.Ended? || d.walks[id].phase.Withdrawn?
    {
      assert TodoOk(d, [], id);
      if d.walks[id].phase.Queued? {
        NothingAwaited(d, d.walks[id].phase.resource);
      }
    }
    forall r
      ensures d.free(r) == d.capacity(r)
    {
      assert UnitsOk(d, [], r);
      assert forall id | id in d.walks :: WalkOk(d.walks[id]);
      assert Holders(d, r) == {};
    }
  }

  lemma {:induction false} SettleCapacity(d: Device, todo: seq<Todo>)
    ensures Settle(d, todo).capacity == d.capacity
    decreases |Unentered(d)|, Weight(todo)
  {
    if todo != [] {
      var (after, more) := DoOne(d, todo[0]);
      DoOneEnds(d, todo[0], todo[1..]);
      assert [todo[0]] + todo[1..] == todo;
      SettleCapacity(after, more + todo[1..]);
    }
  }

  lemma {:induction false} RunCapacity(d: Device, events: seq<Event>)
    requires IsRun(d, events)
    ensures After(d, events).capacity == d.capacity
    decreases |events|
  {
    if events != [] {
      match events[0] {
        case Arrives(id, steps) => SettleCapacity(Submitted(d, id, steps), [Next(id)]);
        case StepEnds(id) =>
          var walk := d.walks[id];
          SettleCapacity(
            Put(d, id, walk.(index := walk.index + 1, releasing := None, phase := Between)),
            (if walk.releasing.Some? then [Free(walk.releasing.value)] else []) + [Next(id)]);
        case Cancels(_) =>
      }
      RunCapacity(Apply(d, events[0]), events[1..]);
    }
  }

  /** No deadlock: in every run from an unused device, when no step runs every walk has ended or
      was withdrawn and every unit is free. */
  lemma NoDeadlock(capacity: nat -> nat, events: seq<Event>)
    requires IsRun(Unused(capacity), events) && forall r :: capacity(r) >= 1
    requires var d := After(Unused(capacity), events);
      forall id | id in d.walks :: !d.walks[id].phase.Running?
    ensures var d := After(Unused(capacity), events);
      && (forall id | id in d.walks :: d.walks[id].phase.Ended? || d.walks[id].phase.Withdrawn?)
      && forall r :: d.free(r) == capacity(r)
  {
    EveryRunKeeps(capacity, events);
    RunCapacity(Unused(capacity), events);
    QuietHasEnded(After(Unused(capacity), events));
  }

  /** A decode answers at most once, and has answered just when it ended uncancelled. */
  lemma AnswersOnce(d: Device, id: nat)
    requires Kept(d, [])
    ensures Answered(d.answers, id) ==
      if id in d.walks && d.walks[id].phase.Ended? && !d.walks[id].cancelled then 1 else 0
  {
    assert TodoOk(d, [], id);
  }

  // --------------------------------------------------- every walk finishes

  /** The steps the walks have yet to take. */
  ghost function Left(walks: map<nat, Walk>): nat
    decreases |walks|
  {
    if walks == map[] then 0
    else
      var id :| id in walks;
      StepsLeft(walks[id]) + Left(walks - {id})
  }

  function StepsLeft(walk: Walk): nat {
    if walk.index <= |walk.steps| then |walk.steps| - walk.index else 0
  }

  lemma {:induction false} LeftSplit(walks: map<nat, Walk>, id: nat)
    requires id in walks
    ensures Left(walks) == StepsLeft(walks[id]) + Left(walks - {id})
    decreases |walks|
  {
    var x :| x in walks && Left(walks) == StepsLeft(walks[x]) + Left(walks - {x});
    if x != id {
      LeftSplit(walks - {x}, id);
      LeftSplit(walks - {id}, x);
      assert walks - {x} - {id} == walks - {id} - {x};
    }
  }

  lemma LeftChange(d: Device, e: Device, id: nat)
    requires id in d.walks && id in e.walks && e.walks == d.walks[id := e.walks[id]]
    ensures Left(e.walks) == Left(d.walks) - StepsLeft(d.walks[id]) + StepsLeft(e.walks[id])
  {
    LeftSplit(d.walks, id);
    LeftSplit(e.walks, id);
    assert d.walks - {id} == e.walks - {id};
  }

  lemma DoOneLeft(d: Device, todo: Todo)
    ensures Left(DoOne(d, todo).0.walks) == Left(d.walks)
  {
    var e := DoOne(d, todo).0;
    match todo {
      case Free(r) =>
        if d.queues(r) != [] && d.queues(r)[0] in d.walks {
          var id := d.queues(r)[0];
          if !d.walks[id].entered || d.walks[id].index < |d.walks[id].steps| {
            LeftChange(d, e, id);
          }
        }
      case Next(id) =>
        if id in d.walks {
          LeftChange(d, e, id);
        }
      case Answer(_) =>
    }
  }

  lemma {:induction false} SettleLeft(d: Device, todo: seq<Todo>)
    ensures Left(Settle(d, todo).walks) == Left(d.walks)
    decreases |Unentered(d)|, Weight(todo)
  {
    if todo != [] {
      var (after, more) := DoOne(d, todo[0]);
      assert [todo[0]] + todo[1..] == todo;
      DoOneEnds(d, todo[0], todo[1..]);
      DoOneLeft(d, todo[0]);
      SettleLeft(after, more + todo[1..]);
    }
  }

  /** A step's end leaves one step fewer. */
  lemma StepEndLeft(d: Device, id: nat)
    requires Kept(d, []) && id in d.walks && d.walks[id].phase.Running?
    ensures Left(StepEnd(d, id).walks) == Left(d.walks) - 1
  {
    var walk := d.walks[id];
    assert WalkOk(walk);
    var e := Put(d, id, walk.(index := walk.index + 1, releasing := None, phase := Between));
    LeftChange(d, e, id);
    SettleLeft(e, AtStepEnd(walk, id));
  }

  /** Every walk finishes: a run of step ends is no longer than the steps left, and where no
      step is left to end the device is free. */
  lemma {:induction false} StepEndsRunOut(d: Device, events: seq<Event>)
    requires Kept(d, []) && IsRun(d, events) && forall i | 0 <= i < |events| :: events[i].StepEnds?
    ensures |events| + Left(After(d, events).walks) == Left(d.walks)
    decreases |events|
  {
    if events != [] {
      StepEndLeft(d, events[0].id);
      StepEndKeeps(d, events[0].id);
      assert forall i | 0 <= i < |events[1..]| :: events[1..][i] == events[i + 1];
      StepEndsRunOut(Apply(d, events[0]), events[1..]);
    }
  }

  // ------------------------------------------------------- a split region

  /** How often a region of two parts reports its joined answer: at each part's answer that
      finds both in. */
  function Reports(answers: seq<nat>, a: nat, b: nat, got: set<nat>): nat {
    if answers == [] then 0
    else if answers[0] != a && answers[0] != b then Reports(answers[1..], a, b, got)
    else
      var now := got + {answers[0]};
      (if now == {a, b} then 1 else 0) + Reports(answers[1..], a, b, now)
  }

  lemma {:induction false} ReportsAre(answers: seq<nat>, a: nat, b: nat, got: set<nat>)
    requires a != b && got <= {a, b}
    requires Answered(answers, a) + (if a in got then 1 else 0) <= 1
    requires Answered(answers, b) + (if b in got then 1 else 0) <= 1
    ensures Reports(answers, a, b, got) ==
      if got != {a, b} && (a in got || Answered(answers, a) == 1) && (b in got || Answered(answers, b) == 1)
      then 1 else 0
  {
    if answers != [] {
      var now := if answers[0] == a || answers[0] == b then got + {answers[0]} else got;
      ReportsAre(answers[1..], a, b, now);
      assert got == {a, b} <==> a in got && b in got;
      assert now == {a, b} <==> a in now && b in now;
    }
  }

  /** A split region answers exactly once when both parts ended uncancelled, and never when
      either was cancelled. */
  lemma RegionAnswersOnce(d: Device, a: nat, b: nat)
    requires Kept(d, []) && a != b
    ensures Reports(d.answers, a, b, {}) == if Answered(d.answers, a) == 1 && Answered(d.answers, b) == 1 then 1 else 0
    ensures a in d.walks && d.walks[a].cancelled ==> Reports(d.answers, a, b, {}) == 0
    ensures a in d.walks && d.walks[a].phase.Withdrawn? ==> Reports(d.answers, a, b, {}) == 0
  {
    AnswersOnce(d, a);
    AnswersOnce(d, b);
    ReportsAre(d.answers, a, b, {});
  }

  ghost predicate IsSilent(d: Device, id: nat) {
    id in d.walks && (d.walks[id].cancelled || d.walks[id].phase.Withdrawn?)
  }

  lemma DoOneStaysSilent(d: Device, todo: Todo, rest: seq<Todo>, id: nat)
    requires Kept(d, [todo] + rest) && IsSilent(d, id)
    ensures IsSilent(DoOne(d, todo).0, id)
  {
    if todo.Free? && d.queues(todo.resource) != [] {
      assert UnitsOk(d, [todo] + rest, todo.resource);
      assert d.queues(todo.resource)[0] in d.queues(todo.resource);
    }
    if todo.Next? {
      assert TodoOk(d, [todo] + rest, todo.walk);
      CountFirst(todo, rest, Next(todo.walk));
    }
  }

  lemma {:induction false} SettleStaysSilent(d: Device, todo: seq<Todo>, id: nat)
    requires Kept(d, todo) && IsSilent(d, id)
    ensures IsSilent(Settle(d, todo), id)
    decreases |Unentered(d)|, Weight(todo)
  {
    if todo != [] {
      var (after, more) := DoOne(d, todo[0]);
      assert [todo[0]] + todo[1..] == todo;
      DoOneEnds(d, todo[0], todo[1..]);
      DoOneStaysSilent(d, todo[0], todo[1..], id);
      DoOneKeeps(d, todo[0], todo[1..]);
      SettleStaysSilent(after, more + todo[1..], id);
    }
  }

  lemma ArrivalStaysSilent(d: Device, other: nat, steps: seq<Option<nat>>, id: nat)
    requires Kept(d, []) && Enabled(d, Arrives(other, steps)) && IsSilent(d, id)
    ensures IsSilent(Arrive(d, other, steps), id)
  {
    if DispatcherIsFree(d) {
      SubmittedKept(d, other, steps);
      SettleStaysSilent(Submitted(d, other, steps), [Next(other)], id);
    }
  }

  lemma StepEndStaysSilent(d: Device, other: nat, id: nat)
    requires Kept(d, []) && Enabled(d, StepEnds(other)) && IsSilent(d, id)
    ensures IsSilent(StepEnd(d, other), id)
  {
    StepEndStarts(d, other);
    var walk := d.walks[other];
    assert WalkOk(walk);
    SettleStaysSilent(
      Put(d, other, walk.(index := walk.index + 1, releasing := None, phase := Between)), AtStepEnd(walk, other), id);
  }

  lemma EventStaysSilent(d: Device, event: Event, id: nat)
    requires Kept(d, []) && Enabled(d, event) && IsSilent(d, id)
    ensures IsSilent(Apply(d, event), id)
  {
    match event {
      case Arrives(other, steps) => ArrivalStaysSilent(d, other, steps, id);
      case StepEnds(other) => StepEndStaysSilent(d, other, id);
      case Cancels(other) => assert WalkOk(d.walks[other]);
    }
  }

  lemma {:induction false} RunStaysSilent(d: Device, events: seq<Event>, id: nat)
    requires Kept(d, []) && IsRun(d, events) && IsSilent(d, id)
    ensures IsSilent(After(d, events), id) && Answered(After(d, events).answers, id) == 0
    decreases |events|
  {
    if events == [] {
      AnswersOnce(d, id);
    } else {
      EventKeeps(d, events[0]);
      EventStaysSilent(d, events[0], id);
      RunStaysSilent(Apply(d, events[0]), events[1..], id);
    }
  }

  /** A decode cancelled before it ended never answers, whatever follows. */
  lemma NeverAfterCancel(d: Device, id: nat, events: seq<Event>)
    requires Kept(d, []) && id in d.walks && !d.walks[id].phase.Ended? && IsRun(Cancel(d, id), events)
    ensures Answered(After(Cancel(d, id), events).answers, id) == 0
  {
    assert WalkOk(d.walks[id]) && UnitsOk(d, [], DISPATCHER) && TodoOk(d, [], id);
    CancelKeeps(d, id);
    RunStaysSilent(Cancel(d, id), events, id);
  }

  // ------------------------------------------------------ first come, first served

  /** A line that lost some of its head and gained some at its end. */
  ghost predicate AdvancesBy(before: seq<nat>, after: seq<nat>, served: nat, joined: seq<nat>) {
    served <= |before| && after == before[served..] + joined
  }

  ghost predicate Advances(before: seq<nat>, after: seq<nat>) {
    exists served: nat, joined: seq<nat> :: AdvancesBy(before, after, served, joined)
  }

  lemma StaysPut(line: seq<nat>)
    ensures Advances(line, line)
  {
    assert AdvancesBy(line, line, 0, []);
  }

  lemma AdvancesTwice(a: seq<nat>, b: seq<nat>, c: seq<nat>)
    requires Advances(a, b) && Advances(b, c)
    ensures Advances(a, c)
  {
    var k: nat, x: seq<nat> :| AdvancesBy(a, b, k, x);
    var m: nat, y: seq<nat> :| AdvancesBy(b, c, m, y);
    if k + m <= |a| {
      assert AdvancesBy(a, c, k + m, x + y);
    } else {
      assert AdvancesBy(a, c, |a|, x[m - (|a| - k)..] + y);
    }
  }

  lemma DoOneAdvances(d: Device, todo: Todo, r: nat)
    ensures Advances(d.queues(r), DoOne(d, todo).0.queues(r))
  {
    var before, after := d.queues(r), DoOne(d, todo).0.queues(r);
    if after == before {
      StaysPut(before);
    } else if todo.Free? {
      assert AdvancesBy(before, after, 1, []);
    } else {
      assert AdvancesBy(before, after, 0, [todo.walk]);
    }
  }

  lemma {:induction false} SettleAdvances(d: Device, todo: seq<Todo>, r: nat)
    ensures Advances(d.queues(r), Settle(d, todo).queues(r))
    decreases |Unentered(d)|, Weight(todo)
  {
    if todo == [] {
      StaysPut(d.queues(r));
    } else {
      var (after, more) := DoOne(d, todo[0]);
      DoOneEnds(d, todo[0], todo[1..]);
      assert [todo[0]] + todo[1..] == todo;
      DoOneAdvances(d, todo[0], r);
      SettleAdvances(after, more + todo[1..], r);
      AdvancesTwice(d.queues(r), after.queues(r), Settle(d, todo).queues(r));
    }
  }

  /** Each resource serves its line from the head and takes newcomers at the end; only a cancel
      takes a decode from within the dispatcher's. */
  lemma GrantsInOrder(d: Device, event: Event, r: nat)
    requires Enabled(d, event)
    ensures Advances(d.queues(r), Apply(d, event).queues(r))
            || (event.Cancels? && r == DISPATCHER && Apply(d, event).queues(r) == Without(d.queues(r), event.id))
  {
    StaysPut(d.queues(r));
    match event {
      case Arrives(id, steps) =>
        if DispatcherIsFree(d) {
          SettleAdvances(Submitted(d, id, steps), [Next(id)], r);
        } else if r == DISPATCHER {
          assert AdvancesBy(d.queues(r), Apply(d, event).queues(r), 0, [id]);
        }
      case StepEnds(id) =>
        var walk := d.walks[id];
        var next := Put(d, id, walk.(index := walk.index + 1, releasing := None, phase := Between));
        SettleAdvances(next, (if walk.releasing.Some? then [Free(walk.releasing.value)] else []) + [Next(id)], r);
      case Cancels(id) =>
    }
  }

  ghost predicate IsAhead(line: seq<nat>, a: nat, b: nat) {
    exists i, j | 0 <= i < j < |line| :: line[i] == a && line[j] == b
  }

  /** The decode has had its turn at the resource in what an event set off. */
  ghost predicate HadTurn(d: Device, id: nat, r: nat) {
    && id in d.walks && id !in d.queues(r)
    && (d.walks[id].phase.Running? || (r == DISPATCHER && d.walks[id].entered))
  }

  lemma FirstServed(line: seq<nat>, a: nat, b: nat)
    requires IsAhead(line, a, b) && Distinct(line)
    ensures a in line && b in line && a != b && line[0] != b
    ensures line[0] == a ==> a !in line[1..]
    ensures line[0] != a ==> IsAhead(line[1..], a, b)
    ensures forall x :: IsAhead(line + [x], a, b)
  {
    var i, j :| 0 <= i < j < |line| && line[i] == a && line[j] == b;
    if line[0] != a {
      assert line[1..][i - 1] == a && line[1..][j - 1] == b;
    }
    forall x ensures IsAhead(line + [x], a, b) {
      var longer := line + [x];
      assert longer[i] == a && longer[j] == b;
    }
  }

  ghost predicate InTurn(d: Device, a: nat, b: nat, r: nat) {
    IsAhead(d.queues(r), a, b) || HadTurn(d, a, r)
  }

  lemma FreeInTurn(d: Device, q: nat, rest: seq<Todo>, a: nat, b: nat, r: nat)
    requires Kept(d, [Free(q)] + rest) && InTurn(d, a, b, r)
    ensures InTurn(FreeUnit(d, q).0, a, b, r)
  {
    assert UnitsOk(d, [Free(q)] + rest, r) && UnitsOk(d, [Free(q)] + rest, q);
    if IsAhead(d.queues(r), a, b) {
      FirstServed(d.queues(r), a, b);
      assert WalkOk(d.walks[a]);
    }
    if d.queues(q) != [] {
      var first := d.queues(q)[0];
      assert first in d.queues(q) && WalkOk(d.walks[first]);
    }
  }

  lemma NextInTurn(d: Device, id: nat, rest: seq<Todo>, a: nat, b: nat, r: nat)
    requires Kept(d, [Next(id)] + rest) && InTurn(d, a, b, r)
    ensures id in d.walks && InTurn(NextStep(d, id).0, a, b, r)
  {
    assert TodoOk(d, [Next(id)] + rest, id) && UnitsOk(d, [Next(id)] + rest, r);
    CountFirst(Next(id), rest, Next(id));
    assert WalkOk(d.walks[id]);
    if d.walks[id].index < |d.walks[id].steps| && d.walks[id].steps[d.walks[id].index].Some? {
      NeedsLater(d.walks[id]);
    }
    if IsAhead(d.queues(r), a, b) {
      FirstServed(d.queues(r), a, b);
    }
  }

  lemma DoOneInTurn(d: Device, todo: Todo, rest: seq<Todo>, a: nat, b: nat, r: nat)
    requires Kept(d, [todo] + rest) && InTurn(d, a, b, r)
    ensures InTurn(DoOne(d, todo).0, a, b, r)
  {
    match todo {
      case Free(q) => FreeInTurn(d, q, rest, a, b, r);
      case Next(id) => NextInTurn(d, id, rest, a, b, r);
      case Answer(id) =>
    }
  }

  lemma {:induction false} SettleInTurn(d: Device, todo: seq<Todo>, a: nat, b: nat, r: nat)
    requires Kept(d, todo) && InTurn(d, a, b, r)
    ensures InTurn(Settle(d, todo), a, b, r)
    decreases |Unentered(d)|, Weight(todo)
  {
    if todo != [] {
      var (after, more) := DoOne(d, todo[0]);
      assert [todo[0]] + todo[1..] == todo;
      DoOneEnds(d, todo[0], todo[1..]);
      DoOneInTurn(d, todo[0], todo[1..], a, b, r);
      DoOneKeeps(d, todo[0], todo[1..]);
      SettleInTurn(after, more + todo[1..], a, b, r);
    }
  }

  lemma AheadAt(line: seq<nat>, i: nat, j: nat)
    requires i < j < |line|
    ensures IsAhead(line, line[i], line[j])
  {
  }

  lemma AheadLater(first: nat, line: seq<nat>, a: nat, b: nat)
    requires IsAhead(line, a, b)
    ensures IsAhead([first] + line, a, b)
  {
    var i, j :| 0 <= i < j < |line| && line[i] == a && line[j] == b;
    AheadAt([first] + line, i + 1, j + 1);
  }

  lemma {:induction false} AheadWithout(line: seq<nat>, a: nat, b: nat, x: nat)
    requires IsAhead(line, a, b) && x != a && x != b
    ensures IsAhead(Without(line, x), a, b)
  {
    var i, j :| 0 <= i < j < |line| && line[i] == a && line[j] == b;
    var rest := Without(line[1..], x);
    assert line[1..][j - 1] == b;
    if i > 0 {
      AheadAt(line[1..], i - 1, j - 1);
      if line[0] != x {
        AheadWithout(line[1..], a, b, x);
        AheadLater(line[0], rest, a, b);
      }
    } else {
      assert b in line[1..] && b in rest;
      var k :| 0 <= k < |rest| && rest[k] == b;
      AheadAt([a] + rest, 0, k + 1);
    }
  }

  lemma ArrivalInTurn(d: Device, id: nat, steps: seq<Option<nat>>, a: nat, b: nat, r: nat)
    requires Kept(d, []) && Enabled(d, Arrives(id, steps)) && IsAhead(d.queues(r), a, b)
    ensures InTurn(Arrive(d, id, steps), a, b, r)
  {
    assert UnitsOk(d, [], r);
    FirstServed(d.queues(r), a, b);
    if DispatcherIsFree(d) {
      SubmittedKept(d, id, steps);
      assert Submitted(d, id, steps).queues(r) == d.queues(r);
      SettleInTurn(Submitted(d, id, steps), [Next(id)], a, b, r);
    }
  }

  lemma StepEndInTurn(d: Device, id: nat, a: nat, b: nat, r: nat)
    requires Kept(d, []) && Enabled(d, StepEnds(id)) && IsAhead(d.queues(r), a, b)
    ensures InTurn(StepEnd(d, id), a, b, r)
  {
    var walk := d.walks[id];
    var next := Put(d, id, walk.(index := walk.index + 1, releasing := None, phase := Between));
    StepEndStarts(d, id);
    assert next.queues(r) == d.queues(r);
    SettleInTurn(next, AtStepEnd(walk, id), a, b, r);
  }

  lemma CancelInTurn(d: Device, id: nat, a: nat, b: nat, r: nat)
    requires Kept(d, []) && id in d.walks && IsAhead(d.queues(r), a, b) && id != b && a in Cancel(d, id).queues(r)
    ensures IsAhead(Cancel(d, id).queues(r), a, b)
  {
    assert UnitsOk(d, [], DISPATCHER);
    if r == DISPATCHER && id in d.queues(r) {
      assert Cancel(d, id).queues(r) == Without(d.queues(r), id);
      AheadWithout(d.queues(r), a, b, id);
    } else {
      assert Cancel(d, id).queues(r) == d.queues(r);
    }
  }

  /** An event that leaves the decode in front waiting, and withdraws neither, leaves the other
      behind it. */
  lemma EventInTurn(d: Device, event: Event, a: nat, b: nat, r: nat)
    requires Kept(d, []) && Enabled(d, event) && IsAhead(d.queues(r), a, b) && event != Cancels(b)
    requires a in Apply(d, event).queues(r)
    ensures IsAhead(Apply(d, event).queues(r), a, b)
  {
    match event {
      case Arrives(id, steps) => ArrivalInTurn(d, id, steps, a, b, r);
      case StepEnds(id) => StepEndInTurn(d, id, a, b, r);
      case Cancels(id) => CancelInTurn(d, id, a, b, r);
    }
  }

  /** The decode waits in the resource's line after each event, and the other is not withdrawn. */
  ghost predicate WaitsThroughout(d: Device, events: seq<Event>, a: nat, b: nat, r: nat)
    requires IsRun(d, events)
    decreases |events|
  {
    events == [] ||
    (events[0] != Cancels(b) && a in Apply(d, events[0]).queues(r)
     && WaitsThroughout(Apply(d, events[0]), events[1..], a, b, r))
  }

  /** First come, first served: over any run, while a decode waits for a resource none that stood
      behind it is served before it. */
  lemma {:induction false} NotOvertaken(d: Device, events: seq<Event>, a: nat, b: nat, r: nat)
    requires Kept(d, []) && IsRun(d, events) && IsAhead(d.queues(r), a, b) && WaitsThroughout(d, events, a, b, r)
    ensures IsAhead(After(d, events).queues(r), a, b)
    decreases |events|
  {
    if events != [] {
      EventKeeps(d, events[0]);
      EventInTurn(d, events[0], a, b, r);
      NotOvertaken(Apply(d, events[0]), events[1..], a, b, r);
    }
  }
}
