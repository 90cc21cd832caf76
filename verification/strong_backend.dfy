/** The strong device as the source runs it: resources, queues and walks changed in place, each
    release letting the next decode go on. Each method leaves the device its events give.
 */
module StrongBackends {
  import opened Options
  import opened StrongDevices
  import opened StrongWalks
  import opened StrongWalkRuns

  class StrongBackend {
    const capacity: nat -> nat
    var free: nat -> int
    var queues: nat -> seq<nat>
    var walks: map<nat, Walk>
    var answers: seq<nat>

    constructor (capacity: nat -> nat)
      ensures Kept(State(), []) && walks == map[] && answers == []
      ensures forall r :: free(r) == capacity(r) && queues(r) == []
    {
      this.capacity := capacity;
      free := (r: nat) => capacity(r);
      queues := (r: nat) => [];
      walks, answers := map[], [];
      new;
      forall r
        ensures UnitsOk(State(), [], r)
      {
        assert Holders(State(), r) == {};
      }
    }

    function State(): Device
      reads this
    {
      Device(capacity, free, queues, walks, answers)
    }

    /** What is left to do after this method is what was left, less its own part. */
    twostate predicate Did(todo: Todo, rest: seq<Todo>)
      reads this
    {
      Settle(State(), rest) == Settle(old(State()), [todo] + rest)
    }

    method RunTheStep(id: nat)
      requires id in walks && walks[id].index < |walks[id].steps|
      modifies this`walks
      ensures State() == RunStep(old(State()), id)
    {
      var walk := walks[id];
      var needed := walk.steps[walk.index];
      walks := walks[id := walk.(
        held := needed, releasing := if needed != walk.held then walk.held else None, phase := Running)];
    }

    /** A unit returns, or passes to the head of the line, whose walk is carried on. */
    method ReleaseUnit(r: nat, ghost rest: seq<Todo>)
      requires Kept(State(), [Free(r)] + rest)
      modifies this
      ensures Kept(State(), rest) && Did(Free(r), rest)
      decreases |Unentered(State())|, 0
    {
      ghost var d := State();
      OneDone(d, Free(r), rest);
      if queues(r) == [] {
        free := Set(free, r, free(r) + 1);
        assert State() == FreeUnit(d, r).0 && FreeUnit(d, r).1 + rest == rest;
        return;
      }
      WaiterIsKnown(d, r, [Free(r)] + rest);
      var id := TakeFirst(r);
      assert FreeUnit(d, r).0 == State() && FreeUnit(d, r).1 == if d.walks[id].entered then [] else [Next(id)];
      if walks[id].phase.Running? {
        assert [] + rest == rest;
        return;
      }
      FewerUnentered(d, State(), id);
      GoOn(id, rest);
    }

    /** The decode waiting longest holds the unit: its step runs, or it is submitted. */
    method TakeFirst(r: nat) returns (id: nat)
      requires queues(r) != [] && queues(r)[0] in walks
      requires walks[queues(r)[0]].entered ==> walks[queues(r)[0]].index < |walks[queues(r)[0]].steps|
      modifies this`queues, this`walks
      ensures id == old(queues)(r)[0] && id in walks && State() == FreeUnit(old(State()), r).0
      ensures walks[id].entered && (walks[id].phase.Running? <==> old(walks)[id].entered)
    {
      id := queues(r)[0];
      queues := Set(queues, r, queues(r)[1..]);
      if walks[id].entered {
        RunTheStep(id);
        return;
      }
      walks := walks[id := walks[id].(entered := true, held := Some(DISPATCHER), phase := Between)];
    }

    /** One turn of a walk between steps: end it, run the step, or join a line. */
    method GoOn(id: nat, ghost rest: seq<Todo>)
      requires Kept(State(), [Next(id)] + rest)
      modifies this
      ensures Kept(State(), rest) && Did(Next(id), rest)
      decreases |Unentered(State())|, 2
    {
      ghost var d := State();
      OneDone(d, Next(id), rest);
      NextIsKnown(d, id, rest);
      var walk := walks[id];
      if walk.index == |walk.steps| {
        Finish(id, rest);
        return;
      }
      assert NextStep(d, id).1 == [] && [] + rest == rest;
      var needed := walk.steps[walk.index];
      if needed.None? || needed == walk.held {
        RunTheStep(id);
        return;
      }
      if free(needed.value) > 0 && queues(needed.value) == [] {
        free := Set(free, needed.value, free(needed.value) - 1);
        RunTheStep(id);
        return;
      }
      walks := walks[id := walk.(phase := Queued(needed.value))];
      queues := Set(queues, needed.value, queues(needed.value) + [id]);
    }

    /** The device is done with the decode; what it held is freed, and its answer goes out. */
    method Finish(id: nat, ghost rest: seq<Todo>)
      requires Kept(State(), [Next(id)] + rest) && id in walks && walks[id].index == |walks[id].steps|
      modifies this
      ensures Kept(State(), rest) && Did(Next(id), rest)
      decreases |Unentered(State())|, 1
    {
      ghost var d := State();
      OneDone(d, Next(id), rest);
      var walk := walks[id];
      walks := walks[id := walk.(phase := Ended, held := None)];
      ghost var answer := if walk.cancelled then [] else [Answer(id)];
      assert State() == NextStep(d, id).0 && NextStep(d, id).1 == AtEnd(walk, id);
      assert Unentered(State()) == Unentered(d);
      if walk.held.Some? {
        assert AtEnd(walk, id) + rest == [Free(walk.held.value)] + (answer + rest);
        ReleaseUnit(walk.held.value, answer + rest);
      } else {
        assert AtEnd(walk, id) + rest == answer + rest;
      }
      ReportEnd(id, walk.cancelled, answer, rest);
    }

    /** The decode's answer goes out, unless it was cancelled. */
    method ReportEnd(id: nat, cancelled: bool, ghost answer: seq<Todo>, ghost rest: seq<Todo>)
      requires answer == (if cancelled then [] else [Answer(id)]) && Kept(State(), answer + rest)
      modifies this`answers
      ensures Kept(State(), rest) && Settle(State(), rest) == Settle(old(State()), answer + rest)
    {
      if cancelled {
        assert answer + rest == rest;
        return;
      }
      AnswerGiven(State(), id, rest);
      OneDone(State(), Answer(id), rest);
      assert [] + rest == rest;
      answers := answers + [id];
    }

    method ArriveForDispatch(id: nat, steps: seq<Option<nat>>)
      requires Kept(State(), []) && Enabled(State(), Arrives(id, steps))
      modifies this
      ensures Kept(State(), []) && State() == Arrive(old(State()), id, steps)
    {
      ghost var d := State();
      ArriveKeeps(d, id, steps);
      assert UnitsOk(d, [], DISPATCHER) && TodoOk(d, [], id);
      if free(DISPATCHER) > 0 && queues(DISPATCHER) == [] {
        free := Set(free, DISPATCHER, free(DISPATCHER) - 1);
        walks := walks[id := Walk(steps, 0, true, Some(DISPATCHER), None, Between, false)];
        assert State() == Submitted(d, id, steps);
        SubmittedKept(d, id, steps);
        assert [Next(id)] + [] == [Next(id)];
        GoOn(id, []);
        return;
      }
      walks := walks[id := Walk(steps, 0, false, None, None, Queued(DISPATCHER), false)];
      queues := Set(queues, DISPATCHER, queues(DISPATCHER) + [id]);
    }

    /** The step's time is over; a resource it moved off is freed first. */
    method StepDone(id: nat)
      requires Kept(State(), []) && Enabled(State(), StepEnds(id))
      modifies this
      ensures Kept(State(), []) && State() == StepEnd(old(State()), id)
    {
      ghost var d := State();
      StepEndStarts(d, id);
      var walk := walks[id];
      var released := walk.releasing;
      walks := walks[id := walk.(index := walk.index + 1, releasing := None, phase := Between)];
      assert [Next(id)] + [] == [Next(id)];
      if released.Some? {
        ReleaseUnit(released.value, [Next(id)]);
      } else {
        assert AtStepEnd(walk, id) == [Next(id)];
      }
      GoOn(id, []);
    }
  }

  lemma FewerUnentered(d: Device, e: Device, id: nat)
    requires id in d.walks && !d.walks[id].entered && id in e.walks && e.walks[id].entered
    requires e.walks == d.walks[id := e.walks[id]]
    ensures |Unentered(e)| < |Unentered(d)|
  {
    assert Unentered(e) == Unentered(d) - {id} && id in Unentered(d);
  }

  /** One thing done, the rest left. */
  lemma OneDone(d: Device, todo: Todo, rest: seq<Todo>)
    requires Kept(d, [todo] + rest)
    ensures var (after, more) := DoOne(d, todo);
      Settle(d, [todo] + rest) == Settle(after, more + rest) && Kept(after, more + rest)
  {
    assert ([todo] + rest)[0] == todo && ([todo] + rest)[1..] == rest;
    DoOneKeeps(d, todo, rest);
  }

  lemma WaiterIsKnown(d: Device, r: nat, todo: seq<Todo>)
    requires Kept(d, todo) && d.queues(r) != []
    ensures d.queues(r)[0] in d.walks
    ensures var walk := d.walks[d.queues(r)[0]];
      walk.entered ==> walk.index < |walk.steps|
  {
    assert UnitsOk(d, todo, r) && d.queues(r)[0] in d.queues(r);
    assert WalkOk(d.walks[d.queues(r)[0]]);
  }

  lemma NextIsKnown(d: Device, id: nat, rest: seq<Todo>)
    requires Kept(d, [Next(id)] + rest)
    ensures id in d.walks && d.walks[id].phase.Between? && d.walks[id].index <= |d.walks[id].steps|
  {
    assert TodoOk(d, [Next(id)] + rest, id);
    CountFirst(Next(id), rest, Next(id));
    assert WalkOk(d.walks[id]);
  }
}
