/** The strong device: decodes walk through steps that hold its resources, wait their turn for
    each, and answer at the end.

    Resource 0 is the dispatcher. The ticks of a step are arbitrary: its end is an event. What
    one event sets off, a release that lets another decode go on and so on, is a stack of
    things to do, the next one first.
 */
module StrongDevices {
  import opened Options
  import opened Lists

  const DISPATCHER: nat := 0

  datatype Phase = Queued(resource: nat) | Running | Between | Ended | Withdrawn

  /** One decode: its steps' resources, the step it is at, what it holds, and what it gives back
      at its step's end. */
  datatype Walk = Walk(
    steps: seq<Option<nat>>,
    index: nat,
    entered: bool,
    held: Option<nat>,
    releasing: Option<nat>,
    phase: Phase,
    cancelled: bool)

  datatype Device = Device(
    capacity: nat -> nat,
    free: nat -> int,
    queues: nat -> seq<nat>,
    walks: map<nat, Walk>,
    answers: seq<nat>)

  datatype Todo = Free(resource: nat) | Next(walk: nat) | Answer(walk: nat)

  function Set<T>(table: nat -> T, key: nat, value: T): nat -> T {
    (k: nat) => if k == key then value else table(k)
  }

  function Put(d: Device, id: nat, walk: Walk): Device {
    d.(walks := d.walks[id := walk])
  }

  // ------------------------------------------------------- what is to be done

  /** The step the walk is at runs; a resource it moves off is given back at its end. */
  function RunStep(d: Device, id: nat): Device
    requires id in d.walks && d.walks[id].index < |d.walks[id].steps|
  {
    var walk := d.walks[id];
    var needed := walk.steps[walk.index];
    Put(d, id, walk.(
      held := needed, releasing := if needed != walk.held then walk.held else None, phase := Running))
  }

  /** A freed unit passes to the decode waiting longest for it; one not yet on the device is
      submitted. */
  function FreeUnit(d: Device, r: nat): (Device, seq<Todo>) {
    if d.queues(r) == [] then (d.(free := Set(d.free, r, d.free(r) + 1)), [])
    else
      var id := d.queues(r)[0];
      var popped := d.(queues := Set(d.queues, r, d.queues(r)[1..]));
      if id !in d.walks then (popped, [])
      else if !d.walks[id].entered then
        (Put(popped, id, d.walks[id].(entered := true, held := Some(DISPATCHER), phase := Between)), [Next(id)])
      else if d.walks[id].index < |d.walks[id].steps| then (RunStep(popped, id), [])
      else (popped, [])
  }

  /** The walk's next step runs once its resource is held, or the walk is over. */
  function NextStep(d: Device, id: nat): (Device, seq<Todo>)
    requires id in d.walks
  {
    var walk := d.walks[id];
    if walk.index >= |walk.steps| then
      (Put(d, id, walk.(phase := Ended, held := None)),
       (if walk.held.Some? then [Free(walk.held.value)] else []) + if walk.cancelled then [] else [Answer(id)])
    else
      var needed := walk.steps[walk.index];
      if needed.None? || needed == walk.held then (RunStep(d, id), [])
      else if d.free(needed.value) > 0 && d.queues(needed.value) == [] then
        (RunStep(d.(free := Set(d.free, needed.value, d.free(needed.value) - 1)), id), [])
      else
        (Put(d, id, walk.(phase := Queued(needed.value)))
         .(queues := Set(d.queues, needed.value, d.queues(needed.value) + [id])), [])
  }

  function DoOne(d: Device, todo: Todo): (Device, seq<Todo>) {
    match todo
    case Free(r) => FreeUnit(d, r)
    case Next(id) => if id in d.walks then NextStep(d, id) else (d, [])
    case Answer(id) => (d.(answers := d.answers + [id]), [])
  }

  function Unentered(d: Device): set<nat> {
    set id | id in d.walks && !d.walks[id].entered
  }

  function Weight(todo: seq<Todo>): nat {
    if todo == [] then 0 else (if todo[0].Next? then 3 else 1) + Weight(todo[1..])
  }

  lemma {:induction false} WeightAppend(a: seq<Todo>, b: seq<Todo>)
    ensures Weight(a + b) == Weight(a) + Weight(b)
  {
    if a == [] {
      assert a + b == b;
    } else {
      WeightAppend(a[1..], b);
      assert (a + b)[1..] == a[1..] + b;
    }
  }

  ghost predicate EndsSooner(d: Device, todo: seq<Todo>, after: Device, left: seq<Todo>) {
    || |Unentered(after)| < |Unentered(d)|
    || (Unentered(after) == Unentered(d) && Weight(left) < Weight(todo))
  }

  lemma FreeEnds(d: Device, r: nat, rest: seq<Todo>)
    ensures EndsSooner(d, [Free(r)] + rest, FreeUnit(d, r).0, FreeUnit(d, r).1 + rest)
  {
    var (after, more) := FreeUnit(d, r);
    WeightFirst(Free(r), rest);
    if d.queues(r) != [] && d.queues(r)[0] in d.walks && !d.walks[d.queues(r)[0]].entered {
      assert Unentered(after) == Unentered(d) - {d.queues(r)[0]} && d.queues(r)[0] in Unentered(d);
    } else {
      assert more == [] && more + rest == rest && Unentered(after) == Unentered(d);
    }
  }

  lemma WeightFirst(todo: Todo, rest: seq<Todo>)
    ensures Weight([todo] + rest) == (if todo.Next? then 3 else 1) + Weight(rest)
  {
    assert ([todo] + rest)[1..] == rest;
  }

  /** One thing done leaves fewer decodes to submit, or less to do. */
  lemma DoOneEnds(d: Device, todo: Todo, rest: seq<Todo>)
    ensures EndsSooner(d, [todo] + rest, DoOne(d, todo).0, DoOne(d, todo).1 + rest)
  {
    WeightFirst(todo, rest);
    match todo {
      case Free(r) => FreeEnds(d, r, rest);
      case Next(id) =>
        WeightAppend(DoOne(d, todo).1, rest);
        NextStepWeight(d, id);
        assert Unentered(DoOne(d, todo).0) == Unentered(d);
      case Answer(_) => assert [] + rest == rest;
    }
  }

  lemma NextStepWeight(d: Device, id: nat)
    ensures Weight(DoOne(d, Next(id)).1) <= 2
  {
    var more := DoOne(d, Next(id)).1;
    assert |more| <= 2 && forall i | 0 <= i < |more| :: !more[i].Next?;
    assert more != [] ==> Weight(more) == 1 + Weight(more[1..]);
    assert |more| == 2 ==> Weight(more[1..]) == 1 + Weight(more[1..][1..]);
  }

  /** Everything an event sets off. */
  function Settle(d: Device, todo: seq<Todo>): Device
    decreases |Unentered(d)|, Weight(todo)
  {
    if todo == [] then d
    else
      var (after, more) := DoOne(d, todo[0]);
      DoOneEnds(d, todo[0], todo[1..]);
      assert [todo[0]] + todo[1..] == todo;
      Settle(after, more + todo[1..])
  }

  // ------------------------------------------------------------------ events

  predicate DispatcherIsFree(d: Device) {
    d.free(DISPATCHER) > 0 && d.queues(DISPATCHER) == []
  }

  /** The decode holds the dispatcher and is handed to the device. */
  function Submitted(d: Device, id: nat, steps: seq<Option<nat>>): Device {
    Put(d, id, Walk(steps, 0, true, Some(DISPATCHER), None, Between, false))
    .(free := Set(d.free, DISPATCHER, d.free(DISPATCHER) - 1))
  }

  /** A new decode is submitted, or joins the end of the dispatcher's line. */
  function Arrive(d: Device, id: nat, steps: seq<Option<nat>>): Device {
    if DispatcherIsFree(d) then Settle(Submitted(d, id, steps), [Next(id)])
    else
      Put(d, id, Walk(steps, 0, false, None, None, Queued(DISPATCHER), false))
      .(queues := Set(d.queues, DISPATCHER, d.queues(DISPATCHER) + [id]))
  }

  /** The step's end: what it moved off is freed first, then the walk goes on. */
  function StepEnd(d: Device, id: nat): Device
    requires id in d.walks
  {
    var walk := d.walks[id];
    Settle(
      Put(d, id, walk.(index := walk.index + 1, releasing := None, phase := Between)),
      (if walk.releasing.Some? then [Free(walk.releasing.value)] else []) + [Next(id)])
  }

  /** A decode waiting for the dispatcher is withdrawn; one on the device will say nothing. */
  function Cancel(d: Device, id: nat): Device
    requires id in d.walks
  {
    var walk := d.walks[id];
    if id in d.queues(DISPATCHER) then
      Put(d, id, walk.(phase := Withdrawn))
      .(queues := Set(d.queues, DISPATCHER, Without(d.queues(DISPATCHER), id)))
    else if walk.entered && !walk.phase.Ended? then Put(d, id, walk.(cancelled := true))
    else d
  }
}
