/** Every run of the strong device: units are conserved, no decode waits beside a free unit,
    steps in one fixed order never deadlock, and a decode answers once, or never if cancelled.
 */
module StrongWalks {
  import opened Options
  import opened Lists
  import opened StrongDevices

  // ---------------------------------------------------------- what is kept

  /** Steps take resources in one fixed order and never return to the dispatcher. */
  ghost predicate StepsOk(steps: seq<Option<nat>>) {
    forall i, j | 0 <= i < j < |steps| && steps[j].Some? ::
      && (steps[i].Some? ==> steps[i].value <= steps[j].value)
      && (steps[j].value == DISPATCHER ==> steps[i] == Some(DISPATCHER))
  }

  predicate Holds(walk: Walk, r: nat) {
    walk.held == Some(r) || walk.releasing == Some(r)
  }

  ghost function Holders(d: Device, r: nat): set<nat> {
    set id | id in d.walks && Holds(d.walks[id], r)
  }

  function Count(todo: seq<Todo>, t: Todo): nat {
    if todo == [] then 0 else (if todo[0] == t then 1 else 0) + Count(todo[1..], t)
  }

  function Answered(answers: seq<nat>, id: nat): nat {
    if answers == [] then 0 else (if answers[0] == id then 1 else 0) + Answered(answers[1..], id)
  }

  /** What a walk holds before its step: the step's before it, or the dispatcher. */
  function HeldBefore(walk: Walk): Option<nat>
    requires walk.index <= |walk.steps|
  {
    if walk.index == 0 then Some(DISPATCHER) else walk.steps[walk.index - 1]
  }

  ghost predicate WalkOk(walk: Walk) {
    && StepsOk(walk.steps) && walk.index <= |walk.steps|
    && (!walk.entered ==> walk.index == 0 && walk.held.None? && walk.releasing.None? && !walk.cancelled)
    && (walk.releasing.Some? ==> walk.phase.Running? && walk.releasing != walk.held)
    && match walk.phase
       case Queued(r) =>
         if walk.entered then
           walk.index < |walk.steps| && walk.steps[walk.index] == Some(r) && walk.held == HeldBefore(walk) != Some(r)
         else r == DISPATCHER
       case Running => walk.entered && walk.index < |walk.steps| && walk.held == walk.steps[walk.index]
       case Between => walk.entered && walk.held == HeldBefore(walk)
       case Ended => walk.entered && walk.held.None?
       case Withdrawn => !walk.entered
  }

  /** Free units, those held and those in hand are the capacity; while decodes wait, none is
      free; the queue is of the walks that wait, once each. */
  ghost predicate UnitsOk(d: Device, todo: seq<Todo>, r: nat) {
    && d.free(r) + |Holders(d, r)| + Count(todo, Free(r)) == d.capacity(r)
    && d.free(r) >= 0 && (d.queues(r) != [] ==> d.free(r) == 0)
    && Distinct(d.queues(r))
    && (forall id :: id in d.queues(r) <==> id in d.walks && d.walks[id].phase == Queued(r))
  }

  ghost predicate TodoOk(d: Device, todo: seq<Todo>, id: nat) {
    && Count(todo, Next(id)) == (if id in d.walks && d.walks[id].phase.Between? then 1 else 0)
    && Answered(d.answers, id) + Count(todo, Answer(id)) ==
       (if id in d.walks && d.walks[id].phase.Ended? && !d.walks[id].cancelled then 1 else 0)
  }

  ghost predicate Kept(d: Device, todo: seq<Todo>) {
    && (forall id | id in d.walks :: WalkOk(d.walks[id]))
    && (forall r :: UnitsOk(d, todo, r))
    && (forall id :: TodoOk(d, todo, id))
  }

  // ------------------------------------------------------------- small facts

  lemma {:induction false} CountAppend(a: seq<Todo>, b: seq<Todo>, t: Todo)
    ensures Count(a + b, t) == Count(a, t) + Count(b, t)
  {
    if a == [] {
      assert a + b == b;
    } else {
      CountAppend(a[1..], b, t);
      assert (a + b)[1..] == a[1..] + b;
    }
  }

  lemma CountFirst(t: Todo, rest: seq<Todo>, x: Todo)
    ensures Count([t] + rest, x) == (if t == x then 1 else 0) + Count(rest, x)
  {
    assert ([t] + rest)[1..] == rest;
  }

  /** One walk's change changes the holders by that walk alone. */
  lemma HoldersChange(d: Device, e: Device, id: nat, r: nat)
    requires id in d.walks && id in e.walks && e.walks == d.walks[id := e.walks[id]]
    ensures |Holders(e, r)| ==
      |Holders(d, r)| - (if Holds(d.walks[id], r) then 1 else 0) + (if Holds(e.walks[id], r) then 1 else 0)
  {
    var rest := Holders(d, r) - {id};
    assert Holders(e, r) == if Holds(e.walks[id], r) then rest + {id} else rest;
  }

  lemma HoldersSame(d: Device, e: Device, r: nat)
    requires e.walks == d.walks
    ensures Holders(e, r) == Holders(d, r)
  {
  }

  /** Before a step, what is held comes before what the step needs, if that is another. */
  lemma NeedsLater(walk: Walk)
    requires WalkOk(walk) && walk.phase.Between? && walk.index < |walk.steps| && walk.steps[walk.index].Some?
    ensures walk.steps[walk.index] != walk.held ==>
      walk.steps[walk.index].value != DISPATCHER && (walk.held.Some? ==> walk.held.value < walk.steps[walk.index].value)
  {
  }

  // -------------------------------------------------------------- one thing

  ghost predicate SameElse(d: Device, e: Device, id: nat) {
    && id in d.walks && id in e.walks && e.walks == d.walks[id := e.walks[id]]
    && e.capacity == d.capacity && e.answers == d.answers
  }

  /** A unit freed with nobody waiting. */
  lemma FreeToPool(d: Device, r: nat, rest: seq<Todo>)
    requires Kept(d, [Free(r)] + rest) && d.queues(r) == []
    ensures Kept(FreeUnit(d, r).0, FreeUnit(d, r).1 + rest)
  {
    var e := FreeUnit(d, r).0;
    assert FreeUnit(d, r).1 + rest == rest;
    forall x
      ensures UnitsOk(e, rest, x)
    {
      assert UnitsOk(d, [Free(r)] + rest, x);
      CountFirst(Free(r), rest, Free(x));
      HoldersSame(d, e, x);
    }
    forall id
      ensures TodoOk(e, rest, id)
    {
      assert TodoOk(d, [Free(r)] + rest, id);
      CountFirst(Free(r), rest, Next(id));
      CountFirst(Free(r), rest, Answer(id));
    }
  }

  /** A unit freed to the decode waiting longest: its step runs, or it is submitted. */
  lemma FreeToWaiting(d: Device, r: nat, rest: seq<Todo>)
    requires Kept(d, [Free(r)] + rest) && d.queues(r) != []
    ensures Kept(FreeUnit(d, r).0, FreeUnit(d, r).1 + rest)
  {
    var id := d.queues(r)[0];
    var (e, more) := FreeUnit(d, r);
    assert UnitsOk(d, [Free(r)] + rest, r) && id in d.queues(r);
    var walk := d.walks[id];
    assert WalkOk(walk) && walk.phase == Queued(r);
    DistinctTail(d.queues(r));
    assert SameElse(d, e, id);
    assert WalkOk(e.walks[id]);
    forall x
      ensures UnitsOk(e, more + rest, x)
    {
      assert UnitsOk(d, [Free(r)] + rest, x);
      CountFirst(Free(r), rest, Free(x));
      CountAppend(more, rest, Free(x));
      assert Count(more, Free(x)) == 0;
      HoldersChange(d, e, id, x);
      GrantedQueue(d, e, r, id, x);
    }
    forall x
      ensures TodoOk(e, more + rest, x)
    {
      assert TodoOk(d, [Free(r)] + rest, x);
      CountFirst(Free(r), rest, Next(x));
      CountFirst(Free(r), rest, Answer(x));
      CountAppend(more, rest, Next(x));
      CountAppend(more, rest, Answer(x));
      assert walk.entered ==> more == [];
      assert !walk.entered ==> more == [Next(id)] && more[1..] == [];
    }
  }

  lemma GrantedQueue(d: Device, e: Device, r: nat, id: nat, x: nat)
    requires d.queues(r) != [] && id == d.queues(r)[0] && SameElse(d, e, id)
    requires e.queues == Set(d.queues, r, d.queues(r)[1..]) && !e.walks[id].phase.Queued?
    requires Distinct(d.queues(r)) && Distinct(d.queues(x))
    requires forall w :: w in d.queues(x) <==> w in d.walks && d.walks[w].phase == Queued(x)
    requires d.walks[id].phase == Queued(r)
    ensures Distinct(e.queues(x)) && forall w :: w in e.queues(x) <==> w in e.walks && e.walks[w].phase == Queued(x)
  {
    DistinctTail(d.queues(r));
  }

  /** What the walk's next step leaves when only the walk's own record, the units it took or
      gave and the queue it joined change. */
  ghost predicate MovesOn(d: Device, e: Device, id: nat, taken: Option<nat>, joined: Option<nat>) {
    && SameElse(d, e, id)
    && (if taken.Some? then e.free == Set(d.free, taken.value, d.free(taken.value) - 1) else e.free == d.free)
    && (if joined.Some? then e.queues == Set(d.queues, joined.value, d.queues(joined.value) + [id])
      else e.queues == d.queues)
    && (e.walks[id].phase == if joined.Some? then Queued(joined.value) else e.walks[id].phase)
    && (joined.None? ==> !e.walks[id].phase.Queued?)
  }

  lemma MovedUnits(
    d: Device, e: Device, id: nat, rest: seq<Todo>, more: seq<Todo>, taken: Option<nat>, joined: Option<nat>, r: nat)
    requires UnitsOk(d, [Next(id)] + rest, r) && MovesOn(d, e, id, taken, joined) && d.walks[id].phase.Between?
    requires taken.Some? && taken.value == r ==> d.free(r) > 0 && d.queues(r) == []
    requires joined.Some? && joined.value == r ==> !(d.free(r) > 0 && d.queues(r) == [])
    requires (if Holds(e.walks[id], r) then 1 else 0) + Count(more, Free(r)) ==
      (if Holds(d.walks[id], r) then 1 else 0) + (if taken == Some(r) then 1 else 0)
    ensures UnitsOk(e, more + rest, r)
  {
    CountFirst(Next(id), rest, Free(r));
    CountAppend(more, rest, Free(r));
    HoldersChange(d, e, id, r);
    if joined == Some(r) {
      assert id !in d.queues(r);
      DistinctGrows(d.queues(r), id);
    }
  }

  lemma MovedTodo(d: Device, e: Device, id: nat, rest: seq<Todo>, more: seq<Todo>, x: nat)
    requires TodoOk(d, [Next(id)] + rest, x) && SameElse(d, e, id) && d.walks[id].phase.Between?
    requires !e.walks[id].phase.Between?
    requires Count(more, Next(x)) == 0
    requires Count(more, Answer(x)) == if x == id && e.walks[id].phase.Ended? && !e.walks[id].cancelled then 1 else 0
    ensures TodoOk(e, more + rest, x)
  {
    CountFirst(Next(id), rest, Next(x));
    CountFirst(Next(id), rest, Answer(x));
    CountAppend(more, rest, Next(x));
    CountAppend(more, rest, Answer(x));
  }

  /** The walk is over: what it held is freed, and it answers unless it was cancelled. */
  lemma WalkEnds(d: Device, id: nat, rest: seq<Todo>)
    requires Kept(d, [Next(id)] + rest) && id in d.walks && d.walks[id].phase.Between?
    requires d.walks[id].index == |d.walks[id].steps|
    ensures Kept(NextStep(d, id).0, NextStep(d, id).1 + rest)
  {
    var (e, more) := NextStep(d, id);
    var walk := d.walks[id];
    assert WalkOk(walk);
    EndCounts(walk, id);
    forall r
      ensures UnitsOk(e, more + rest, r)
    {
      assert UnitsOk(d, [Next(id)] + rest, r);
      EndCountsFree(walk, id, r);
      MovedUnits(d, e, id, rest, more, None, None, r);
    }
    forall x
      ensures TodoOk(e, more + rest, x)
    {
      assert TodoOk(d, [Next(id)] + rest, x);
      EndCountsOthers(walk, id, x);
      MovedTodo(d, e, id, rest, more, x);
    }
  }

  function AtEnd(walk: Walk, id: nat): seq<Todo> {
    (if walk.held.Some? then [Free(walk.held.value)] else []) + if walk.cancelled then [] else [Answer(id)]
  }

  lemma EndCountsFree(walk: Walk, id: nat, r: nat)
    ensures Count(AtEnd(walk, id), Free(r)) == if walk.held == Some(r) then 1 else 0
  {
    var first := if walk.held.Some? then [Free(walk.held.value)] else [];
    var second := if walk.cancelled then [] else [Answer(id)];
    CountAppend(first, second, Free(r));
    assert first != [] ==> first[1..] == [];
    assert second != [] ==> second[1..] == [];
  }

  lemma EndCountsOthers(walk: Walk, id: nat, x: nat)
    ensures Count(AtEnd(walk, id), Next(x)) == 0
    ensures Count(AtEnd(walk, id), Answer(x)) == if x == id && !walk.cancelled then 1 else 0
  {
    var first := if walk.held.Some? then [Free(walk.held.value)] else [];
    var second := if walk.cancelled then [] else [Answer(id)];
    CountAppend(first, second, Next(x));
    CountAppend(first, second, Answer(x));
    assert first != [] ==> first[1..] == [];
    assert second != [] ==> second[1..] == [];
  }

  lemma EndCounts(walk: Walk, id: nat)
    ensures AtEnd(walk, id) ==
      (if walk.held.Some? then [Free(walk.held.value)] else []) + (if walk.cancelled then [] else [Answer(id)])
  {
  }

  /** The walk's step runs with what it holds, with a unit taken, or with nothing held; or the
      walk waits for the unit. */
  lemma WalkGoesOn(d: Device, id: nat, rest: seq<Todo>)
    requires Kept(d, [Next(id)] + rest) && id in d.walks && d.walks[id].phase.Between?
    requires d.walks[id].index < |d.walks[id].steps|
    ensures Kept(NextStep(d, id).0, NextStep(d, id).1 + rest)
  {
    var (e, more) := NextStep(d, id);
    var walk := d.walks[id];
    var needed := walk.steps[walk.index];
    assert WalkOk(walk);
    var takes := needed.Some? && needed != walk.held && d.free(needed.value) > 0 && d.queues(needed.value) == [];
    var waits := needed.Some? && needed != walk.held && !takes;
    assert MovesOn(d, e, id, if takes then needed else None, if waits then needed else None);
    assert WalkOk(e.walks[id]);
    forall r
      ensures UnitsOk(e, more + rest, r)
    {
      assert UnitsOk(d, [Next(id)] + rest, r);
      MovedUnits(d, e, id, rest, more, if takes then needed else None, if waits then needed else None, r);
    }
    forall x
      ensures TodoOk(e, more + rest, x)
    {
      assert TodoOk(d, [Next(id)] + rest, x);
      MovedTodo(d, e, id, rest, more, x);
    }
  }

  lemma AnswerGiven(d: Device, id: nat, rest: seq<Todo>)
    requires Kept(d, [Answer(id)] + rest)
    ensures Kept(d.(answers := d.answers + [id]), rest)
  {
    var e := d.(answers := d.answers + [id]);
    forall r
      ensures UnitsOk(e, rest, r)
    {
      assert UnitsOk(d, [Answer(id)] + rest, r);
      CountFirst(Answer(id), rest, Free(r));
      HoldersSame(d, e, r);
    }
    forall x
      ensures TodoOk(e, rest, x)
    {
      assert TodoOk(d, [Answer(id)] + rest, x);
      CountFirst(Answer(id), rest, Next(x));
      CountFirst(Answer(id), rest, Answer(x));
      AnsweredOne(d.answers, id, x);
    }
  }

  lemma {:induction false} AnsweredOne(answers: seq<nat>, id: nat, x: nat)
    ensures Answered(answers + [id], x) == Answered(answers, x) + if x == id then 1 else 0
  {
    if answers == [] {
      assert answers + [id] == [id] && [id][1..] == [];
    } else {
      AnsweredOne(answers[1..], id, x);
      assert (answers + [id])[1..] == answers[1..] + [id];
    }
  }

  lemma DoOneKeeps(d: Device, todo: Todo, rest: seq<Todo>)
    requires Kept(d, [todo] + rest)
    ensures Kept(DoOne(d, todo).0, DoOne(d, todo).1 + rest)
  {
    match todo {
      case Free(r) =>
        if d.queues(r) == [] {
          FreeToPool(d, r, rest);
        } else {
          FreeToWaiting(d, r, rest);
        }
      case Next(id) =>
        assert TodoOk(d, [todo] + rest, id);
        CountFirst(todo, rest, Next(id));
        assert WalkOk(d.walks[id]);
        if d.walks[id].index < |d.walks[id].steps| {
          WalkGoesOn(d, id, rest);
        } else {
          WalkEnds(d, id, rest);
        }
      case Answer(id) =>
        AnswerGiven(d, id, rest);
        assert [] + rest == rest;
    }
  }

  /** All that an event sets off ends, and keeps everything. */
  lemma {:induction false} SettleKeeps(d: Device, todo: seq<Todo>)
    requires Kept(d, todo)
    ensures Kept(Settle(d, todo), [])
    decreases |Unentered(d)|, Weight(todo)
  {
    if todo != [] {
      var (after, more) := DoOne(d, todo[0]);
      assert [todo[0]] + todo[1..] == todo;
      DoOneEnds(d, todo[0], todo[1..]);
      DoOneKeeps(d, todo[0], todo[1..]);
      SettleKeeps(after, more + todo[1..]);
    }
  }
}
