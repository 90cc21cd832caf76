/** Every run of one unit's staging: jobs staged, landed, joined, masked, cancelled by attempt
    and released, in any order.
 */
module MemoryRuns {
  import opened Options
  import opened Lists
  import opened DecoderMemories
  import opened MemoryInvariant

  // ---------------------------------------------------- staging and folding

  ghost predicate IsFresh(s: Staging, id: nat) {
    id in s.jobs && !s.jobs[id].isReader && !s.jobs[id].waits && !s.jobs[id].folded && !s.jobs[id].cancelled
  }

  lemma StageKeeps(s: Staging, id: nat)
    requires Sound(s) && IsFresh(s, id)
    ensures Sound(Stage(s, id))
  {
    if HasInput(s.memory, s.jobs[id].key) {
      ReadKeeps(s, id);
      ReadNow(s, id);
    } else {
      StageKept(s, id);
      StageLands(s, id);
    }
  }

  lemma ReadNow(s: Staging, id: nat)
    requires LandingsOk(s, []) && IsFresh(s, id) && HasInput(s.memory, s.jobs[id].key)
    ensures LandingsOk(ReadResident(s, id), [])
  {
    var r := ReadResident(s, id);
    assert forall x :: SameWait(s, r, x);
    forall key | key in s.awaited
      ensures !HasInput(r.memory, key)
    {
      assert EntryOk(s, key);
    }
    SameLandings(s, r);
  }

  lemma StageKept(s: Staging, id: nat)
    requires Kept(s) && IsFresh(s, id) && !HasInput(s.memory, s.jobs[id].key)
    ensures Kept(Stage(s, id))
  {
    var r := Stage(s, id);
    forall x | x in r.jobs && r.jobs[x].isReader
      ensures ReaderOk(r, x)
    {
      assert ReaderOk(s, x);
    }
    forall i, x | 0 <= i < |r.memory| && x in r.memory[i].readers
      ensures IsReaderOf(r, x, r.memory[i])
    {
      assert IsReaderOf(s, x, s.memory[i]);
    }
  }

  /** A job that joins a transfer waits in its entry; one that sends has an entry of its own. */
  lemma StageEntry(s: Staging, id: nat, key: nat)
    requires LandingsOk(s, []) && IsFresh(s, id) && !HasInput(s.memory, s.jobs[id].key)
    requires key in Stage(s, id).awaited
    ensures EntryOk(Stage(s, id), key)
  {
    var r := Stage(s, id);
    if key in s.awaited {
      assert EntryOk(s, key);
      assert id !in s.awaited[key].joined && s.awaited[key].sender != id by {
        assert id in s.awaited[key].joined ==> Waits(s, id, key);
      }
      forall x | x in r.awaited[key].joined
        ensures Waits(r, x, key)
      {
        assert x in s.awaited[key].joined ==> Waits(s, x, key);
      }
      if s.jobs[id].key == key {
        DistinctGrows(s.awaited[key].joined, id);
      }
    }
  }

  lemma StageLands(s: Staging, id: nat)
    requires LandingsOk(s, []) && IsFresh(s, id) && !HasInput(s.memory, s.jobs[id].key)
    ensures LandingsOk(Stage(s, id), [])
  {
    var r := Stage(s, id);
    var key := s.jobs[id].key;
    forall k | k in r.awaited
      ensures EntryOk(r, k)
    {
      StageEntry(s, id, k);
    }
    forall x | x in r.jobs && r.jobs[x].waits
      ensures InEntry(r, x) && !r.jobs[x].isReader && !r.jobs[x].cancelled && !r.jobs[x].folded
    {
      assert x != id ==> InEntry(s, x);
      if x == id && key in s.awaited {
        assert r.awaited[key].joined[|s.awaited[key].joined|] == id;
      }
    }
  }

  lemma FoldKeeps(s: Staging, id: nat, mask: nat)
    requires Sound(s) && id in s.jobs && s.jobs[id].isReader
    ensures HasInput(s.memory, s.jobs[id].key) && Sound(FoldInPlace(s, id, mask))
  {
    assert ReaderOk(s, id);
    FoldKept(s, id, mask);
    FoldLands(s, id, mask);
  }

  lemma FoldKept(s: Staging, id: nat, mask: nat)
    requires Kept(s) && id in s.jobs && s.jobs[id].isReader && HasInput(s.memory, s.jobs[id].key)
    ensures Kept(FoldInPlace(s, id, mask))
  {
    var r := FoldInPlace(s, id, mask);
    FoldMemory(s, id, mask);
    forall x | x in r.jobs && r.jobs[x].isReader
      ensures ReaderOk(r, x)
    {
      FoldReader(s, id, mask, x);
    }
    forall i, x | 0 <= i < |r.memory| && x in r.memory[i].readers
      ensures IsReaderOf(r, x, r.memory[i])
    {
      FoldKeepsReader(s, id, mask, i, x);
    }
  }

  lemma FoldKeepsReader(s: Staging, id: nat, mask: nat, i: nat, x: nat)
    requires ReadersOk(s) && id in s.jobs && s.jobs[id].isReader && HasInput(s.memory, s.jobs[id].key)
    requires i < |s.memory| && x in s.memory[i].readers && |FoldInPlace(s, id, mask).memory| == |s.memory|
    requires FoldInPlace(s, id, mask).memory[i].input.key == s.memory[i].input.key
    ensures IsReaderOf(FoldInPlace(s, id, mask), x, FoldInPlace(s, id, mask).memory[i])
  {
    assert IsReaderOf(s, x, s.memory[i]);
  }

  lemma FoldMemory(s: Staging, id: nat, mask: nat)
    requires InputsOk(s.memory) && id in s.jobs && HasInput(s.memory, s.jobs[id].key)
    ensures var r := FoldInPlace(s, id, mask);
      && InputsOk(r.memory) && Occupied(r.memory) == Occupied(s.memory) && |r.memory| == |s.memory|
      && (forall i | 0 <= i < |s.memory| ::
        r.memory[i].readers == s.memory[i].readers && r.memory[i].input.key == s.memory[i].input.key)
      && (forall key :: PlaceOf(r.memory, key) == PlaceOf(s.memory, key))
  {
    var p := PlaceOf(s.memory, s.jobs[id].key);
    var r := FoldInPlace(s, id, mask);
    assert ResidentOk(s.memory[p]);
    if !s.memory[p].rewritten {
      SamePlaces(s.memory, p, r.memory);
    }
    OccupiedSame(s.memory, r.memory);
  }

  /** Once the first solve wrote the mask, no later fold changes what another reads. */
  lemma FoldReader(s: Staging, id: nat, mask: nat, x: nat)
    requires Kept(s) && id in s.jobs && s.jobs[id].isReader && HasInput(s.memory, s.jobs[id].key)
    requires x in s.jobs && s.jobs[x].isReader
    ensures ReaderOk(FoldInPlace(s, id, mask), x)
  {
    assert ReaderOk(s, x) && ReaderOk(s, id);
    FoldMemory(s, id, mask);
  }

  lemma FoldLands(s: Staging, id: nat, mask: nat)
    requires LandingsOk(s, []) && id in s.jobs && s.jobs[id].isReader && HasInput(s.memory, s.jobs[id].key)
    ensures LandingsOk(FoldInPlace(s, id, mask), [])
  {
    var r := FoldInPlace(s, id, mask);
    FoldMovesNothing(s, id, mask);
    assert forall x :: SameWait(s, r, x);
    forall key | key in s.awaited
      ensures !HasInput(r.memory, key)
    {
      assert EntryOk(s, key);
    }
    SameLandings(s, r);
  }

  lemma FoldMovesNothing(s: Staging, id: nat, mask: nat)
    requires id in s.jobs && HasInput(s.memory, s.jobs[id].key)
    ensures forall key :: HasInput(FoldInPlace(s, id, mask).memory, key) <==> HasInput(s.memory, key)
  {
    var p := PlaceOf(s.memory, s.jobs[id].key);
    if !s.memory[p].rewritten {
      SamePlaces(s.memory, p, FoldInPlace(s, id, mask).memory);
    }
  }

  lemma ReleaseLands(s: Staging, id: nat)
    requires LandingsOk(s, []) && id in s.jobs && !s.jobs[id].waits
    ensures LandingsOk(Release(s, id), [])
  {
    var r := Release(s, id);
    assert forall x :: SameWait(s, r, x);
    forall key | key in s.awaited
      ensures !HasInput(r.memory, key)
    {
      assert EntryOk(s, key);
      ReleaseBringsNone(s, id, key);
    }
    SameLandings(s, r);
  }

  // -------------------------------------------------------------------- runs

  datatype Step =
    | Arrives(id: nat, key: nat, bits: nat, onUnit: bool)
    | Staged(id: nat)
    | Delivered(id: nat)
    | Folds(id: nat, mask: nat)
    | Releases(id: nat)
    | CancelsJob(id: nat)
    | CancelsAttempt(key: nat)

  /** The jobs of one transfer are cancelled together; a job is cancelled by itself only when
      no landing depends on it. */
  ghost predicate Enabled(s: Staging, step: Step) {
    match step
    case Arrives(id, _, _, _) => id !in s.jobs
    case Staged(id) => IsFresh(s, id)
    case Delivered(id) => id in s.jobs
    case Folds(id, _) => id in s.jobs && s.jobs[id].isReader
    case Releases(id) => id in s.jobs && !s.jobs[id].waits
    case CancelsJob(id) => id in s.jobs && CancelsAlone(s, id)
    case CancelsAttempt(key) =>
      key in s.awaited && forall id | id in Members(s.awaited[key]) :: id in s.jobs && s.jobs[id].onUnit
  }

  function Arrived(s: Staging, id: nat, key: nat, bits: nat, onUnit: bool): Staging {
    WithJob(s, id, Job(key, bits, onUnit, false, None, true, 0, false, false, false))
  }

  lemma ArrivedKeeps(s: Staging, id: nat, key: nat, bits: nat, onUnit: bool)
    requires Sound(s) && id !in s.jobs
    ensures Sound(Arrived(s, id, key, bits, onUnit))
  {
    var r := Arrived(s, id, key, bits, onUnit);
    forall x | x in r.jobs && r.jobs[x].isReader
      ensures ReaderOk(r, x)
    {
      assert ReaderOk(s, x);
    }
    forall i, x | 0 <= i < |r.memory| && x in r.memory[i].readers
      ensures IsReaderOf(r, x, r.memory[i])
    {
      assert IsReaderOf(s, x, s.memory[i]);
    }
    forall k | k in r.awaited
      ensures EntryOk(r, k)
    {
      assert EntryOk(s, k);
      assert Waits(s, s.awaited[k].sender, k);
      assert forall x | x in s.awaited[k].joined :: Waits(s, x, k);
    }
    forall x | x in r.jobs && r.jobs[x].waits
      ensures InEntry(r, x)
    {
      assert InEntry(s, x);
    }
  }

  function Apply(s: Staging, step: Step): Attempt
    requires Sound(s) && Enabled(s, step)
  {
    match step
    case Arrives(id, key, bits, onUnit) => Done(Arrived(s, id, key, bits, onUnit))
    case Staged(id) => Done(Stage(s, id))
    case Delivered(id) => DeliverKeeps(s, id); Deliver(s, id)
    case Folds(id, mask) => FoldKeeps(s, id, mask); Done(FoldInPlace(s, id, mask))
    case Releases(id) => Done(Release(s, id))
    case CancelsJob(id) => Done(Cancel(s, id))
    case CancelsAttempt(key) => AttemptCancelled(s, key); Done(CancelAll(s, Members(s.awaited[key])))
  }

  lemma StepKeeps(s: Staging, step: Step)
    requires Sound(s) && Enabled(s, step)
    ensures match Apply(s, step)
      case Done(r) => Sound(r)
      case CapacityExceeded => step.Delivered? && !Fits(s, s.jobs[step.id].bits)
  {
    match step {
      case Arrives(id, key, bits, onUnit) => ArrivedKeeps(s, id, key, bits, onUnit);
      case Staged(id) => StageKeeps(s, id);
      case Delivered(id) => DeliverKeeps(s, id);
      case Folds(id, mask) => FoldKeeps(s, id, mask);
      case Releases(id) => ReleaseKeeps(s, id); ReleaseLands(s, id);
      case CancelsJob(id) => CancelKeepsExactly(s, id);
      case CancelsAttempt(key) => AttemptCancelled(s, key);
    }
  }

  ghost predicate IsRun(s: Staging, steps: seq<Step>)
    requires Sound(s)
    decreases |steps|
  {
    steps == [] ||
    (Enabled(s, steps[0]) && (StepKeeps(s, steps[0]);
      Apply(s, steps[0]).Done? ==> IsRun(Apply(s, steps[0]).staging, steps[1..])))
  }

  function ApplyAll(s: Staging, steps: seq<Step>): Attempt
    requires Sound(s) && IsRun(s, steps)
    decreases |steps|
  {
    if steps == [] then Done(s)
    else
      StepKeeps(s, steps[0]);
      match Apply(s, steps[0])
      case CapacityExceeded => CapacityExceeded
      case Done(next) => ApplyAll(next, steps[1..])
  }

  function Empty(capacity: Option<nat>): Staging {
    Staging(capacity, [], map[], {}, map[])
  }

  lemma EmptyIsSound(capacity: Option<nat>)
    ensures Sound(Empty(capacity))
  {
  }

  lemma {:induction false} RunIsSound(s: Staging, steps: seq<Step>)
    requires Sound(s) && IsRun(s, steps)
    ensures ApplyAll(s, steps).Done? ==> Sound(ApplyAll(s, steps).staging)
    decreases |steps|
  {
    if steps != [] {
      StepKeeps(s, steps[0]);
      match Apply(s, steps[0]) {
        case Done(next) => RunIsSound(next, steps[1..]);
        case CapacityExceeded =>
      }
    }
  }

  ghost predicate IsRunFromStart(capacity: Option<nat>, steps: seq<Step>) {
    Sound(Empty(capacity)) && IsRun(Empty(capacity), steps)
  }

  /** Every run from an empty memory that no landing overflows keeps the memory, the holds and the
      landings. */
  lemma EveryRunIsSound(capacity: Option<nat>, steps: seq<Step>)
    requires IsRunFromStart(capacity, steps) && ApplyAll(Empty(capacity), steps).Done?
    ensures Sound(ApplyAll(Empty(capacity), steps).staging)
  {
    RunIsSound(Empty(capacity), steps);
  }

  // ------------------------------------------------ cancels that go wrong

  function Fresh(onUnit: bool): Job {
    Job(7, 1, onUnit, false, None, true, 0, false, false, false)
  }

  /** Job 0 sends input 7 and, on a unit, job 1 waits for the same landing. */
  function Shared(): Staging {
    Staging(None, [], map[7 := Awaited(0, [1])], {0},
      map[0 := Fresh(true).(waits := true), 1 := Fresh(true).(waits := true)])
  }

  function Sent(): Staging {
    Staging(None, [], map[7 := Awaited(0, [])], {0}, map[0 := Fresh(false).(waits := true)])
  }

  lemma StepsTo(s: Staging, step: Step, rest: seq<Step>, next: Staging)
    requires Sound(s) && Enabled(s, step) && Apply(s, step) == Done(next)
    ensures Sound(next)
    ensures IsRun(next, rest) ==> IsRun(s, [step] + rest) && ApplyAll(s, [step] + rest) == ApplyAll(next, rest)
  {
    StepKeeps(s, step);
    assert ([step] + rest)[1..] == rest;
  }

  lemma SharedIsReached()
    ensures Sound(Empty(None)) && Sound(Shared())
    ensures var steps := [Arrives(0, 7, 1, true)] + ([Arrives(1, 7, 1, true)] + ([Staged(0)] + ([Staged(1)] + [])));
      IsRun(Empty(None), steps) && ApplyAll(Empty(None), steps) == Done(Shared())
  {
    EmptyIsSound(None);
    var one := Empty(None).(jobs := map[0 := Fresh(true)]);
    var two := one.(jobs := map[0 := Fresh(true), 1 := Fresh(true)]);
    var sent :=
      Staging(None, [], map[7 := Awaited(0, [])], {0}, map[0 := Fresh(true).(waits := true), 1 := Fresh(true)]);
    assert Empty(None).jobs[0 := Fresh(true)] == one.jobs && one.jobs[1 := Fresh(true)] == two.jobs;
    assert two.jobs[0 := Fresh(true).(waits := true)] == sent.jobs && {} + {0} == {0};
    assert sent.jobs[1 := Fresh(true).(waits := true)] == Shared().jobs && [] + [1] == [1];
    assert sent.awaited[7 := Awaited(0, [1])] == Shared().awaited;
    StepsTo(Empty(None), Arrives(0, 7, 1, true), [Arrives(1, 7, 1, true)] + ([Staged(0)] + ([Staged(1)] + [])), one);
    StepsTo(one, Arrives(1, 7, 1, true), [Staged(0)] + ([Staged(1)] + []), two);
    StepsTo(two, Staged(0), [Staged(1)] + [], sent);
    StepsTo(sent, Staged(1), [], Shared());
  }

  /** One job of a shared transfer cancelled by itself: the other waits for a landing nobody
      remembers. */
  lemma SharedCancelForgets()
    ensures Cancel(Shared(), 0).awaited == map[] && Cancel(Shared(), 0).jobs[1].waits && !Sound(Cancel(Shared(), 0))
  {
    assert Shared().awaited - {7} == map[];
    assert !InEntry(Cancel(Shared(), 0), 1);
  }

  /** A sender on no unit cancelled: its landing stays awaited though nothing is in flight. */
  lemma UnplacedCancelLeaves()
    ensures Sound(Empty(None))
    ensures var steps := [Arrives(0, 7, 1, false)] + ([Staged(0)] + []);
      IsRun(Empty(None), steps) && ApplyAll(Empty(None), steps) == Done(Sent())
    ensures 7 in Cancel(Sent(), 0).awaited && Cancel(Sent(), 0).inFlight == {} && !Sound(Cancel(Sent(), 0))
  {
    EmptyIsSound(None);
    var one := Empty(None).(jobs := map[0 := Fresh(false)]);
    assert Empty(None).jobs[0 := Fresh(false)] == one.jobs;
    assert one.jobs[0 := Fresh(false).(waits := true)] == Sent().jobs && {} + {0} == {0};
    StepsTo(Empty(None), Arrives(0, 7, 1, false), [Staged(0)] + [], one);
    StepsTo(one, Staged(0), [], Sent());
    assert !EntryOk(Cancel(Sent(), 0), 7);
  }

  // --------------------------------------------------- what that means

  /** An input is here once, and just while some job reads it. */
  lemma HeldWhileRead(s: Staging, key: nat)
    requires Sound(s)
    ensures HasInput(s.memory, key) <==> exists id :: id in s.jobs && s.jobs[id].isReader && s.jobs[id].key == key
    ensures forall i, j | 0 <= i < j < |s.memory| :: s.memory[i].input.key != s.memory[j].input.key
  {
    var p := PlaceOf(s.memory, key);
    if p < |s.memory| {
      assert ResidentOk(s.memory[p]);
      var id := s.memory[p].readers[0];
      assert id in s.memory[p].readers && IsReaderOf(s, id, s.memory[p]);
    }
    forall id | id in s.jobs && s.jobs[id].isReader && s.jobs[id].key == key
      ensures p < |s.memory|
    {
      assert ReaderOk(s, id);
    }
  }

  /** Every job that folded reads the one masked input, whoever wrote it. */
  lemma OneMaskForAll(s: Staging, a: nat, b: nat)
    requires Sound(s) && a in s.jobs && b in s.jobs && s.jobs[a].key == s.jobs[b].key
    requires s.jobs[a].isReader && s.jobs[a].folded && s.jobs[b].isReader && s.jobs[b].folded
    ensures s.jobs[a].input == s.jobs[b].input && s.jobs[a].input.Some? && |s.jobs[a].input.value.masks| == 1
  {
    assert ReaderOk(s, a) && ReaderOk(s, b);
    assert ResidentOk(s.memory[PlaceOf(s.memory, s.jobs[a].key)]);
  }

  /** A waiting job's transfer is in flight, so its landing or its cancel is still to come; one
      that waits no more, landed or cancelled, has dropped its hold once. */
  lemma HoldsEndOnce(s: Staging, id: nat)
    requires Sound(s) && id in s.jobs
    ensures s.jobs[id].released <= 1 && (s.jobs[id].released == 1 <==> !s.jobs[id].holds)
    ensures s.jobs[id].isReader || s.jobs[id].cancelled ==> s.jobs[id].released == 1
    ensures s.jobs[id].waits ==> s.jobs[id].key in s.awaited && s.awaited[s.jobs[id].key].sender in s.inFlight
  {
    if s.jobs[id].waits {
      assert InEntry(s, id) && EntryOk(s, s.jobs[id].key);
    }
  }
}
