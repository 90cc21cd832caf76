/** Every run of the readout path: emission order, the bound, one place for each round, and no
    deadlock where there are stores.
 */
module ReadoutRuns {
  import opened Options
  import opened Lists
  import opened Readout
  import opened ReadoutInvariant
  import opened ReadoutSteps

  // ---------------------------------------------------------------- flights

  lemma FlightsChanged(c: Settings, p: Path, q: Path)
    requires Kept(c, p) && HeadsOk(p)
    requires SameOrders(p, q) && q.assembly == p.assembly && q.waiting == p.waiting
    requires Placed(c, q)
    ensures Kept(c, q) && HeadsOk(q)
  {
    assert forall r :: Forms(q, r) <==> Forms(p, r);
    SameOrdered(c, p, q);
    SameHeads(p, q);
  }

  /** The store took the round: it leaves the count in an event of its own. */
  function Publish(p: Path, i: nat): Path
    requires i < |p.flights|
  {
    p.(flights := p.flights[i := p.flights[i].(leaves := true)])
  }

  /** The round is set to leave, and nothing else changes. */
  lemma PublishedLeaves(p: Path, i: nat)
    requires i < |p.flights|
    ensures var q := Publish(p, i);
      && |q.flights| == |p.flights| && q == p.(flights := q.flights)
      && q.flights[i].leaves && q.flights[i].round == p.flights[i].round
      && (forall j | 0 <= j < |p.flights| && j != i :: q.flights[j] == p.flights[j])
  {
  }

  /** When store room frees, held rounds leave from the head, each with room, up to the first that
      has none. */
  ghost predicate LeftInOrder(
    held: seq<Round>, rest: seq<Round>, was: seq<Round>, written: seq<Round>, room: Round -> bool)
  {
    && |rest| <= |held| && held[|held| - |rest|..] == rest
    && written == was + held[..|held| - |rest|]
    && (forall i | 0 <= i < |held| - |rest| :: room(held[i]))
    && (rest != [] ==> !room(rest[0]))
  }

  lemma OneMoreLeft(held: seq<Round>, rest: seq<Round>, was: seq<Round>, written: seq<Round>, room: Round -> bool)
    requires held != [] && room(held[0]) && LeftInOrder(held[1..], rest, was + [held[0]], written, room)
    ensures LeftInOrder(held, rest, was, written, room)
  {
    var sent := |held| - |rest|;
    assert held[..sent] == [held[0]] + held[1..][..sent - 1];
    assert was + [held[0]] + held[1..][..sent - 1] == was + ([held[0]] + held[1..][..sent - 1]);
    forall i | 0 <= i < sent
      ensures room(held[i])
    {
      assert i > 0 ==> held[i] == held[1..][i - 1];
    }
  }

  lemma {:induction false} HeldLeaveInOrder(c: Settings, p: Path, room: Round -> bool)
    ensures LeftInOrder(p.held, RetryHeld(c, p, room).held, p.written, RetryHeld(c, p, room).written, room)
    decreases |p.held|
  {
    if p.held != [] && room(p.held[0]) {
      var next := Send(c, p, p.held[0]).(held := p.held[1..]);
      HeldLeaveInOrder(c, next, room);
      OneMoreLeft(p.held, RetryHeld(c, p, room).held, p.written, RetryHeld(c, p, room).written, room);
    } else {
      assert RetryHeld(c, p, room) == p && p.written + [] == p.written;
    }
  }

  lemma PublishedCounts(p: Path, i: nat, r: Round)
    requires i < |p.flights|
    ensures CountOwn(Publish(p, i).flights, r) == CountOwn(p.flights, r)
    ensures CountFlying(Publish(p, i).flights, true) == CountFlying(p.flights, true)
    ensures CountFlying(Publish(p, i).flights, false) == CountFlying(p.flights, false)
  {
    FlightRemoved(p.flights, i, r);
    FlightRemoved(Publish(p, i).flights, i, r);
    assert Publish(p, i).flights[..i] == p.flights[..i] && Publish(p, i).flights[i + 1..] == p.flights[i + 1..];
  }

  lemma PublishKept(c: Settings, p: Path, i: nat)
    requires Kept(c, p) && HeadsOk(p) && i < |p.flights| && !p.flights[i].isCopy
    ensures Kept(c, Publish(p, i)) && HeadsOk(Publish(p, i))
  {
    var q := Publish(p, i);
    forall r
      ensures InOnePlace(q, r)
    {
      assert InOnePlace(p, r);
      PublishedCounts(p, i, r);
    }
    PublishedCounts(p, i, p.flights[i].round);
    FlightsChanged(c, p, q);
  }

  lemma CopyKept(c: Settings, p: Path, i: nat)
    requires Kept(c, p) && HeadsOk(p) && i < |p.flights| && p.flights[i].isCopy
    ensures Kept(c, WithoutFlight(p, i)) && HeadsOk(WithoutFlight(p, i))
  {
    var q := WithoutFlight(p, i);
    forall r
      ensures InOnePlace(q, r)
    {
      assert InOnePlace(p, r);
      FlightRemoved(p.flights, i, r);
    }
    FlightRemoved(p.flights, i, p.flights[i].round);
    FlightsChanged(c, p, q);
  }

  lemma FreedPlaced(c: Settings, p: Path, i: nat)
    requires Placed(c, p) && i < |p.flights| && !p.flights[i].isCopy
    ensures Placed(c, Freed(p, i))
  {
    var q := Freed(p, i);
    forall r
      ensures InOnePlace(q, r)
    {
      assert InOnePlace(p, r);
      FlightRemoved(p.flights, i, r);
      CountOne(p.left, p.flights[i].round, r);
    }
    FlightRemoved(p.flights, i, p.flights[i].round);
  }

  lemma FreedKept(c: Settings, p: Path, i: nat)
    requires Kept(c, p) && HeadsOk(p) && i < |p.flights| && !p.flights[i].isCopy
    ensures Kept(c, Freed(p, i)) && HeadsOk(Freed(p, i))
  {
    FreedPlaced(c, p, i);
    FlightsChanged(c, p, Freed(p, i));
  }

  /** A delivery keeps the count what it stands for just when it delivers no copy. */
  lemma DeliveryCountsExactly(p: Path, i: nat)
    requires Counted(p) && i < |p.flights|
    ensures Counted(Freed(p, i)) <==> !p.flights[i].isCopy
    ensures Freed(p, i).left == if p.flights[i].isCopy then p.left else p.left + [p.flights[i].round]
  {
    FlightRemoved(p.flights, i, p.flights[i].round);
  }

  // ------------------------------------------------------------------ steps

  datatype Step =
    | Emitted(round: Round)
    | Arrived(round: Round, room: Round -> bool)
    | PackStarts(round: Round, room: Round -> bool)
    | PackEnds(round: Round, room: Round -> bool)
    | FormationEnds(room: Round -> bool)
    | StoreFreed(room: Round -> bool)
    | Published(flight: nat)
    | CopyStored(flight: nat)
    | Leaves(flight: nat)
    | MemoryDelivered(flight: nat)

  /** Each step where its event may happen: a round is emitted once, a fragment arrives while
      its round collects, a flight ends as its route does. */
  ghost predicate Enabled(c: Settings, p: Path, step: Step) {
    match step
    case Emitted(r) => r !in p.emitted
    case Arrived(r, _) => MayArrive(c, p, r)
    case PackStarts(r, _) => r in p.assembly && p.assembly[r].stage.PackDue?
    case PackEnds(r, _) => r in p.assembly && p.assembly[r].stage.Packing?
    case FormationEnds(_) => p.forming != []
    case StoreFreed(_) => true
    case Published(i) => i < |p.flights| && !p.flights[i].isCopy && !RidesMemory(c, p.flights[i])
    case CopyStored(i) => i < |p.flights| && p.flights[i].isCopy && !RidesMemory(c, p.flights[i])
    case Leaves(i) => i < |p.flights| && p.flights[i].leaves
    case MemoryDelivered(i) => i < |p.flights| && RidesMemory(c, p.flights[i])
  }

  ghost predicate Boundary(c: Settings, p: Path) {
    Kept(c, p) && HeadsOk(p) && NoneWaitsInVain(c, p)
  }

  function Apply(c: Settings, p: Path, step: Step): Path
    requires Boundary(c, p) && Enabled(c, p, step)
  {
    match step
    case Emitted(r) => Emit(c, p, r)
    case Arrived(r, room) => Add(c, p, r, room)
    case PackStarts(r, room) => Pack(c, p, r, room)
    case PackEnds(r, room) => FinishPacking(c, p, r, room)
    case FormationEnds(room) => Formed(c, p, room)
    case StoreFreed(room) => RetryHeld(c, p, room)
    case Published(i) => Publish(p, i)
    case CopyStored(i) => WithoutFlight(p, i)
    case Leaves(i) => FreedKept(c, p, i); RetryLine(c, Freed(p, i))
    case MemoryDelivered(i) => FreedKept(c, p, i); RetryLine(c, Freed(p, i))
  }

  lemma RetryBoundary(c: Settings, p: Path)
    requires Kept(c, p) && HeadsOk(p)
    ensures Boundary(c, RetryLine(c, p))
  {
    RetryKept(c, p);
    SameHeads(p, RetryLine(c, p));
  }

  lemma StepKeepsBoundary(c: Settings, p: Path, step: Step)
    requires Boundary(c, p) && Enabled(c, p, step)
    ensures Boundary(c, Apply(c, p, step))
    ensures Apply(c, p, step).emitted == if step.Emitted? then p.emitted + [step.round] else p.emitted
  {
    match step {
      case Emitted(r) => FreshRound(c, p, r); EmitKept(c, p, r); JoinedHeads(c, p, r); EmitNoneInVain(c, p, r);
      case Arrived(r, room) => AddKept(c, p, r, room);
      case PackStarts(r, room) => PackKept(c, p, r, room);
      case PackEnds(r, room) => FinishPackingKept(c, p, r, room);
      case FormationEnds(room) => FormedKept(c, p, room);
      case StoreFreed(room) => RetryHeldKept(c, p, room);
      case Published(i) => PublishKept(c, p, i);
      case CopyStored(i) => CopyKept(c, p, i);
      case Leaves(i) => FreedKept(c, p, i); RetryBoundary(c, Freed(p, i)); RetryEmitted(c, Freed(p, i));
      case MemoryDelivered(i) => FreedKept(c, p, i); RetryBoundary(c, Freed(p, i)); RetryEmitted(c, Freed(p, i));
    }
  }

  lemma {:induction false} RetryEmitted(c: Settings, p: Path)
    requires LineOk(p)
    ensures RetryLine(c, p).emitted == p.emitted
    decreases |p.line|
  {
    if p.line != [] && HasRoom(c, p) {
      DistinctTail(p.line);
      RetryEmitted(c, EnterHead(c, p));
    }
  }

  // ------------------------------------------------------------------- runs

  ghost predicate IsRun(c: Settings, p: Path, steps: seq<Step>)
    requires Boundary(c, p)
    decreases |steps|
  {
    steps == [] ||
    (Enabled(c, p, steps[0]) && (StepKeepsBoundary(c, p, steps[0]); IsRun(c, Apply(c, p, steps[0]), steps[1..])))
  }

  ghost function After(c: Settings, p: Path, steps: seq<Step>): Path
    requires Boundary(c, p) && IsRun(c, p, steps)
    decreases |steps|
  {
    if steps == [] then p
    else
      StepKeepsBoundary(c, p, steps[0]);
      After(c, Apply(c, p, steps[0]), steps[1..])
  }

  lemma NothingIsBoundary(c: Settings)
    requires IsSettings(c) && (c.capacity.Some? ==> c.capacity.value >= 1)
    ensures Boundary(c, NothingYet)
  {
  }

  lemma {:induction false} RunKeepsBoundary(c: Settings, p: Path, steps: seq<Step>)
    requires Boundary(c, p) && IsRun(c, p, steps)
    ensures Boundary(c, After(c, p, steps))
    decreases |steps|
  {
    if steps != [] {
      StepKeepsBoundary(c, p, steps[0]);
      RunKeepsBoundary(c, Apply(c, p, steps[0]), steps[1..]);
    }
  }

  /** Settings with a place at least, if places are bounded. */
  ghost predicate IsSetUp(c: Settings) {
    IsSettings(c) && (c.capacity.Some? ==> c.capacity.value >= 1)
  }

  /** A run from the path with nothing on it yet. */
  ghost predicate IsRunFromStart(c: Settings, steps: seq<Step>) {
    IsSetUp(c) && Boundary(c, NothingYet) && IsRun(c, NothingYet, steps)
  }

  ghost function AfterStart(c: Settings, steps: seq<Step>): Path
    requires IsRunFromStart(c, steps)
  {
    After(c, NothingYet, steps)
  }

  /** Every run keeps order, places, counts and bound, and leaves nothing waiting in vain. */
  lemma EveryRunKeepsBoundary(c: Settings, steps: seq<Step>)
    requires IsRunFromStart(c, steps)
    ensures Boundary(c, AfterStart(c, steps))
  {
    RunKeepsBoundary(c, NothingYet, steps);
  }

  // --------------------------------------------------- what that means

  /** Of every stream, the rounds written to the stores are its first ones, in their order,
      and those held come next. */
  lemma WrittenInEmissionOrder(c: Settings, steps: seq<Step>, stream: nat)
    requires IsRunFromStart(c, steps)
    ensures WrittenFirst(AfterStart(c, steps), stream)
  {
    EveryRunKeepsBoundary(c, steps);
    InOrderIsWrittenFirst(AfterStart(c, steps), stream);
  }

  /** The rounds written are the first emitted, and those held come next. */
  ghost predicate WrittenFirst(p: Path, stream: nat) {
    var written, held, emitted := On(p.written, stream), On(p.held, stream), On(p.emitted, stream);
    && |written| + |held| <= |emitted|
    && emitted[..|written|] == written
    && emitted[|written|..|written| + |held|] == held
  }

  lemma InOrderIsWrittenFirst(p: Path, stream: nat)
    requires InOrder(p, stream)
    ensures WrittenFirst(p, stream)
  {
    FirstTwo(On(p.written, stream), On(p.held, stream), On(p.forming, stream), Expected(p, stream));
  }

  lemma FirstTwo(a: seq<Round>, b: seq<Round>, c: seq<Round>, d: seq<Round>)
    ensures var all := a + b + c + d;
      all[..|a|] == a && all[|a|..|a| + |b|] == b
  {
  }

  /** The rounds counted are those in assembly, held, on their way or crossing, and each
      entered round is in exactly one of those or gone; they never pass the bound. */
  lemma CountedWithinBound(c: Settings, steps: seq<Step>, r: Round)
    requires IsRunFromStart(c, steps)
    ensures var p := AfterStart(c, steps);
      && (c.capacity.Some? ==> InFlightCount(p) <= c.capacity.value)
      && InFlightCount(p) == |p.assembly| + |p.held| + CountFlying(p.flights, false) + CountFlying(p.flights, true)
      && Places(p, r) == if r in p.emitted && r !in p.line then 1 else 0
  {
    var p := AfterStart(c, steps);
    EveryRunKeepsBoundary(c, steps);
    assert InOnePlace(p, r);
    CountMember(p.emitted, r);
    CountMember(p.line, r);
    assert r in p.line ==> r in p.emitted by {
      if r in p.line {
        assert r in p.emitted[|p.emitted| - |p.line|..];
      }
    }
  }

  /** A round in assembly was emitted before every round that still waits for a place. */
  lemma NoPredecessorInLine(c: Settings, steps: seq<Step>, p: Path, r: Round, i: nat, j: nat)
    requires IsRunFromStart(c, steps) && p == AfterStart(c, steps)
    requires r in p.assembly && i < |p.emitted| && p.emitted[i] == r
    requires j < |p.emitted| && p.emitted[j] in p.line && j >= |p.emitted| - |p.line|
    ensures i < j
  {
    EveryRunKeepsBoundary(c, steps);
    var start := |p.emitted| - |p.line|;
    assert forall k | start <= k < |p.emitted| ::
      p.emitted[k] == p.emitted[start..][k - start] && p.emitted[k] in p.line;
  }

  /** Nothing is packing, forming, held or on its way. */
  ghost predicate IsQuiet(p: Path) {
    && (forall r | r in p.assembly :: p.assembly[r].stage.Collecting? || p.assembly[r].stage.Ready?)
    && p.forming == [] && p.held == [] && p.flights == []
  }

  /** No round in assembly misses a fragment. */
  ghost predicate AllArrived(p: Path) {
    forall r | r in p.assembly :: !p.assembly[r].stage.Collecting?
  }

  /** Before a round yet to retire, the first of its stream to retire is in assembly too. */
  lemma FirstIsInAssembly(c: Settings, p: Path, r: Round)
    requires Kept(c, p) && r in p.assembly && !Forms(p, r)
    ensures var expected := Expected(p, r.stream);
      expected != [] && expected[0] in p.assembly && !Forms(p, expected[0])
  {
    var expected, line := Expected(p, r.stream), On(p.line, r.stream);
    assert SplitOk(p, r.stream) && r in expected;
    OnMembers(p.line, r.stream);
    assert r !in line;
    assert |line| == |expected| ==> line == expected;
  }

  /** With all fragments in and nothing under way, assembly is empty. */
  lemma QuietAssemblyIsEmpty(c: Settings, p: Path)
    requires Boundary(c, p) && IsQuiet(p) && AllArrived(p)
    ensures p.assembly == map[]
  {
    forall r
      ensures r !in p.assembly
    {
      if r in p.assembly {
        FirstIsInAssembly(c, p, r);
      }
    }
  }

  lemma QuietHasWritten(c: Settings, p: Path)
    requires Boundary(c, p) && IsQuiet(p) && AllArrived(p) && c.hasStores
    requires c.capacity.Some? ==> c.capacity.value >= 1
    ensures p.line == [] && p.assembly == map[]
    ensures forall stream :: On(p.written, stream) == On(p.emitted, stream)
    ensures forall r | r in p.emitted :: CountOf(p.left, r) == 1
  {
    QuietAssemblyIsEmpty(c, p);
    assert InFlightCount(p) == 0;
    forall stream: nat
      ensures On(p.written, stream) == On(p.emitted, stream)
    {
      assert InOrder(p, stream) && SplitOk(p, stream);
    }
    forall r | r in p.emitted
      ensures CountOf(p.left, r) == 1
    {
      assert InOnePlace(p, r);
      CountMember(p.emitted, r);
    }
  }

  /** No deadlock: in every run with stores, once all fragments are in and nothing is under way,
      every round emitted has been written in its order and has left. */
  lemma NoDeadlock(c: Settings, steps: seq<Step>)
    requires IsRunFromStart(c, steps) && c.hasStores
    requires IsQuiet(AfterStart(c, steps)) && AllArrived(AfterStart(c, steps))
    ensures var p := AfterStart(c, steps);
      && p.line == [] && p.assembly == map[]
      && (forall stream :: On(p.written, stream) == On(p.emitted, stream))
      && (forall r | r in p.emitted :: CountOf(p.left, r) == 1)
  {
    EveryRunKeepsBoundary(c, steps);
    QuietHasWritten(c, AfterStart(c, steps));
  }

  // -------------------------------------------------- a run with no stores

  /** With no store nothing is ever on its way, so nothing ever retries the line. */
  lemma NoStoresKeepsLine(c: Settings, p: Path, step: Step)
    requires Boundary(c, p) && Enabled(c, p, step) && !c.hasStores && p.line != []
    ensures Apply(c, p, step).line != [] && Apply(c, p, step).line[0] == p.line[0]
  {
    match step {
      case Emitted(r) => FreshRound(c, p, r);
      case Arrived(r, room) => AddKept(c, p, r, room);
      case PackStarts(r, room) => PackKept(c, p, r, room);
      case PackEnds(r, room) => FinishPackingKept(c, p, r, room);
      case FormationEnds(room) => FormedKept(c, p, room);
      case _ =>
    }
  }

  lemma {:induction false} NoStoresStaysWaiting(c: Settings, p: Path, steps: seq<Step>)
    requires Boundary(c, p) && IsRun(c, p, steps) && !c.hasStores && p.line != []
    ensures After(c, p, steps).line != [] && After(c, p, steps).line[0] == p.line[0]
    decreases |steps|
  {
    if steps != [] {
      NoStoresKeepsLine(c, p, steps[0]);
      StepKeepsBoundary(c, p, steps[0]);
      NoStoresStaysWaiting(c, Apply(c, p, steps[0]), steps[1..]);
    }
  }

  /** A round at the head of the line waits for ever just when there are no stores. */
  lemma WaitsForeverExactly(c: Settings, p: Path, steps: seq<Step>)
    requires Boundary(c, p) && IsRun(c, p, steps) && p.line != []
    requires c.capacity.Some? ==> c.capacity.value >= 1
    requires IsQuiet(After(c, p, steps)) && AllArrived(After(c, p, steps))
    ensures p.line[0] in After(c, p, steps).line <==> !c.hasStores
  {
    if c.hasStores {
      RunKeepsBoundary(c, p, steps);
      QuietHasWritten(c, After(c, p, steps));
    } else {
      NoStoresStaysWaiting(c, p, steps);
    }
  }

  /** One place, no stores, and no time to pack or form. */
  function OnePlace(): Settings {
    Settings(Some(1), true, true, false, (_: Round) => 1, (_: Round) => false, (_: Round) => [])
  }

  /** The first round has gone; the second still waits in front of an empty stage. */
  const Stuck: Path :=
    NothingYet.(
      line := [Round(0, 1)], waiting := map[Round(0, 1) := 0], expected := map[0 := [Round(0, 1)]],
      emitted := [Round(0, 0), Round(0, 1)], written := [Round(0, 0)], left := [Round(0, 0)])

  /** The first round of a path with nothing yet takes a place at once. */
  lemma EntersAtOnce(c: Settings, r: Round)
    requires HasRoom(c, NothingYet) && c.fragments(r) == 1
    ensures Emit(c, NothingYet, r) ==
      NothingYet.(assembly := map[r := Context(0, Collecting)], expected := map[r.stream := [r]], emitted := [r])
  {
    assert Expected(NothingYet, r.stream) + [r] == [r] && [] + [r] == [r];
    var waiting: map<Round, nat> := map[r := 0];
    assert NothingYet.waiting[r := 0] == waiting && waiting - {r} == map[];
    assert NothingYet.expected[r.stream := [r]] == map[r.stream := [r]];
  }

  /** The one fragment of a round that packs and forms in no time retires it. */
  lemma OneFragmentRetires(c: Settings, p: Path, r: Round, room: Round -> bool)
    requires c.packingIsFree && c.formationIsFree && c.fragments(r) == 1
    requires p.assembly == map[r := Context(0, Collecting)] && Expected(p, r.stream) != []
    requires Expected(p, r.stream)[0] == r
    ensures var retired := p.(expected := p.expected[r.stream := Expected(p, r.stream)[1..]], assembly := map[]);
      Add(c, p, r, room) == Release(c, Admit(c, retired, r, room), r.stream, room)
  {
    var arrived := p.(assembly := map[r := Context(1, Collecting)]);
    var packed := p.(assembly := map[r := Context(1, Ready)]);
    assert p.assembly[r := Context(1, Collecting)] == arrived.assembly;
    assert arrived.assembly[r := Context(1, Ready)] == packed.assembly && packed.assembly - {r} == map[];
    assert Add(c, p, r, room) == Release(c, packed, r.stream, room);
  }

  lemma SecondWaits(first: Round, second: Round)
    requires first == Round(0, 0) && second == Round(0, 1)
    ensures var one :=
      NothingYet.(assembly := map[first := Context(0, Collecting)], expected := map[0 := [first]], emitted := [first]);
      Emit(OnePlace(), one, second) == one.(
        line := [second], waiting := map[second := 0],
        expected := map[0 := [first, second]], emitted := [first, second])
  {
    var one := NothingYet.(assembly := map[first := Context(0, Collecting)], expected := map[0 := [first]],
      emitted := [first]);
    assert |one.assembly| == 1 && !HasRoom(OnePlace(), one);
    assert Expected(one, 0) + [second] == [first, second];
    assert one.expected[0 := [first, second]] == map[0 := [first, second]];
    assert one.waiting[second := 0] == map[second := 0];
  }

  lemma SecondIsStuck(room: Round -> bool)
    ensures var c, first, second := OnePlace(), Round(0, 0), Round(0, 1);
      && Add(c, Emit(c, Emit(c, NothingYet, first), second), first, room) == Stuck
      && IsQuiet(Stuck) && AllArrived(Stuck) && InFlightCount(Stuck) == 0
  {
    var c, first, second := OnePlace(), Round(0, 0), Round(0, 1);
    EntersAtOnce(c, first);
    SecondWaits(first, second);
    var two := Emit(c, Emit(c, NothingYet, first), second);
    OneFragmentRetires(c, two, first, room);
    assert Expected(two, 0)[1..] == [second] && two.expected[0 := [second]] == map[0 := [second]];
  }

  /** From the first emission on: the run is one the path allows, and its last round waits for
      ever, however the run goes on. */
  lemma WaitsForEver(room: Round -> bool, steps: seq<Step>)
    requires Boundary(OnePlace(), Stuck) && IsRun(OnePlace(), Stuck, steps)
    ensures Round(0, 1) in After(OnePlace(), Stuck, steps).line
  {
    NoStoresStaysWaiting(OnePlace(), Stuck, steps);
  }

  lemma RunFirst(c: Settings, p: Path, step: Step, rest: seq<Step>)
    requires Boundary(c, p) && Enabled(c, p, step)
    ensures Boundary(c, Apply(c, p, step))
    ensures IsRun(c, Apply(c, p, step), rest) ==>
      IsRun(c, p, [step] + rest) && After(c, p, [step] + rest) == After(c, Apply(c, p, step), rest)
  {
    StepKeepsBoundary(c, p, step);
    assert ([step] + rest)[1..] == rest;
  }

  /** That state is reached: the two rounds are emitted and the first one's fragment arrives. */
  lemma StuckIsReached(room: Round -> bool)
    ensures var c := OnePlace();
      var steps := [Emitted(Round(0, 0))] + ([Emitted(Round(0, 1))] + ([Arrived(Round(0, 0), room)] + []));
      && Boundary(c, NothingYet) && IsRun(c, NothingYet, steps)
      && After(c, NothingYet, steps) == Stuck && Boundary(c, Stuck)
  {
    var c, first, second := OnePlace(), Round(0, 0), Round(0, 1);
    NothingIsBoundary(c);
    SecondIsStuck(room);
    var one := Emit(c, NothingYet, first);
    var two := Emit(c, one, second);
    EntersAtOnce(c, first);
    RunFirst(c, NothingYet, Emitted(first), [Emitted(second)] + ([Arrived(first, room)] + []));
    RunFirst(c, one, Emitted(second), [Arrived(first, room)] + []);
    SecondMayArrive(c, two);
    RunFirst(c, two, Arrived(first, room), []);
  }

  lemma SecondMayArrive(c: Settings, two: Path)
    requires c == OnePlace() && two == Emit(c, Emit(c, NothingYet, Round(0, 0)), Round(0, 1))
    ensures MayArrive(c, two, Round(0, 0))
  {
    EntersAtOnce(c, Round(0, 0));
  }

  /** Memory rounds with a store of their own and one for a copy. */
  function Copied(): Settings {
    Settings(None, true, true, true, (_: Round) => 1, (_: Round) => true, (_: Round) => [false, false])
  }

  /** The copy's delivery takes the round out of the count while it is still on its way, and the
      round's own delivery takes the count below nothing. */
  lemma CopyUncounts(room: Round -> bool)
    requires room(Round(0, 0))
    ensures var c, r := Copied(), Round(0, 0);
      var own, copy := Flight(r, false, false, false), Flight(r, true, false, false);
      var sent := Add(c, Emit(c, NothingYet, r), r, room);
      && sent.flights == [own, copy] && sent.inFlight == 1 && RidesMemory(c, copy)
      && Freed(sent, 1).flights == [own] && Freed(sent, 1).inFlight == 0
      && Freed(Freed(sent, 1), 0).inFlight == -1
  {
    var c, r := Copied(), Round(0, 0);
    EntersAtOnce(c, r);
    var one := Emit(c, NothingYet, r);
    OneFragmentRetires(c, one, r, room);
    var retired := one.(expected := one.expected[0 := []], assembly := map[]);
    assert Expected(one, 0)[1..] == [];
    TwoFlights(r);
    var sent := Admit(c, retired, r, room);
    assert Expected(sent, 0) == [] && Release(c, sent, 0, room) == sent;
  }

  lemma TwoFlights(r: Round)
    ensures Flights(r, [false, false], false) == [Flight(r, false, false, false), Flight(r, true, false, false)]
  {
    assert [false, false][1..] == [false] && [false][1..] == [];
    assert Flights(r, [false], true) == [Flight(r, true, false, false)] + Flights(r, [], true);
    assert Flights(r, [false, false], false) == [Flight(r, false, false, false)] + Flights(r, [false], true);
  }
}
