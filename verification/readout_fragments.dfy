/** What a round is packed from, over every run: it is packed once all its fragments have arrived,
    and not before.
 */
module ReadoutFragments {
  import opened Readout
  import opened ReadoutInvariant
  import opened ReadoutSteps
  import opened ReadoutRuns

  function BroughtBy(step: Step, r: Round): nat {
    if step.Arrived? && step.round == r then 1 else 0
  }

  /** How many of the round's fragments the steps bring. */
  function Brought(steps: seq<Step>, r: Round): nat {
    if steps == [] then 0 else BroughtBy(steps[0], r) + Brought(steps[1..], r)
  }

  /** With so many fragments in: a round yet to be packed misses one, and one past its packing
      misses none. */
  ghost predicate Whole(c: Settings, p: Path, r: Round, arrived: nat) {
    && (r in p.waiting ==> p.waiting[r] == arrived && arrived <= c.fragments(r))
    && (r in p.assembly ==>
          && p.assembly[r].arrived == arrived && arrived <= c.fragments(r)
          && (p.assembly[r].stage.Collecting? <==> arrived < c.fragments(r)))
    && (r in p.emitted && r !in p.waiting && r !in p.assembly ==> arrived == c.fragments(r))
    && (r !in p.emitted ==> arrived == 0 && r !in p.waiting && r !in p.assembly)
  }

  // --------------------------------------------------------------- the steps

  lemma {:induction false} RetryWhole(c: Settings, p: Path, r: Round, n: nat)
    requires LineOk(p) && LineIsLast(p) && Whole(c, p, r, n)
    ensures Whole(c, RetryLine(c, p), r, n)
    decreases |p.line|
  {
    if p.line != [] && HasRoom(c, p) {
      EnterLine(c, p);
      assert p.line[0] in p.waiting;
      EnterWhole(c, p, r, n);
      RetryWhole(c, EnterHead(c, p), r, n);
    }
  }

  lemma EnterWhole(c: Settings, p: Path, r: Round, n: nat)
    requires p.line != [] && p.line[0] in p.waiting && Whole(c, p, r, n)
    ensures Whole(c, EnterHead(c, p), r, n)
  {
  }

  lemma JoinedWhole(c: Settings, p: Path, x: Round, r: Round, n: nat)
    requires x !in p.emitted && Whole(c, p, r, n)
    ensures Whole(c, Joined(p, x), r, n)
  {
  }

  lemma EmitWhole(c: Settings, p: Path, x: Round, r: Round, n: nat)
    requires x !in p.emitted && x !in p.waiting && x !in p.assembly && Whole(c, p, r, n)
    ensures Whole(c, Emit(c, p, x), r, n)
  {
    JoinedWhole(c, p, x, r, n);
    EmitIsJoin(c, p, x);
    if p.line == [] && HasRoom(c, p) {
      EnterWhole(c, Joined(p, x), r, n);
    }
  }

  lemma RetireWhole(c: Settings, p: Path, x: Round, room: Round -> bool, r: Round, n: nat)
    requires IsReady(p, x) && Expected(p, x.stream) != [] && Whole(c, p, r, n)
    ensures Whole(c, Retire(c, p, x, room), r, n)
  {
  }

  lemma {:induction false} ReleaseWhole(c: Settings, p: Path, stream: nat, room: Round -> bool, r: Round, n: nat)
    requires Whole(c, p, r, n)
    ensures Whole(c, Release(c, p, stream, room), r, n)
    decreases |Expected(p, stream)|
  {
    var expected := Expected(p, stream);
    if expected != [] && expected[0].stream == stream && IsReady(p, expected[0]) {
      RetireWhole(c, p, expected[0], room, r, n);
      ReleaseWhole(c, Retire(c, p, expected[0], room), stream, room, r, n);
    }
  }

  lemma FinishWhole(c: Settings, p: Path, x: Round, room: Round -> bool, r: Round, n: nat)
    requires x in p.assembly && Whole(c, WithStage(p, x, Ready), r, n)
    ensures Whole(c, FinishPacking(c, p, x, room), r, n)
  {
    ReleaseWhole(c, WithStage(p, x, Ready), x.stream, room, r, n);
  }

  lemma PackWhole(c: Settings, p: Path, x: Round, room: Round -> bool, r: Round, n: nat)
    requires x in p.assembly && Whole(c, WithStage(p, x, Ready), r, n)
    ensures Whole(c, Pack(c, p, x, room), r, n)
  {
    if c.packingIsFree {
      FinishWhole(c, p, x, room, r, n);
    }
  }

  /** The world in which the fragment has come to a round in assembly, before the round is packed. */
  function WithFragment(p: Path, x: Round): Path
    requires x in p.assembly
  {
    p.(assembly := p.assembly[x := p.assembly[x].(arrived := p.assembly[x].arrived + 1)])
  }

  lemma LastWhole(c: Settings, p: Path, x: Round, room: Round -> bool, r: Round, n: nat)
    requires x in p.assembly && p.assembly[x].arrived + 1 == c.fragments(x) && Whole(c, p, r, n)
    requires x !in p.waiting
    ensures Whole(c, Pack(c, WithFragment(p, x), x, room), r, if r == x then n + 1 else n)
  {
    assert Whole(c, WithStage(WithFragment(p, x), x, Ready), r, if r == x then n + 1 else n);
    PackWhole(c, WithFragment(p, x), x, room, r, if r == x then n + 1 else n);
  }

  lemma EarlyWhole(c: Settings, p: Path, x: Round, r: Round, n: nat)
    requires x in p.assembly && p.assembly[x].arrived + 1 != c.fragments(x) && Whole(c, p, r, n)
    requires x !in p.waiting && p.assembly[x].stage.Collecting?
    ensures Whole(c, WithFragment(p, x), r, if r == x then n + 1 else n)
  {
  }

  /** A fragment counts for its own round and for no other. */
  lemma AddWhole(c: Settings, p: Path, x: Round, room: Round -> bool, r: Round, n: nat)
    requires MayArrive(c, p, x) && !(x in p.waiting && x in p.assembly) && Whole(c, p, r, n)
    ensures Whole(c, Add(c, p, x, room), r, if r == x then n + 1 else n)
  {
    if x in p.assembly {
      if p.assembly[x].arrived + 1 == c.fragments(x) {
        LastWhole(c, p, x, room, r, n);
      } else {
        EarlyWhole(c, p, x, r, n);
      }
    }
  }

  lemma {:induction false} RetryHeldMovesNone(c: Settings, p: Path, room: Round -> bool)
    ensures var q := RetryHeld(c, p, room);
      q.waiting == p.waiting && q.assembly == p.assembly && q.emitted == p.emitted
    decreases |p.held|
  {
    if p.held != [] && room(p.held[0]) {
      RetryHeldMovesNone(c, Send(c, p, p.held[0]).(held := p.held[1..]), room);
    }
  }

  lemma FormedWhole(c: Settings, p: Path, room: Round -> bool, r: Round, n: nat)
    requires p.forming != [] && Forms(p, p.forming[0]) && Whole(c, p, r, n)
    ensures Whole(c, Formed(c, p, room), r, n)
  {
  }

  lemma FreedWhole(c: Settings, p: Path, i: nat, r: Round, n: nat)
    requires LineOk(p) && LineIsLast(p) && i < |p.flights| && Whole(c, p, r, n)
    ensures LineOk(Freed(p, i)) && Whole(c, RetryLine(c, Freed(p, i)), r, n)
  {
    RetryWhole(c, Freed(p, i), r, n);
  }

  ghost predicate IsPacking(step: Step) {
    step.Arrived? || step.PackStarts? || step.PackEnds? || step.FormationEnds?
  }

  lemma PackingWhole(c: Settings, p: Path, step: Step, r: Round, n: nat)
    requires LineOk(p) && FormingOk(c, p) && IsPacking(step) && Enabled(c, p, step) && Whole(c, p, r, n)
    requires Boundary(c, p)
    ensures Whole(c, Apply(c, p, step), r, n + BroughtBy(step, r))
  {
    match step {
      case Arrived(x, room) => AddWhole(c, p, x, room, r, n);
      case PackStarts(x, room) => PackWhole(c, p, x, room, r, n);
      case PackEnds(x, room) => FinishWhole(c, p, x, room, r, n);
      case FormationEnds(room) =>
        assert p.forming[0] in p.forming;
        FormedWhole(c, p, room, r, n);
    }
  }

  lemma StepWhole(c: Settings, p: Path, step: Step, r: Round, n: nat)
    requires Boundary(c, p) && Enabled(c, p, step) && Whole(c, p, r, n)
    ensures Whole(c, Apply(c, p, step), r, n + BroughtBy(step, r))
  {
    if IsPacking(step) {
      PackingWhole(c, p, step, r, n);
    } else {
      match step {
        case Emitted(x) => FreshRound(c, p, x); EmitWhole(c, p, x, r, n);
        case StoreFreed(room) => RetryHeldMovesNone(c, p, room);
        case Published(i) =>
        case CopyStored(i) =>
        case Leaves(i) => FreedWhole(c, p, i, r, n);
        case MemoryDelivered(i) => FreedWhole(c, p, i, r, n);
      }
    }
  }

  lemma {:induction false} RunWhole(c: Settings, p: Path, steps: seq<Step>, r: Round, n: nat)
    requires Boundary(c, p) && IsRun(c, p, steps) && Whole(c, p, r, n)
    ensures Whole(c, After(c, p, steps), r, n + Brought(steps, r))
    decreases |steps|
  {
    if steps != [] {
      StepKeepsBoundary(c, p, steps[0]);
      StepWhole(c, p, steps[0], r, n);
      RunWhole(c, Apply(c, p, steps[0]), steps[1..], r, n + BroughtBy(steps[0], r));
    }
  }

  // ---------------------------------------------------------------- the runs

  /** In every run, a round in assembly still collects just while it misses a fragment, and one
      held, on its way, written or gone was packed from all its fragments. */
  lemma PackedWhole(c: Settings, steps: seq<Step>, r: Round)
    requires IsRunFromStart(c, steps)
    ensures var p := AfterStart(c, steps);
      && Brought(steps, r) <= c.fragments(r)
      && (r in p.assembly ==>
            p.assembly[r].arrived == Brought(steps, r) &&
            (p.assembly[r].stage.Collecting? <==> Brought(steps, r) < c.fragments(r)))
      && (IsPast(p, r) ==> Brought(steps, r) == c.fragments(r))
  {
    EveryRunIsWhole(c, steps, r);
    PastAreEmitted(c, steps, r);
  }

  lemma EveryRunIsWhole(c: Settings, steps: seq<Step>, r: Round)
    requires IsRunFromStart(c, steps)
    ensures Whole(c, AfterStart(c, steps), r, Brought(steps, r))
  {
    EveryRunKeepsBoundary(c, []);
    RunWhole(c, NothingYet, steps, r, 0);
  }

  /** The round is held, on its way, written or gone. */
  ghost predicate IsPast(p: Path, r: Round) {
    r in p.held || r in p.left || exists i :: 0 <= i < |p.flights| && Carries(p.flights[i], r)
  }

  lemma PastAreEmitted(c: Settings, steps: seq<Step>, r: Round)
    requires IsRunFromStart(c, steps)
    ensures var p := AfterStart(c, steps);
      IsPast(p, r) ==> r in p.emitted && r !in p.waiting && r !in p.assembly
  {
    EveryRunKeepsBoundary(c, steps);
    if IsPast(AfterStart(c, steps), r) {
      PlacedOnce(c, AfterStart(c, steps), r);
    }
  }

  ghost predicate Carries(f: Flight, r: Round) {
    f.round == r && !f.isCopy
  }

  /** A round past assembly is emitted, and waits for no place. */
  lemma PlacedOnce(c: Settings, p: Path, r: Round)
    requires Kept(c, p)
    requires IsPast(p, r)
    ensures r in p.emitted && r !in p.waiting && r !in p.assembly
  {
    assert InOnePlace(p, r);
    CountMember(p.held, r);
    CountMember(p.left, r);
    CountMember(p.emitted, r);
    CountMember(p.line, r);
    if i :| 0 <= i < |p.flights| && Carries(p.flights[i], r) {
      FlightRemoved(p.flights, i, r);
    }
  }
}
