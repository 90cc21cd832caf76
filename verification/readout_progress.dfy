/** What each event of the readout path brings about: a round packed, formed, written or gone. */
module ReadoutProgress {
  import opened Readout
  import opened ReadoutInvariant
  import opened ReadoutSteps
  import opened ReadoutRuns

  ghost predicate IsAt(p: Path, r: Round, stage: Stage) {
    r in p.assembly && p.assembly[r].stage == stage
  }

  /** The flight has ended, and no other. */
  ghost predicate EndsFlight(p: Path, q: Path, i: nat)
    requires i < |p.flights|
  {
    q.flights == p.flights[..i] + p.flights[i + 1..]
  }

  /** One more fragment is counted; the last one ends the collecting. */
  ghost predicate CountsFragment(c: Settings, p: Path, q: Path, r: Round) {
    if r in p.waiting then r in q.waiting && q.waiting[r] == p.waiting[r] + 1
    else if r !in p.assembly then false
    else if p.assembly[r].arrived + 1 == c.fragments(r) then !IsAt(q, r, Collecting)
    else IsAt(q, r, Collecting) && q.assembly[r].arrived == p.assembly[r].arrived + 1
  }

  /** What an event leaves true of what it names. */
  ghost predicate Moves(c: Settings, p: Path, step: Step, q: Path)
    requires Enabled(c, p, step)
  {
    match step
    case Emitted(r) => q.emitted == p.emitted + [r] && (r in q.waiting || IsAt(q, r, Collecting))
    case Arrived(r, _) => CountsFragment(c, p, q, r)
    case PackStarts(r, _) => !IsAt(q, r, PackDue) && !IsAt(q, r, Collecting)
    case PackEnds(r, _) => !IsAt(q, r, Packing) && !IsAt(q, r, PackDue) && !IsAt(q, r, Collecting)
    case FormationEnds(_) => q.forming == p.forming[1..] && p.forming[0] !in q.assembly
    case StoreFreed(room) => LeftInOrder(p.held, q.held, p.written, q.written, room)
    case Published(i) => i < |q.flights| && q.flights[i] == p.flights[i].(leaves := true)
    case CopyStored(i) => EndsFlight(p, q, i) && q.left == p.left
    case Leaves(i) => EndsFlight(p, q, i) && q.left == p.left + [p.flights[i].round]
    case MemoryDelivered(i) => EndsFlight(p, q, i) && q.left == p.left + [p.flights[i].round]
  }

  // ------------------------------------------------------------- packing

  /** A round past packing stays past it, or is gone. */
  ghost predicate IsPast(p: Path, r: Round) {
    r in p.assembly ==> p.assembly[r].stage.Ready? || p.assembly[r].stage.Forming?
  }

  lemma {:induction false} ReleaseLeavesPast(c: Settings, p: Path, stream: nat, room: Round -> bool, r: Round)
    requires IsPast(p, r)
    ensures IsPast(Release(c, p, stream, room), r)
    decreases |Expected(p, stream)|
  {
    var expected := Expected(p, stream);
    if expected != [] && expected[0].stream == stream && IsReady(p, expected[0]) {
      ReleaseLeavesPast(c, Retire(c, p, expected[0], room), stream, room, r);
    }
  }

  lemma {:induction false} RetryMovesNoFlight(c: Settings, p: Path)
    requires LineOk(p)
    ensures RetryLine(c, p).flights == p.flights && RetryLine(c, p).left == p.left
    decreases |p.line|
  {
    if p.line != [] && HasRoom(c, p) {
      EnterLineOk(c, p);
      RetryMovesNoFlight(c, EnterHead(c, p));
    }
  }

  lemma EmitMoves(c: Settings, p: Path, r: Round)
    requires Boundary(c, p) && r !in p.emitted
    ensures Moves(c, p, Emitted(r), Emit(c, p, r))
  {
    FreshRound(c, p, r);
    EmitIsJoin(c, p, r);
    if p.line == [] && HasRoom(c, p) {
      assert Joined(p, r).line == [r] && Joined(p, r).waiting[r] == 0;
    }
  }

  lemma FreedMoves(c: Settings, p: Path, i: nat)
    requires Boundary(c, p) && i < |p.flights| && !p.flights[i].isCopy
    ensures LineOk(Freed(p, i))
    ensures var q := RetryLine(c, Freed(p, i)); EndsFlight(p, q, i) && q.left == p.left + [p.flights[i].round]
  {
    RetryMovesNoFlight(c, Freed(p, i));
  }

  /** Each event brings about what it is for. */
  lemma StepMoves(c: Settings, p: Path, step: Step)
    requires Boundary(c, p) && Enabled(c, p, step)
    ensures Moves(c, p, step, Apply(c, p, step))
  {
    match step
    case Emitted(r) => EmitMoves(c, p, r);
    case Arrived(r, room) => ArrivalMoves(c, p, r, room);
    case PackStarts(r, room) => PackMoves(c, p, r, room);
    case PackEnds(r, room) => ReleaseLeavesPast(c, WithStage(p, r, Ready), r.stream, room, r);
    case FormationEnds(room) => FormedKept(c, p, room);
    case StoreFreed(room) => HeldLeaveInOrder(c, p, room);
    case Published(i) =>
    case CopyStored(i) =>
    case Leaves(i) => FreedMoves(c, p, i);
    case MemoryDelivered(i) => FreedMoves(c, p, i);
  }

  lemma PackMoves(c: Settings, p: Path, r: Round, room: Round -> bool)
    requires r in p.assembly
    ensures !IsAt(Pack(c, p, r, room), r, PackDue) && !IsAt(Pack(c, p, r, room), r, Collecting)
  {
    if c.packingIsFree {
      ReleaseLeavesPast(c, WithStage(p, r, Ready), r.stream, room, r);
    }
  }

  lemma ArrivalMoves(c: Settings, p: Path, r: Round, room: Round -> bool)
    requires MayArrive(c, p, r) && !(r in p.waiting && r in p.assembly)
    ensures CountsFragment(c, p, Add(c, p, r, room), r)
  {
    if r in p.assembly && p.assembly[r].arrived + 1 == c.fragments(r) {
      PackMoves(c, p.(assembly := p.assembly[r := p.assembly[r].(arrived := p.assembly[r].arrived + 1)]), r, room);
    }
  }
}
