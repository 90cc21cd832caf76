/** The readout path as the source runs it: the assembler with its workspace and line, the
    sender and the transmitter with their counts, updated in place by loops. Each method
    leaves the path the functions of Readout give, so what is proved of every run holds.
 */
module RoundAssemblers {
  import opened Lists
  import opened Readout
  import opened ReadoutInvariant
  import opened ReadoutRuns

  /** The sender in front of the stores, with the transmitter's routes. */
  class RoundSender {
    var held: seq<Round>
    var flights: seq<Flight>
    var inFlight: int
    var crossing: int
    var written: seq<Round>
    var left: seq<Round>

    constructor ()
      ensures held == [] && flights == [] && inFlight == 0 && crossing == 0 && written == [] && left == []
    {
      held, flights, inFlight, crossing, written, left := [], [], 0, 0, [], [];
    }

    /** The path with the sender's part replaced by what this object holds. */
    ghost function Over(p: Path): Path
      reads this
    {
      p.(held := held, flights := flights, inFlight := inFlight, crossing := crossing, written := written, left := left)
    }

    /** To its own store, and a copy to each other one. */
    method SendToStores(c: Settings, r: Round)
      modifies this`flights, this`written, this`inFlight, this`crossing
      ensures forall p :: Over(p) == Send(c, old(Over(p)), r)
    {
      var sides := c.sides(r);
      written := written + [r];
      if sides != [] && sides[0] {
        crossing := crossing + 1;
      } else {
        inFlight := inFlight + 1;
      }
      ghost var was := flights;
      var i := 0;
      while i < |sides|
        invariant i <= |sides|
        invariant flights + Flights(r, sides[i..], i > 0) == was + Flights(r, sides, false)
        modifies this`flights
      {
        assert sides[i..][0] == sides[i] && sides[i..][1..] == sides[i + 1..];
        var flight := Flight(r, i > 0, sides[i], false);
        assert Flights(r, sides[i..], i > 0) == [flight] + Flights(r, sides[i + 1..], true);
        flights := flights + [flight];
        i := i + 1;
      }
      assert sides[|sides|..] == [];
    }

    /** True when the round left; otherwise it waits, behind those that wait. */
    method AdmitRound(c: Settings, r: Round, room: Round -> bool)
      modifies this
      ensures forall p :: Over(p) == Admit(c, old(Over(p)), r, room)
    {
      if held != [] {
        held := held + [r];
        return;
      }
      if !c.hasStores {
        left := left + [r];
        written := written + [r];
        return;
      }
      if !room(r) {
        held := held + [r];
        return;
      }
      SendToStores(c, r);
    }

    /** Room freed: the held rounds leave from the head, up to the first refused. */
    method RetryTheHeld(c: Settings, room: Round -> bool)
      modifies this
      ensures forall p :: Over(p) == RetryHeld(c, old(Over(p)), room)
    {
      while held != []
        invariant forall p :: RetryHeld(c, Over(p), room) == RetryHeld(c, old(Over(p)), room)
        decreases |held|
      {
        if !room(held[0]) {
          return;
        }
        SendToStores(c, held[0]);
        held := held[1..];
      }
    }
  }

  class RoundAssembler {
    const settings: Settings
    const sender: RoundSender
    var line: seq<Round>
    var waiting: map<Round, nat>
    var assembly: map<Round, Context>
    var expected: map<nat, seq<Round>>
    var forming: seq<Round>
    ghost var emitted: seq<Round>

    constructor (settings: Settings)
      ensures this.settings == settings && State() == NothingYet && fresh(sender)
    {
      this.settings := settings;
      sender := new RoundSender();
      line, waiting, assembly, expected, forming, emitted := [], map[], map[], map[], [], [];
    }

    ghost function State(): Path
      reads this, sender
    {
      Path(
        line, waiting, assembly, expected, forming, sender.held, sender.flights,
        sender.inFlight, sender.crossing, emitted, sender.written, sender.left)
    }

    method RoomInStage() returns (room: bool)
      ensures room == HasRoom(settings, State())
    {
      if settings.capacity.None? {
        return true;
      }
      return |assembly| + |sender.held| + sender.inFlight + sender.crossing < settings.capacity.value;
    }

    /** The waiting round takes a free place; False when there is none. */
    method TakePlace(r: Round) returns (entered: bool)
      requires r in waiting
      modifies this`waiting, this`assembly
      ensures entered == HasRoom(settings, old(State()))
      ensures State() == if entered then Enter(settings, old(State()), r) else old(State())
    {
      entered := RoomInStage();
      if !entered {
        return;
      }
      var arrived := waiting[r];
      waiting := waiting - {r};
      assembly := assembly[r := Context(arrived, if arrived == settings.fragments(r) then PackDue else Collecting)];
    }

    method RetryThePackingLine()
      requires LineOk(State())
      modifies this`line, this`waiting, this`assembly
      ensures State() == RetryLine(settings, old(State()))
    {
      while line != []
        invariant LineOk(State())
        invariant RetryLine(settings, State()) == RetryLine(settings, old(State()))
        decreases |line|
      {
        var entered := TakePlace(line[0]);
        if !entered {
          return;
        }
        DistinctTail(line);
        line := line[1..];
      }
    }

    method ExpectRound(r: Round)
      modifies this
      ensures State() == Emit(settings, old(State()), r)
    {
      if r in waiting || r in assembly {
        return;
      }
      expected := expected[r.stream := (if r.stream in expected then expected[r.stream] else []) + [r]];
      emitted := emitted + [r];
      ghost var hadRoom := HasRoom(settings, State());
      waiting := waiting[r := 0];
      if line == [] {
        var entered := TakePlace(r);
        if entered {
          return;
        }
      }
      line := line + [r];
    }

    method HandTheRoundOn(r: Round, room: Round -> bool)
      modifies this`assembly, sender
      ensures State() == HandOn(settings, old(State()), r, room)
    {
      ghost var was := State();
      assembly := assembly - {r};
      ghost var bare := State();
      assert sender.Over(bare) == bare;
      sender.AdmitRound(settings, r, room);
      assert State() == sender.Over(bare);
    }

    /** The stream's ready rounds retire, the first expected one first. */
    method ReleaseReadyRounds(stream: nat, room: Round -> bool)
      requires forall i | 0 <= i < |Expected(State(), stream)| :: Expected(State(), stream)[i].stream == stream
      modifies this`assembly, this`expected, this`forming, sender
      ensures State() == Release(settings, old(State()), stream, room)
    {
      var pending := if stream in expected then expected[stream] else [];
      while pending != [] && pending[0] in assembly && assembly[pending[0]].stage.Ready?
        invariant pending == Expected(State(), stream)
        invariant forall i | 0 <= i < |pending| :: pending[i].stream == stream
        invariant Release(settings, State(), stream, room) == Release(settings, old(State()), stream, room)
        decreases |pending|
      {
        var first := pending[0];
        RetireRound(first, room);
        pending := pending[1..];
      }
    }

    method RetireRound(r: Round, room: Round -> bool)
      requires r in assembly && Expected(State(), r.stream) != []
      modifies this`assembly, this`expected, this`forming, sender
      ensures State() == Retire(settings, old(State()), r, room)
      ensures Expected(State(), r.stream) == Expected(old(State()), r.stream)[1..]
    {
      expected := expected[r.stream := expected[r.stream][1..]];
      if settings.formationIsFree {
        HandTheRoundOn(r, room);
      } else {
        assembly := assembly[r := assembly[r].(stage := Forming)];
        forming := forming + [r];
      }
    }

    method FinishThePacking(r: Round, room: Round -> bool)
      requires r in assembly
      requires forall i | 0 <= i < |Expected(State(), r.stream)| :: Expected(State(), r.stream)[i].stream == r.stream
      modifies this`assembly, this`expected, this`forming, sender
      ensures State() == FinishPacking(settings, old(State()), r, room)
    {
      assembly := assembly[r := assembly[r].(stage := Ready)];
      assert Expected(State(), r.stream) == Expected(old(State()), r.stream);
      ReleaseReadyRounds(r.stream, room);
    }

    method PackRound(r: Round, room: Round -> bool)
      requires r in assembly
      requires forall i | 0 <= i < |Expected(State(), r.stream)| :: Expected(State(), r.stream)[i].stream == r.stream
      modifies this`assembly, this`expected, this`forming, sender
      ensures State() == Pack(settings, old(State()), r, room)
    {
      if settings.packingIsFree {
        FinishThePacking(r, room);
      } else {
        assembly := assembly[r := assembly[r].(stage := Packing)];
      }
    }

    method TakeFragment(r: Round, room: Round -> bool)
      requires r in waiting || r in assembly
      requires forall i | 0 <= i < |Expected(State(), r.stream)| :: Expected(State(), r.stream)[i].stream == r.stream
      modifies this`assembly, this`waiting, this`expected, this`forming, sender
      ensures State() == Add(settings, old(State()), r, room)
    {
      if r in assembly {
        var arrived := assembly[r].arrived + 1;
        assembly := assembly[r := assembly[r].(arrived := arrived)];
        assert Expected(State(), r.stream) == Expected(old(State()), r.stream);
        if arrived == settings.fragments(r) {
          PackRound(r, room);
        }
      } else {
        waiting := waiting[r := waiting[r] + 1];
      }
    }

    /** One fragment arrived; the last one packs a round that is in assembly. */
    method AddFragment(r: Round, room: Round -> bool)
      requires Boundary(settings, State()) && Enabled(settings, State(), Arrived(r, room))
      modifies this`assembly, this`waiting, this`expected, this`forming, sender
      ensures Boundary(settings, State()) && State() == Apply(settings, old(State()), Arrived(r, room))
    {
      StepKeepsBoundary(settings, State(), Arrived(r, room));
      assert SplitOk(State(), r.stream);
      TakeFragment(r, room);
    }

    method FreePlace(flight: nat)
      requires flight < |sender.flights|
      modifies sender
      ensures State() == Freed(old(State()), flight)
    {
      var f := sender.flights[flight];
      sender.flights := sender.flights[..flight] + sender.flights[flight + 1..];
      if f.isLanded {
        sender.crossing := sender.crossing - 1;
      } else {
        sender.inFlight := sender.inFlight - 1;
      }
      sender.left := if f.isCopy then sender.left else sender.left + [f.round];
    }

    /** The round left its route: its place goes to the line's head. */
    method LeaveRoute(flight: nat)
      requires Boundary(settings, State()) && Enabled(settings, State(), Leaves(flight))
      modifies this`line, this`waiting, this`assembly, sender
      ensures Boundary(settings, State()) && State() == Apply(settings, old(State()), Leaves(flight))
    {
      StepKeepsBoundary(settings, State(), Leaves(flight));
      FreedKept(settings, State(), flight);
      FreePlace(flight);
      RetryThePackingLine();
    }
  }
}
