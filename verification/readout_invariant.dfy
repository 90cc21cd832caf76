/** What every step of the readout path keeps: emission order within each stream, each round
    in one place, and counts that are the rounds they stand for.
 */
module ReadoutInvariant {
  import opened Lists
  import opened Readout

  // ------------------------------------------------------ rounds of a stream

  function On(list: seq<Round>, stream: nat): seq<Round> {
    if list == [] then []
    else (if list[0].stream == stream then [list[0]] else []) + On(list[1..], stream)
  }

  lemma {:induction false} OnAppend(a: seq<Round>, b: seq<Round>, stream: nat)
    ensures On(a + b, stream) == On(a, stream) + On(b, stream)
  {
    if a == [] {
      assert a + b == b;
    } else {
      OnAppend(a[1..], b, stream);
      assert (a + b)[1..] == a[1..] + b && (a + b)[0] == a[0];
      var first := if a[0].stream == stream then [a[0]] else [];
      assert On(a + b, stream) == first + (On(a[1..], stream) + On(b, stream));
    }
  }

  lemma OnOne(list: seq<Round>, r: Round, stream: nat)
    ensures On(list + [r], stream) == On(list, stream) + if r.stream == stream then [r] else []
  {
    OnAppend(list, [r], stream);
    assert [r][1..] == [];
  }

  lemma {:induction false} OnMembers(list: seq<Round>, stream: nat)
    ensures forall r :: r in On(list, stream) <==> r in list && r.stream == stream
  {
    if list != [] {
      OnMembers(list[1..], stream);
    }
  }

  // ---------------------------------------------------------- what is kept

  /** The rounds that wait for a place stand in the line, once each. */
  ghost predicate LineOk(p: Path) {
    && (forall i, j | 0 <= i < j < |p.line| :: p.line[i] != p.line[j])
    && (forall r :: r in p.waiting <==> r in p.line)
    && (forall r | r in p.waiting :: r !in p.assembly)
  }

  /** Places are taken in emission order: the line is the end of what was emitted. */
  ghost predicate LineIsLast(p: Path) {
    |p.line| <= |p.emitted| && p.emitted[|p.emitted| - |p.line|..] == p.line
  }

  /** What left, what is held, what is forming and what has yet to retire is what the stream
      emitted, in its order. */
  ghost predicate InOrder(p: Path, stream: nat) {
    On(p.emitted, stream) == On(p.written, stream) + On(p.held, stream) + On(p.forming, stream) + Expected(p, stream)
  }

  /** A round yet to retire is in assembly, before any of its stream still in the line. */
  ghost predicate SplitOk(p: Path, stream: nat) {
    var expected := Expected(p, stream);
    var line := On(p.line, stream);
    && |line| <= |expected| && expected[|expected| - |line|..] == line
    && Entered(expected, |expected| - |line|, p.assembly)
    && OfStream(expected, stream)
  }

  ghost predicate FormingOk(c: Settings, p: Path) {
    && (c.formationIsFree ==> p.forming == [])
    && (forall i, j | 0 <= i < j < |p.forming| :: p.forming[i] != p.forming[j])
    && (forall r :: r in p.forming <==> r in p.assembly && p.assembly[r].stage.Forming?)
    && (forall r | r in p.assembly && !p.assembly[r].stage.Forming? :: r in Expected(p, r.stream))
  }

  ghost predicate ArrivedOk(c: Settings, p: Path) {
    && (forall r | r in p.waiting :: p.waiting[r] <= c.fragments(r))
    && (forall r | r in p.assembly && p.assembly[r].stage.Collecting? :: p.assembly[r].arrived < c.fragments(r))
  }

  // ------------------------------------------------------------- counting

  function CountOf(list: seq<Round>, r: Round): nat {
    if list == [] then 0 else (if list[0] == r then 1 else 0) + CountOf(list[1..], r)
  }

  /** The flights that carry the round itself, not a copy. */
  function CountOwn(flights: seq<Flight>, r: Round): nat {
    if flights == [] then 0
    else (if flights[0].round == r && !flights[0].isCopy then 1 else 0) + CountOwn(flights[1..], r)
  }

  /** All such flights, to landed stores or to written ones. */
  function CountFlying(flights: seq<Flight>, isLanded: bool): nat {
    if flights == [] then 0
    else (if flights[0].isLanded == isLanded && !flights[0].isCopy then 1 else 0) + CountFlying(flights[1..], isLanded)
  }

  /** How often a round is in assembly, held, on its way, or gone. */
  function Places(p: Path, r: Round): nat {
    (if r in p.assembly then 1 else 0) + CountOf(p.held, r) + CountOwn(p.flights, r) + CountOf(p.left, r)
  }

  /** A round emitted and not in the line is in one place; any other is in none. */
  ghost predicate InOnePlace(p: Path, r: Round) {
    && Places(p, r) + CountOf(p.line, r) == CountOf(p.emitted, r)
    && CountOf(p.emitted, r) <= 1
  }

  /** No copy rides the memory route, so no copy's delivery is counted as its round's. */
  ghost predicate NoMemoryCopies(c: Settings) {
    forall r, i | c.isMemory(r) && 1 <= i < |c.sides(r)| :: c.sides(r)[i]
  }

  ghost predicate FlightsOk(c: Settings, p: Path) {
    forall i | 0 <= i < |p.flights| ::
      && (p.flights[i].leaves ==> !p.flights[i].isCopy)
      && (RidesMemory(c, p.flights[i]) ==> !p.flights[i].isCopy)
  }

  ghost predicate Counted(p: Path) {
    p.inFlight == CountFlying(p.flights, false) && p.crossing == CountFlying(p.flights, true)
  }

  ghost predicate Bounded(c: Settings, p: Path) {
    c.capacity.None? || InFlightCount(p) <= c.capacity.value
  }

  ghost predicate IsSettings(c: Settings) {
    && (forall r :: c.fragments(r) >= 1)
    && (c.hasStores ==> forall r :: c.sides(r) != [])
    && NoMemoryCopies(c)
  }

  ghost predicate StreamsOk(p: Path) {
    forall stream :: InOrder(p, stream) && SplitOk(p, stream)
  }

  ghost predicate Ordered(c: Settings, p: Path) {
    LineOk(p) && LineIsLast(p) && StreamsOk(p) && FormingOk(c, p) && ArrivedOk(c, p)
  }

  ghost predicate Placed(c: Settings, p: Path) {
    && (forall r :: InOnePlace(p, r))
    && FlightsOk(c, p) && Counted(p) && Bounded(c, p)
    && (!c.hasStores ==> p.held == [] && p.flights == [])
  }

  ghost predicate Kept(c: Settings, p: Path) {
    IsSettings(c) && Ordered(c, p) && Placed(c, p)
  }

  /** No place is free beside a round that waits for one. */
  ghost predicate NoneWaitsInVain(c: Settings, p: Path) {
    c.hasStores && p.line != [] ==> !HasRoom(c, p)
  }

  /** No stream's next round is ready and not retired. */
  ghost predicate HeadsOk(p: Path) {
    forall stream :: Expected(p, stream) != [] ==> !IsReady(p, Expected(p, stream)[0])
  }

  // ------------------------------------------------------ counting lemmas

  lemma {:induction false} CountAppend(a: seq<Round>, b: seq<Round>, r: Round)
    ensures CountOf(a + b, r) == CountOf(a, r) + CountOf(b, r)
  {
    if a == [] {
      assert a + b == b;
    } else {
      CountAppend(a[1..], b, r);
      assert (a + b)[1..] == a[1..] + b;
    }
  }

  lemma CountOne(list: seq<Round>, x: Round, r: Round)
    ensures CountOf(list + [x], r) == CountOf(list, r) + if x == r then 1 else 0
  {
    CountAppend(list, [x], r);
    assert [x][1..] == [];
  }

  lemma {:induction false} CountMember(list: seq<Round>, r: Round)
    ensures CountOf(list, r) > 0 <==> r in list
  {
    if list != [] {
      CountMember(list[1..], r);
    }
  }

  lemma {:induction false} FlyingAppend(a: seq<Flight>, b: seq<Flight>, r: Round)
    ensures CountOwn(a + b, r) == CountOwn(a, r) + CountOwn(b, r)
    ensures CountFlying(a + b, true) == CountFlying(a, true) + CountFlying(b, true)
    ensures CountFlying(a + b, false) == CountFlying(a, false) + CountFlying(b, false)
  {
    if a == [] {
      assert a + b == b;
    } else {
      FlyingAppend(a[1..], b, r);
      assert (a + b)[1..] == a[1..] + b;
    }
  }

  /** The copies of a round count nowhere. */
  lemma {:induction false} CopiesCountNowhere(r: Round, sides: seq<bool>, x: Round)
    ensures CountOwn(Flights(r, sides, true), x) == 0
    ensures CountFlying(Flights(r, sides, true), true) == 0 && CountFlying(Flights(r, sides, true), false) == 0
    ensures |Flights(r, sides, true)| == |sides|
    ensures forall i | 0 <= i < |sides| :: Flights(r, sides, true)[i] == Flight(r, true, sides[i], false)
  {
    if sides != [] {
      CopiesCountNowhere(r, sides[1..], x);
    }
  }

  lemma FlightRemoved(flights: seq<Flight>, i: nat, r: Round)
    requires i < |flights|
    ensures var rest := flights[..i] + flights[i + 1..];
      var f := flights[i];
      && CountOwn(flights, r) == CountOwn(rest, r) + (if f.round == r && !f.isCopy then 1 else 0)
      && CountFlying(flights, true) == CountFlying(rest, true) + (if f.isLanded && !f.isCopy then 1 else 0)
      && CountFlying(flights, false) == CountFlying(rest, false) + (if !f.isLanded && !f.isCopy then 1 else 0)
  {
    assert flights == flights[..i] + ([flights[i]] + flights[i + 1..]);
    FlyingAppend(flights[..i], [flights[i]] + flights[i + 1..], r);
    FlyingAppend([flights[i]], flights[i + 1..], r);
    FlyingAppend(flights[..i], flights[i + 1..], r);
    assert [flights[i]][1..] == [];
  }

  // ------------------------------------------------------ taking a place

  function EnterHead(c: Settings, p: Path): Path
    requires p.line != [] && p.line[0] in p.waiting
  {
    Enter(c, p, p.line[0]).(line := p.line[1..])
  }

  lemma OnHead(list: seq<Round>, stream: nat)
    requires list != []
    ensures On(list, stream) == (if list[0].stream == stream then [list[0]] else []) + On(list[1..], stream)
  {
  }

  lemma EnterSplit(c: Settings, p: Path, stream: nat)
    requires p.line != [] && p.line[0] in p.waiting && SplitOk(p, stream)
    ensures SplitOk(EnterHead(c, p), stream)
    ensures p.line[0].stream == stream ==> p.line[0] in Expected(p, stream)
  {
    if p.line[0].stream == stream {
      OwnEnters(c, p, stream);
    } else {
      EnterElsewhere(c, p, stream);
    }
  }

  lemma OwnEnters(c: Settings, p: Path, stream: nat)
    requires p.line != [] && p.line[0] in p.waiting && SplitOk(p, stream) && p.line[0].stream == stream
    ensures SplitOk(EnterHead(c, p), stream) && p.line[0] in Expected(p, stream)
  {
    var q := EnterHead(c, p);
    var expected, line := Expected(p, stream), On(p.line, stream);
    OwnHead(p.line, stream);
    FirstEnters(expected, line, p.assembly, q.assembly);
    assert On(q.line, stream) == line[1..] && Expected(q, stream) == expected;
  }

  lemma OwnHead(line: seq<Round>, stream: nat)
    requires line != [] && line[0].stream == stream
    ensures On(line, stream) != [] && On(line, stream)[0] == line[0] && On(line, stream)[1..] == On(line[1..], stream)
  {
  }

  lemma EnterElsewhere(c: Settings, p: Path, stream: nat)
    requires p.line != [] && p.line[0] in p.waiting && SplitOk(p, stream) && p.line[0].stream != stream
    ensures SplitOk(EnterHead(c, p), stream)
  {
    var q := EnterHead(c, p);
    OnHead(p.line, stream);
    assert Expected(q, stream) == Expected(p, stream) && On(p.line, stream) == On(q.line, stream);
    OtherEnters(Expected(p, stream), On(p.line, stream), p.assembly, q.assembly, p.line[0]);
  }

  ghost predicate OfStream(expected: seq<Round>, stream: nat) {
    && (forall i | 0 <= i < |expected| :: expected[i].stream == stream)
    && (forall i, j | 0 <= i < j < |expected| :: expected[i] != expected[j])
  }

  ghost predicate Entered(expected: seq<Round>, count: nat, assembly: map<Round, Context>)
    requires count <= |expected|
  {
    forall i | 0 <= i < count :: expected[i] in assembly && !assembly[expected[i]].stage.Forming?
  }

  lemma FirstEnters(expected: seq<Round>, line: seq<Round>, was: map<Round, Context>, now: map<Round, Context>)
    requires line != [] && |line| <= |expected| && expected[|expected| - |line|..] == line
    requires Entered(expected, |expected| - |line|, was)
    requires line[0] in now && now == was[line[0] := now[line[0]]] && !now[line[0]].stage.Forming?
    ensures |line[1..]| <= |expected| && expected[|expected| - |line[1..]|..] == line[1..]
    ensures Entered(expected, |expected| - |line[1..]|, now) && line[0] in expected
  {
    SuffixHead(expected, line);
  }

  lemma OtherEnters(
    expected: seq<Round>, line: seq<Round>, was: map<Round, Context>, now: map<Round, Context>, r: Round)
    requires |line| <= |expected| && Entered(expected, |expected| - |line|, was)
    requires r in now && now == was[r := now[r]] && !now[r].stage.Forming?
    ensures Entered(expected, |expected| - |line|, now)
  {
  }

  /** A sequence's end, its first entry taken off. */
  lemma SuffixHead(all: seq<Round>, tail: seq<Round>)
    requires tail != [] && |tail| <= |all| && all[|all| - |tail|..] == tail
    ensures all[|all| - |tail|] == tail[0] && all[|all| - |tail[1..]|..] == tail[1..]
  {
    assert all[|all| - |tail|..][0] == tail[0];
  }

  lemma EnterLine(c: Settings, p: Path)
    requires LineOk(p) && LineIsLast(p) && p.line != []
    ensures LineOk(EnterHead(c, p)) && LineIsLast(EnterHead(c, p))
  {
    EnterLineOk(c, p);
    EnterIsLast(c, p);
  }

  lemma EnterIsLast(c: Settings, p: Path)
    requires LineIsLast(p) && p.line != [] && p.line[0] in p.waiting
    ensures LineIsLast(EnterHead(c, p))
  {
    SuffixHead(p.emitted, p.line);
  }

  lemma EnterLineOk(c: Settings, p: Path)
    requires LineOk(p) && p.line != []
    ensures LineOk(EnterHead(c, p))
  {
    var q := EnterHead(c, p);
    DistinctTail(p.line);
    forall r
      ensures r in q.waiting <==> r in q.line
    {
      assert r in p.waiting <==> r in p.line;
    }
  }

  lemma EnterPlace(c: Settings, p: Path, r: Round)
    requires LineOk(p) && p.line != [] && InOnePlace(p, r)
    ensures InOnePlace(EnterHead(c, p), r)
  {
  }

  lemma EnterStreams(c: Settings, p: Path)
    requires LineOk(p) && StreamsOk(p) && p.line != []
    ensures StreamsOk(EnterHead(c, p)) && p.line[0] in Expected(p, p.line[0].stream)
  {
    var q := EnterHead(c, p);
    assert p.line[0] in p.waiting;
    forall stream: nat
      ensures InOrder(q, stream) && SplitOk(q, stream)
      ensures p.line[0].stream == stream ==> p.line[0] in Expected(p, stream)
    {
      assert InOrder(p, stream) && SplitOk(p, stream);
      EnterSplit(c, p, stream);
    }
  }

  lemma EnterOrdered(c: Settings, p: Path)
    requires IsSettings(c) && Ordered(c, p) && p.line != []
    ensures Ordered(c, EnterHead(c, p))
  {
    EnterLine(c, p);
    EnterStreams(c, p);
    EnterForming(c, p);
    EnterArrived(c, p);
  }

  lemma EnterArrived(c: Settings, p: Path)
    requires LineOk(p) && ArrivedOk(c, p) && p.line != []
    ensures ArrivedOk(c, EnterHead(c, p))
  {
    assert p.line[0] in p.waiting;
  }

  lemma EnterForming(c: Settings, p: Path)
    requires FormingOk(c, p) && LineOk(p) && p.line != [] && p.line[0] in Expected(p, p.line[0].stream)
    ensures FormingOk(c, EnterHead(c, p))
  {
    assert p.line[0] in p.waiting;
  }

  lemma EnterPlaced(c: Settings, p: Path)
    requires LineOk(p) && Placed(c, p) && p.line != [] && HasRoom(c, p)
    ensures Placed(c, EnterHead(c, p))
  {
    var q := EnterHead(c, p);
    assert |q.assembly| == |p.assembly| + 1;
    forall r
      ensures InOnePlace(q, r)
    {
      assert InOnePlace(p, r);
      EnterPlace(c, p, r);
    }
  }

  /** The line's head takes a free place. */
  lemma EnterKept(c: Settings, p: Path)
    requires Kept(c, p) && p.line != [] && HasRoom(c, p)
    ensures Kept(c, EnterHead(c, p))
  {
    EnterOrdered(c, p);
    EnterPlaced(c, p);
  }

  lemma {:induction false} RetryKept(c: Settings, p: Path)
    requires Kept(c, p)
    ensures Kept(c, RetryLine(c, p)) && (RetryLine(c, p).line == [] || !HasRoom(c, RetryLine(c, p)))
    ensures RetryLine(c, p).expected == p.expected
    ensures forall r | IsReady(RetryLine(c, p), r) :: IsReady(p, r)
    decreases |p.line|
  {
    if p.line != [] && HasRoom(c, p) {
      EnterKept(c, p);
      RetryKept(c, EnterHead(c, p));
    }
  }

  // -------------------------------------------------------------- emission

  /** The emitted round joins the end of the line. */
  function Joined(p: Path, r: Round): Path {
    p.(
      expected := p.expected[r.stream := Expected(p, r.stream) + [r]],
      waiting := p.waiting[r := 0],
      emitted := p.emitted + [r],
      line := p.line + [r])
  }

  lemma FreshRound(c: Settings, p: Path, r: Round)
    requires Kept(c, p) && r !in p.emitted
    ensures r !in p.line && r !in p.waiting && r !in p.assembly && r !in Expected(p, r.stream)
  {
    CountMember(p.emitted, r);
    CountMember(p.line, r);
    assert InOnePlace(p, r);
    var stream := r.stream;
    assert InOrder(p, stream) && SplitOk(p, stream);
    OnMembers(p.emitted, stream);
    assert forall x | x in Expected(p, stream) :: x in On(p.emitted, stream);
  }

  lemma JoinedSplit(p: Path, r: Round, stream: nat)
    requires SplitOk(p, stream) && r !in Expected(p, r.stream)
    ensures SplitOk(Joined(p, r), stream)
  {
    OnOne(p.line, r, stream);
    if r.stream == stream {
      JoinedOwn(p, r);
    } else {
      JoinedElsewhere(p, r, stream);
    }
  }

  lemma JoinedOwn(p: Path, r: Round)
    requires SplitOk(p, r.stream) && r !in Expected(p, r.stream)
    requires On(p.line + [r], r.stream) == On(p.line, r.stream) + [r]
    ensures SplitOk(Joined(p, r), r.stream)
  {
    assert Expected(Joined(p, r), r.stream) == Expected(p, r.stream) + [r];
    SplitGrows(Expected(p, r.stream), On(p.line, r.stream), p.assembly, r, r.stream);
  }

  lemma JoinedElsewhere(p: Path, r: Round, stream: nat)
    requires SplitOk(p, stream) && r.stream != stream && On(p.line + [r], stream) == On(p.line, stream) + []
    ensures SplitOk(Joined(p, r), stream)
  {
    assert Expected(Joined(p, r), stream) == Expected(p, stream);
    assert On(p.line, stream) + [] == On(p.line, stream);
  }

  lemma SplitGrows(expected: seq<Round>, line: seq<Round>, assembly: map<Round, Context>, r: Round, stream: nat)
    requires |line| <= |expected| && expected[|expected| - |line|..] == line
    requires Entered(expected, |expected| - |line|, assembly) && OfStream(expected, stream)
    requires r.stream == stream && r !in expected
    ensures (expected + [r])[|expected| - |line|..] == line + [r]
    ensures Entered(expected + [r], |expected| - |line|, assembly) && OfStream(expected + [r], stream)
  {
  }

  lemma JoinedInOrder(p: Path, r: Round, stream: nat)
    requires InOrder(p, stream)
    ensures InOrder(Joined(p, r), stream)
  {
    OnOne(p.emitted, r, stream);
    var before := On(p.written, stream) + On(p.held, stream) + On(p.forming, stream);
    if r.stream == stream {
      assert before + Expected(p, stream) + [r] == before + (Expected(p, stream) + [r]);
    }
  }

  lemma JoinedLine(c: Settings, p: Path, r: Round)
    requires LineOk(p) && LineIsLast(p) && r !in p.line && r !in p.assembly
    ensures LineOk(Joined(p, r)) && LineIsLast(Joined(p, r))
  {
    var q := Joined(p, r);
    DistinctGrows(p.line, r);
    assert q.emitted[|q.emitted| - |q.line|..] == p.emitted[|p.emitted| - |p.line|..] + [r];
  }

  lemma JoinedForming(c: Settings, p: Path, r: Round)
    requires FormingOk(c, p)
    ensures FormingOk(c, Joined(p, r))
  {
    var q := Joined(p, r);
    forall x | x in q.assembly && !q.assembly[x].stage.Forming?
      ensures x in Expected(q, x.stream)
    {
      assert x in Expected(p, x.stream);
    }
  }

  lemma JoinedOrdered(c: Settings, p: Path, r: Round)
    requires IsSettings(c) && Ordered(c, p) && r !in p.line && r !in p.assembly && r !in Expected(p, r.stream)
    ensures Ordered(c, Joined(p, r))
  {
    JoinedLine(c, p, r);
    JoinedForming(c, p, r);
    forall stream: nat
      ensures InOrder(Joined(p, r), stream) && SplitOk(Joined(p, r), stream)
    {
      assert InOrder(p, stream) && SplitOk(p, stream);
      JoinedSplit(p, r, stream);
      JoinedInOrder(p, r, stream);
    }
  }

  lemma JoinedKept(c: Settings, p: Path, r: Round)
    requires Kept(c, p) && r !in p.emitted
    ensures Kept(c, Joined(p, r)) && r !in p.waiting && r !in p.assembly
  {
    var q := Joined(p, r);
    FreshRound(c, p, r);
    JoinedOrdered(c, p, r);
    forall x
      ensures InOnePlace(q, x)
    {
      assert InOnePlace(p, x);
      CountOne(p.line, r, x);
      CountOne(p.emitted, r, x);
      CountMember(p.emitted, r);
    }
  }

  lemma EmitIsJoin(c: Settings, p: Path, r: Round)
    requires r !in p.waiting && r !in p.assembly
    ensures Emit(c, p, r) == if p.line == [] && HasRoom(c, p) then EnterHead(c, Joined(p, r)) else Joined(p, r)
  {
    assert p.line == [] ==> Joined(p, r).line == [r] && [r][1..] == [];
  }

  lemma EmitKept(c: Settings, p: Path, r: Round)
    requires Kept(c, p) && r !in p.emitted
    ensures Kept(c, Emit(c, p, r))
  {
    JoinedKept(c, p, r);
    EmitIsJoin(c, p, r);
    if p.line == [] && HasRoom(c, p) {
      RoomStays(c, p, r);
      EnterKept(c, Joined(p, r));
    }
  }

  lemma RoomStays(c: Settings, p: Path, r: Round)
    ensures HasRoom(c, Joined(p, r)) == HasRoom(c, p) && Joined(p, r).line != []
  {
  }

  /** A round joins the line only when no place is free. */
  lemma EmitNoneInVain(c: Settings, p: Path, r: Round)
    requires NoneWaitsInVain(c, p) && r !in p.waiting && r !in p.assembly
    ensures NoneWaitsInVain(c, Emit(c, p, r))
  {
    EmitIsJoin(c, p, r);
    assert InFlightCount(Joined(p, r)) == InFlightCount(p);
  }

  lemma JoinedHeads(c: Settings, p: Path, r: Round)
    requires HeadsOk(p) && r !in p.waiting && r !in p.assembly
    ensures HeadsOk(Emit(c, p, r))
  {
    EmitIsJoin(c, p, r);
    var q := Joined(p, r);
    var e := Emit(c, p, r);
    assert !IsReady(e, r) && forall x | x != r :: IsReady(e, x) <==> IsReady(p, x);
    forall stream: nat | Expected(e, stream) != []
      ensures !IsReady(e, Expected(e, stream)[0])
    {
      assert Expected(e, stream) == Expected(q, stream);
      assert Expected(p, stream) != [] ==>
        !IsReady(p, Expected(p, stream)[0]) && Expected(q, stream)[0] == Expected(p, stream)[0];
    }
  }
}
