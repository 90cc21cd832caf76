/** The steps of the readout path that move a round out of assembly, into the stores' line
    and onto its route.
 */
module ReadoutSteps {
  import opened Lists
  import opened Readout
  import opened ReadoutInvariant

  // ------------------------------------------------- a round on its way out

  function If(b: bool, r: Round): seq<Round> {
    if b then [r] else []
  }

  /** The stream's order with the round between those forming and those held. */
  ghost predicate InOrderAround(p: Path, stream: nat, r: Round) {
    On(p.emitted, stream) ==
      On(p.written, stream) + On(p.held, stream) + If(r.stream == stream, r) + On(p.forming, stream) +
        Expected(p, stream)
  }

  ghost predicate StreamsAround(p: Path, r: Round) {
    forall stream :: InOrderAround(p, stream, r) && SplitOk(p, stream) && r !in Expected(p, stream)
  }

  ghost predicate FormingAround(c: Settings, p: Path, r: Round) {
    && (c.formationIsFree ==> p.forming == [])
    && (forall i, j | 0 <= i < j < |p.forming| :: p.forming[i] != p.forming[j])
    && r !in p.forming
    && (forall x | x != r :: x in p.forming <==> x in p.assembly && p.assembly[x].stage.Forming?)
    && (forall x | x in p.assembly && x != r && !p.assembly[x].stage.Forming? :: x in Expected(p, x.stream))
  }

  /** In order but for one round of assembly that neither waits to retire nor forms. */
  ghost predicate Leaving(c: Settings, p: Path, r: Round) {
    && IsSettings(c) && r in p.assembly
    && LineOk(p) && LineIsLast(p) && StreamsAround(p, r) && FormingAround(c, p, r) && ArrivedOk(c, p)
    && Placed(c, p)
  }

  /** Admission puts the round behind everything written or held. */
  lemma AdmitAppends(c: Settings, p: Path, r: Round, room: Round -> bool, stream: nat)
    ensures var q := Admit(c, p, r, room);
      On(q.written, stream) + On(q.held, stream) ==
        On(p.written, stream) + On(p.held, stream) + If(r.stream == stream, r)
  {
    OnOne(p.held, r, stream);
    OnOne(p.written, r, stream);
    var written, held, one := On(p.written, stream), On(p.held, stream), If(r.stream == stream, r);
    assert written + (held + one) == written + held + one;
    if p.held == [] {
      assert held == [] && (written + one) + [] == written + [] + one;
    }
  }

  lemma HandedStream(c: Settings, p: Path, r: Round, room: Round -> bool, stream: nat)
    requires r in p.assembly && InOrderAround(p, stream, r)
    ensures InOrder(HandOn(c, p, r, room), stream)
  {
    var bare := p.(assembly := p.assembly - {r});
    var q := Admit(c, bare, r, room);
    AdmitAppends(c, bare, r, room, stream);
    assert Expected(q, stream) == Expected(p, stream);
  }

  lemma HandedSplit(c: Settings, p: Path, r: Round, room: Round -> bool, stream: nat)
    requires r in p.assembly && SplitOk(p, stream) && r !in Expected(p, stream)
    ensures SplitOk(HandOn(c, p, r, room), stream)
  {
    var q := HandOn(c, p, r, room);
    var expected := Expected(p, stream);
    assert Expected(q, stream) == expected && On(q.line, stream) == On(p.line, stream);
    assert forall i | 0 <= i < |expected| :: expected[i] in expected && expected[i] != r;
  }

  lemma HandedOrdered(c: Settings, p: Path, r: Round, room: Round -> bool)
    requires Leaving(c, p, r)
    ensures Ordered(c, HandOn(c, p, r, room))
  {
    forall stream: nat
      ensures InOrder(HandOn(c, p, r, room), stream) && SplitOk(HandOn(c, p, r, room), stream)
    {
      assert InOrderAround(p, stream, r) && SplitOk(p, stream);
      HandedStream(c, p, r, room, stream);
      HandedSplit(c, p, r, room, stream);
    }
    HandedForming(c, p, r, room);
    HandedLine(c, p, r, room);
  }

  lemma HandedForming(c: Settings, p: Path, r: Round, room: Round -> bool)
    requires FormingAround(c, p, r)
    ensures FormingOk(c, HandOn(c, p, r, room))
  {
    var q := HandOn(c, p, r, room);
    assert q.assembly == p.assembly - {r} && q.forming == p.forming && q.expected == p.expected;
    forall x
      ensures x in q.forming <==> x in q.assembly && q.assembly[x].stage.Forming?
    {
      assert x != r ==> (x in q.assembly <==> x in p.assembly);
    }
    forall x | x in q.assembly && !q.assembly[x].stage.Forming?
      ensures x in Expected(q, x.stream)
    {
      assert x in Expected(p, x.stream);
    }
  }

  lemma HandedLine(c: Settings, p: Path, r: Round, room: Round -> bool)
    requires LineOk(p) && ArrivedOk(c, p) && LineIsLast(p)
    ensures var q := HandOn(c, p, r, room);
      LineOk(q) && ArrivedOk(c, q) && LineIsLast(q)
  {
    var q := HandOn(c, p, r, room);
    assert q.assembly == p.assembly - {r} && q.waiting == p.waiting && q.line == p.line && q.emitted == p.emitted;
  }

  /** The round's own flight is counted once, for the kind of its own store. */
  lemma SentFlights(c: Settings, p: Path, r: Round, x: Round)
    requires c.sides(r) != []
    ensures CountOwn(Send(c, p, r).flights, x) == CountOwn(p.flights, x) + if x == r then 1 else 0
    ensures CountFlying(Send(c, p, r).flights, true) == CountFlying(p.flights, true) + if c.sides(r)[0] then 1 else 0
    ensures CountFlying(Send(c, p, r).flights, false) == CountFlying(p.flights, false) + if c.sides(r)[0] then 0 else 1
  {
    var sides := c.sides(r);
    FlyingAppend(p.flights, Flights(r, sides, false), x);
    CopiesCountNowhere(r, sides[1..], x);
  }

  lemma SentFlightsOk(c: Settings, p: Path, r: Round)
    requires IsSettings(c) && c.sides(r) != [] && FlightsOk(c, p)
    ensures FlightsOk(c, Send(c, p, r))
  {
    var sides := c.sides(r);
    var sent := Flights(r, sides, false);
    CopiesCountNowhere(r, sides[1..], r);
    forall i | 0 <= i < |sent|
      ensures !sent[i].leaves && (RidesMemory(c, sent[i]) ==> !sent[i].isCopy)
    {
      assert i >= 1 ==> sent[i] == Flight(r, true, sides[1..][i - 1], false) && sides[1..][i - 1] == sides[i];
    }
  }

  lemma HandedPlaces(c: Settings, p: Path, r: Round, room: Round -> bool, x: Round)
    requires IsSettings(c) && r in p.assembly && InOnePlace(p, x)
    ensures InOnePlace(HandOn(c, p, r, room), x)
  {
    CountOne(p.held, r, x);
    CountOne(p.left, r, x);
    if p.held == [] && c.hasStores && room(r) {
      SentFlights(c, p, r, x);
    }
  }

  lemma HandedPlaced(c: Settings, p: Path, r: Round, room: Round -> bool)
    requires IsSettings(c) && r in p.assembly && Placed(c, p)
    ensures Placed(c, HandOn(c, p, r, room))
    ensures c.hasStores ==> InFlightCount(HandOn(c, p, r, room)) == InFlightCount(p)
  {
    var q := HandOn(c, p, r, room);
    forall x
      ensures InOnePlace(q, x)
    {
      assert InOnePlace(p, x);
      HandedPlaces(c, p, r, room, x);
    }
    assert |p.assembly - {r}| == |p.assembly| - 1;
    if p.held == [] && c.hasStores && room(r) {
      SentFlights(c, p, r, r);
      SentFlightsOk(c, p, r);
    }
  }

  lemma HandedKept(c: Settings, p: Path, r: Round, room: Round -> bool)
    requires Leaving(c, p, r)
    ensures Kept(c, HandOn(c, p, r, room))
  {
    HandedOrdered(c, p, r, room);
    HandedPlaced(c, p, r, room);
  }

  // ----------------------------------------------------------- retirement

  /** The stream's first expected round taken off its order. */
  function Retired(p: Path, stream: nat): Path
    requires Expected(p, stream) != []
  {
    p.(expected := p.expected[stream := Expected(p, stream)[1..]])
  }

  /** The stream's order with its first expected round apart. */
  ghost predicate InOrderHead(p: Path, stream: nat, r: Round, rest: seq<Round>) {
    On(p.emitted, stream) == On(p.written, stream) + On(p.held, stream) + On(p.forming, stream) + ([r] + rest)
  }

  /** A round in assembly and next to retire has no round of its stream before it in the line. */
  lemma HeadIsEntered(p: Path, stream: nat)
    requires LineOk(p) && Expected(p, stream) != [] && Expected(p, stream)[0] in p.assembly && SplitOk(p, stream)
    ensures |On(p.line, stream)| < |Expected(p, stream)|
  {
    var expected, line := Expected(p, stream), On(p.line, stream);
    OnMembers(p.line, stream);
    assert |line| > 0 ==> line[0] in line && line[0] in p.waiting;
  }

  lemma RetiredHere(p: Path, stream: nat)
    requires LineOk(p) && Expected(p, stream) != [] && Expected(p, stream)[0] in p.assembly
    requires SplitOk(p, stream) && InOrder(p, stream)
    ensures SplitOk(Retired(p, stream), stream) && Expected(p, stream)[0] !in Expected(p, stream)[1..]
    ensures InOrderHead(p, stream, Expected(p, stream)[0], Expected(p, stream)[1..])
  {
    HeadIsEntered(p, stream);
    var expected, line := Expected(p, stream), On(p.line, stream);
    assert expected == [expected[0]] + expected[1..];
    assert expected[1..][|expected| - 1 - |line|..] == line;
  }

  lemma RetiredSplit(p: Path, head: nat, stream: nat)
    requires LineOk(p) && Expected(p, head) != [] && Expected(p, head)[0] in p.assembly
    requires SplitOk(p, head) && SplitOk(p, stream) && InOrder(p, stream)
    ensures SplitOk(Retired(p, head), stream) && Expected(p, head)[0] !in Expected(Retired(p, head), stream)
    ensures stream == head ==> InOrderHead(p, stream, Expected(p, head)[0], Expected(Retired(p, head), stream))
  {
    if stream == head {
      RetiredHere(p, stream);
    } else {
      assert Expected(Retired(p, head), stream) == Expected(p, stream);
      assert forall r | r in Expected(p, stream) :: r.stream == stream;
      assert Expected(p, head)[0].stream == head;
    }
  }

  lemma RetiredAround(c: Settings, p: Path, head: nat, stream: nat)
    requires LineOk(p) && Expected(p, head) != [] && Expected(p, head)[0] in p.assembly && p.forming == []
    requires SplitOk(p, head) && SplitOk(p, stream) && InOrder(p, stream)
    ensures InOrderAround(Retired(p, head), stream, Expected(p, head)[0])
  {
    var r := Expected(p, head)[0];
    RetiredSplit(p, head, stream);
    var before := On(p.written, stream) + On(p.held, stream);
    var rest := Expected(Retired(p, head), stream);
    if stream == head {
      assert before + [] + ([r] + rest) == before + [r] + [] + rest;
    } else {
      assert before + [] + rest == before + [] + [] + rest;
    }
  }

  lemma RetiredLeaves(c: Settings, p: Path, stream: nat)
    requires Kept(c, p) && Expected(p, stream) != [] && IsReady(p, Expected(p, stream)[0]) && c.formationIsFree
    ensures Leaving(c, Retired(p, stream), Expected(p, stream)[0])
  {
    var q := Retired(p, stream);
    var r := Expected(p, stream)[0];
    assert SplitOk(p, stream);
    forall s: nat
      ensures InOrderAround(q, s, r) && SplitOk(q, s) && r !in Expected(q, s)
    {
      assert SplitOk(p, s) && InOrder(p, s);
      RetiredSplit(p, stream, s);
      RetiredAround(c, p, stream, s);
    }
    RetiredForming(c, p, stream);
    SamePlaced(c, p, q);
  }

  lemma SamePlaced(c: Settings, p: Path, q: Path)
    requires Placed(c, p) && q.assembly.Keys == p.assembly.Keys && q.held == p.held && q.flights == p.flights
    requires q.left == p.left && q.line == p.line && q.emitted == p.emitted
    requires q.inFlight == p.inFlight && q.crossing == p.crossing
    ensures Placed(c, q) && InFlightCount(q) == InFlightCount(p)
  {
    assert |q.assembly| == |q.assembly.Keys| && |p.assembly| == |p.assembly.Keys|;
    forall r
      ensures InOnePlace(q, r)
    {
      assert InOnePlace(p, r);
    }
  }

  lemma RetiredForming(c: Settings, p: Path, stream: nat)
    requires FormingOk(c, p) && Expected(p, stream) != [] && IsReady(p, Expected(p, stream)[0])
    requires forall s :: SplitOk(p, s)
    ensures FormingAround(c, Retired(p, stream), Expected(p, stream)[0])
  {
    var q := Retired(p, stream);
    var r := Expected(p, stream)[0];
    forall x | x in q.assembly && x != r && !q.assembly[x].stage.Forming?
      ensures x in Expected(q, x.stream)
    {
      assert x in Expected(p, x.stream);
    }
  }

  lemma RetiredFormsPlaced(c: Settings, p: Path, stream: nat, room: Round -> bool)
    requires Placed(c, p) && Expected(p, stream) != [] && IsReady(p, Expected(p, stream)[0])
    requires !c.formationIsFree && Expected(p, stream)[0].stream == stream
    ensures Placed(c, Retire(c, p, Expected(p, stream)[0], room))
  {
    var q := Retire(c, p, Expected(p, stream)[0], room);
    assert q.assembly.Keys == p.assembly.Keys;
    SamePlaced(c, p, q);
  }

  lemma RetiredFormsLine(c: Settings, p: Path, stream: nat, room: Round -> bool)
    requires LineOk(p) && LineIsLast(p) && ArrivedOk(c, p)
    requires Expected(p, stream) != [] && IsReady(p, Expected(p, stream)[0])
    requires !c.formationIsFree && Expected(p, stream)[0].stream == stream
    ensures var q := Retire(c, p, Expected(p, stream)[0], room);
      LineOk(q) && LineIsLast(q) && ArrivedOk(c, q)
  {
  }

  /** The retired round's formation takes time: it joins those forming. */
  lemma RetiredForms(c: Settings, p: Path, stream: nat, room: Round -> bool)
    requires Kept(c, p) && Expected(p, stream) != [] && IsReady(p, Expected(p, stream)[0])
    requires !c.formationIsFree && Expected(p, stream)[0].stream == stream
    ensures Kept(c, Retire(c, p, Expected(p, stream)[0], room))
  {
    var q := Retire(c, p, Expected(p, stream)[0], room);
    RetiredFormsStreams(c, p, stream, room);
    RetiredForming(c, p, stream);
    FormingGrows(c, p, stream, room);
    RetiredFormsPlaced(c, p, stream, room);
    RetiredFormsLine(c, p, stream, room);
  }

  lemma RetiredFormsStreams(c: Settings, p: Path, stream: nat, room: Round -> bool)
    requires StreamsOk(p) && LineOk(p) && Expected(p, stream) != [] && IsReady(p, Expected(p, stream)[0])
    requires !c.formationIsFree && Expected(p, stream)[0].stream == stream
    ensures StreamsOk(Retire(c, p, Expected(p, stream)[0], room))
  {
    assert SplitOk(p, stream);
    forall s: nat
      ensures InOrder(Retire(c, p, Expected(p, stream)[0], room), s)
      ensures SplitOk(Retire(c, p, Expected(p, stream)[0], room), s)
    {
      assert SplitOk(p, s) && InOrder(p, s);
      RetiredSplit(p, stream, s);
      FormingStream(c, p, stream, room, s);
    }
  }

  lemma FormingStream(c: Settings, p: Path, head: nat, room: Round -> bool, stream: nat)
    requires Expected(p, head) != [] && Expected(p, head)[0] in p.assembly && Expected(p, head)[0].stream == head
    requires !c.formationIsFree
    requires InOrder(p, stream) && SplitOk(Retired(p, head), stream)
    requires Expected(p, head)[0] !in Expected(Retired(p, head), stream)
    requires stream == head ==> InOrderHead(p, stream, Expected(p, head)[0], Expected(Retired(p, head), stream))
    ensures InOrder(Retire(c, p, Expected(p, head)[0], room), stream)
    ensures SplitOk(Retire(c, p, Expected(p, head)[0], room), stream)
  {
    var r := Expected(p, head)[0];
    var q := Retire(c, p, r, room);
    var expected := Expected(q, stream);
    assert expected == Expected(Retired(p, head), stream);
    assert forall i | 0 <= i < |expected| :: expected[i] in expected;
    FormingOrder(p, q, r, stream);
  }

  lemma FormingOrder(p: Path, q: Path, r: Round, stream: nat)
    requires q.forming == p.forming + [r] && q.emitted == p.emitted && q.written == p.written && q.held == p.held
    requires if r.stream == stream then InOrderHead(p, stream, r, Expected(q, stream))
             else InOrder(p, stream) && Expected(q, stream) == Expected(p, stream)
    ensures InOrder(q, stream)
  {
    OnOne(p.forming, r, stream);
    var before := On(p.written, stream) + On(p.held, stream);
    var forming, rest := On(p.forming, stream), Expected(q, stream);
    assert before + forming + ([r] + rest) == before + (forming + [r]) + rest;
  }

  lemma FormingGrows(c: Settings, p: Path, stream: nat, room: Round -> bool)
    requires Expected(p, stream) != [] && IsReady(p, Expected(p, stream)[0]) && Expected(p, stream)[0].stream == stream
    requires !c.formationIsFree && FormingAround(c, Retired(p, stream), Expected(p, stream)[0])
    ensures FormingOk(c, Retire(c, p, Expected(p, stream)[0], room))
  {
    var r := Expected(p, stream)[0];
    var q := Retire(c, p, r, room);
    DistinctGrows(p.forming, r);
    assert q.forming == p.forming + [r];
    assert q.expected == Retired(p, stream).expected;
  }

  lemma RetireKept(c: Settings, p: Path, stream: nat, room: Round -> bool)
    requires Kept(c, p) && Expected(p, stream) != [] && IsReady(p, Expected(p, stream)[0])
    requires Expected(p, stream)[0].stream == stream
    ensures Kept(c, Retire(c, p, Expected(p, stream)[0], room))
  {
    if c.formationIsFree {
      RetiredLeaves(c, p, stream);
      HandedKept(c, Retired(p, stream), Expected(p, stream)[0], room);
    } else {
      RetiredForms(c, p, stream, room);
    }
  }

  /** What retirement leaves of the rest. */
  lemma RetireFrame(c: Settings, p: Path, r: Round, room: Round -> bool)
    requires Placed(c, p) && IsSettings(c)
    requires r in p.assembly && Expected(p, r.stream) != []
    ensures var q := Retire(c, p, r, room);
      && q.line == p.line && q.waiting == p.waiting && q.emitted == p.emitted
      && Expected(q, r.stream) == Expected(p, r.stream)[1..]
      && (forall s | s != r.stream :: Expected(q, s) == Expected(p, s))
      && (forall x | x != r :: IsReady(q, x) <==> IsReady(p, x))
      && (c.hasStores ==> InFlightCount(q) == InFlightCount(p))
  {
    if c.formationIsFree {
      var q := p.(expected := p.expected[r.stream := Expected(p, r.stream)[1..]]);
      SamePlaced(c, p, q);
      HandedPlaced(c, q, r, room);
    }
  }

  /** The stream's ready rounds retire in turn; other streams and the line are not touched. */
  lemma {:induction false} ReleaseKept(c: Settings, p: Path, stream: nat, room: Round -> bool)
    requires Kept(c, p) && forall s | s != stream :: Expected(p, s) != [] ==> !IsReady(p, Expected(p, s)[0])
    ensures Kept(c, Release(c, p, stream, room)) && HeadsOk(Release(c, p, stream, room))
    ensures Release(c, p, stream, room).line == p.line && Release(c, p, stream, room).emitted == p.emitted
    ensures c.hasStores ==> InFlightCount(Release(c, p, stream, room)) == InFlightCount(p)
    decreases |Expected(p, stream)|
  {
    var expected := Expected(p, stream);
    assert SplitOk(p, stream);
    if expected != [] && IsReady(p, expected[0]) {
      var r := expected[0];
      RetireKept(c, p, stream, room);
      RetireFrame(c, p, r, room);
      var q := Retire(c, p, r, room);
      forall s | s != stream && Expected(q, s) != []
        ensures !IsReady(q, Expected(q, s)[0])
      {
        assert SplitOk(p, s);
      }
      ReleaseKept(c, q, stream, room);
    }
  }

  // ------------------------------------------------ packing and formation

  predicate Forms(p: Path, r: Round) {
    r in p.assembly && p.assembly[r].stage.Forming?
  }

  /** A step that moves no round and changes no order. */
  ghost predicate SameOrders(p: Path, q: Path) {
    && q.expected == p.expected && q.line == p.line && q.emitted == p.emitted && q.written == p.written
    && q.held == p.held && q.forming == p.forming && q.waiting.Keys == p.waiting.Keys
    && q.assembly.Keys == p.assembly.Keys && (forall r :: Forms(q, r) <==> Forms(p, r))
  }

  lemma SameStreams(p: Path, q: Path)
    requires StreamsOk(p) && SameOrders(p, q)
    ensures StreamsOk(q)
  {
    forall s: nat
      ensures InOrder(q, s) && SplitOk(q, s)
    {
      assert InOrder(p, s) && SplitOk(p, s) && Expected(q, s) == Expected(p, s);
      var expected := Expected(p, s);
      forall i | 0 <= i < |expected| - |On(p.line, s)|
        ensures expected[i] in q.assembly && !q.assembly[expected[i]].stage.Forming?
      {
        assert expected[i] in p.assembly && !Forms(p, expected[i]) && !Forms(q, expected[i]);
      }
    }
  }

  lemma SameOrdered(c: Settings, p: Path, q: Path)
    requires Ordered(c, p) && SameOrders(p, q) && ArrivedOk(c, q)
    ensures Ordered(c, q)
  {
    SameStreams(p, q);
    forall x
      ensures x in q.forming <==> x in q.assembly && q.assembly[x].stage.Forming?
    {
      assert Forms(q, x) <==> Forms(p, x);
    }
    forall x | x in q.assembly && !q.assembly[x].stage.Forming?
      ensures x in Expected(q, x.stream)
    {
      assert !Forms(q, x) && !Forms(p, x) && x in p.assembly;
    }
  }

  lemma SameHeads(p: Path, q: Path)
    requires HeadsOk(p) && q.expected == p.expected && forall x :: IsReady(q, x) ==> IsReady(p, x)
    ensures HeadsOk(q)
  {
    forall s: nat | Expected(q, s) != []
      ensures !IsReady(q, Expected(q, s)[0])
    {
      assert Expected(q, s) == Expected(p, s);
    }
  }

  /** A round of assembly that is not forming moves to another stage that is not forming. */
  lemma StageKept(c: Settings, p: Path, r: Round, context: Context)
    requires Kept(c, p) && r in p.assembly && !p.assembly[r].stage.Forming? && !context.stage.Forming?
    requires context.stage.Collecting? ==> context.arrived < c.fragments(r)
    ensures Kept(c, p.(assembly := p.assembly[r := context]))
  {
    var q := p.(assembly := p.assembly[r := context]);
    assert q.assembly.Keys == p.assembly.Keys;
    assert forall x :: Forms(q, x) <==> Forms(p, x);
    SameOrdered(c, p, q);
    SamePlaced(c, p, q);
  }

  lemma FinishPackingKept(c: Settings, p: Path, r: Round, room: Round -> bool)
    requires Kept(c, p) && HeadsOk(p) && r in p.assembly && !p.assembly[r].stage.Forming?
    ensures Kept(c, FinishPacking(c, p, r, room)) && HeadsOk(FinishPacking(c, p, r, room))
    ensures FinishPacking(c, p, r, room).line == p.line && FinishPacking(c, p, r, room).emitted == p.emitted
    ensures c.hasStores ==> InFlightCount(FinishPacking(c, p, r, room)) == InFlightCount(p)
  {
    var ready := WithStage(p, r, Ready);
    StageKept(c, p, r, p.assembly[r].(stage := Ready));
    assert ready.assembly.Keys == p.assembly.Keys;
    SamePlaced(c, p, ready);
    forall s: nat | s != r.stream && Expected(ready, s) != []
      ensures !IsReady(ready, Expected(ready, s)[0])
    {
      assert Expected(ready, s) == Expected(p, s) && SplitOk(p, s);
    }
    ReleaseKept(c, ready, r.stream, room);
  }

  lemma PackKept(c: Settings, p: Path, r: Round, room: Round -> bool)
    requires Kept(c, p) && HeadsOk(p) && r in p.assembly && !p.assembly[r].stage.Forming?
    ensures Kept(c, Pack(c, p, r, room)) && HeadsOk(Pack(c, p, r, room))
    ensures Pack(c, p, r, room).line == p.line && Pack(c, p, r, room).emitted == p.emitted
    ensures c.hasStores ==> InFlightCount(Pack(c, p, r, room)) == InFlightCount(p)
  {
    if c.packingIsFree {
      FinishPackingKept(c, p, r, room);
    } else {
      StageKept(c, p, r, p.assembly[r].(stage := Packing));
      StageHeads(c, p, r, p.assembly[r].(stage := Packing));
    }
  }

  lemma StageHeads(c: Settings, p: Path, r: Round, context: Context)
    requires Placed(c, p) && HeadsOk(p) && r in p.assembly && !context.stage.Ready?
    ensures HeadsOk(p.(assembly := p.assembly[r := context]))
    ensures InFlightCount(p.(assembly := p.assembly[r := context])) == InFlightCount(p)
  {
    var q := p.(assembly := p.assembly[r := context]);
    assert q.assembly.Keys == p.assembly.Keys;
    SamePlaced(c, p, q);
    forall s: nat | Expected(q, s) != []
      ensures !IsReady(q, Expected(q, s)[0])
    {
      assert Expected(q, s) == Expected(p, s);
    }
  }

  /** A fragment for a round that still collects: in the line, or in assembly. */
  ghost predicate MayArrive(c: Settings, p: Path, r: Round) {
    || (r in p.waiting && p.waiting[r] < c.fragments(r))
    || (r in p.assembly && p.assembly[r].stage.Collecting?)
  }

  lemma AddKept(c: Settings, p: Path, r: Round, room: Round -> bool)
    requires Kept(c, p) && HeadsOk(p) && MayArrive(c, p, r)
    ensures Kept(c, Add(c, p, r, room)) && HeadsOk(Add(c, p, r, room))
    ensures Add(c, p, r, room).line == p.line && Add(c, p, r, room).emitted == p.emitted
    ensures c.hasStores ==> InFlightCount(Add(c, p, r, room)) == InFlightCount(p)
  {
    if r in p.assembly && p.assembly[r].arrived + 1 == c.fragments(r) {
      LastFragment(c, p, r, room);
    } else {
      EarlyFragment(c, p, r, room);
    }
  }

  lemma EarlyFragment(c: Settings, p: Path, r: Round, room: Round -> bool)
    requires Kept(c, p) && HeadsOk(p) && MayArrive(c, p, r)
    requires r in p.assembly ==> p.assembly[r].arrived + 1 != c.fragments(r)
    ensures Kept(c, Add(c, p, r, room)) && HeadsOk(Add(c, p, r, room))
    ensures Add(c, p, r, room).line == p.line && Add(c, p, r, room).emitted == p.emitted
    ensures InFlightCount(Add(c, p, r, room)) == InFlightCount(p)
  {
    var q := Add(c, p, r, room);
    EarlyFrame(c, p, r, room);
    EarlyArrived(c, p, r, room);
    SameOrdered(c, p, q);
    SamePlaced(c, p, q);
    SameHeads(p, q);
  }

  lemma EarlyFrame(c: Settings, p: Path, r: Round, room: Round -> bool)
    requires MayArrive(c, p, r)
    requires r in p.assembly ==> p.assembly[r].arrived + 1 != c.fragments(r)
    ensures var q := Add(c, p, r, room);
      && SameOrders(p, q) && q.flights == p.flights && q.left == p.left
      && q.inFlight == p.inFlight && q.crossing == p.crossing
      && (forall x :: IsReady(q, x) ==> IsReady(p, x))
  {
    var q := Add(c, p, r, room);
    assert q.assembly.Keys == p.assembly.Keys && q.waiting.Keys == p.waiting.Keys;
    assert forall x :: Forms(q, x) <==> Forms(p, x);
  }

  lemma EarlyArrived(c: Settings, p: Path, r: Round, room: Round -> bool)
    requires ArrivedOk(c, p) && LineOk(p) && MayArrive(c, p, r)
    requires r in p.assembly ==> p.assembly[r].arrived + 1 != c.fragments(r)
    ensures ArrivedOk(c, Add(c, p, r, room))
  {
  }

  /** The stage a complete round is in while its pack is done matters to nobody. */
  lemma LastFragment(c: Settings, p: Path, r: Round, room: Round -> bool)
    requires Kept(c, p) && HeadsOk(p) && r in p.assembly && p.assembly[r].stage.Collecting?
    requires p.assembly[r].arrived + 1 == c.fragments(r)
    ensures Kept(c, Add(c, p, r, room)) && HeadsOk(Add(c, p, r, room))
    ensures Add(c, p, r, room).line == p.line && Add(c, p, r, room).emitted == p.emitted
    ensures c.hasStores ==> InFlightCount(Add(c, p, r, room)) == InFlightCount(p)
  {
    var context := p.assembly[r].(arrived := p.assembly[r].arrived + 1);
    var due := p.(assembly := p.assembly[r := context.(stage := PackDue)]);
    StageKept(c, p, r, context.(stage := PackDue));
    StageHeads(c, p, r, context.(stage := PackDue));
    PackKept(c, due, r, room);
    LastIsDue(c, p, r, room);
  }

  lemma LastIsDue(c: Settings, p: Path, r: Round, room: Round -> bool)
    requires r in p.assembly && p.assembly[r].arrived + 1 == c.fragments(r)
    ensures var due := p.(assembly := p.assembly[r := Context(p.assembly[r].arrived + 1, PackDue)]);
      r in due.assembly && Add(c, p, r, room) == Pack(c, due, r, room)
  {
    var context := Context(p.assembly[r].arrived + 1, p.assembly[r].stage);
    var more := p.(assembly := p.assembly[r := context]);
    var due := p.(assembly := p.assembly[r := context.(stage := PackDue)]);
    assert WithStage(more, r, Ready).assembly == WithStage(due, r, Ready).assembly;
    assert WithStage(more, r, Packing).assembly == WithStage(due, r, Packing).assembly;
  }

  /** A formed round is handed on: the oldest of those forming. */
  function Formed(c: Settings, p: Path, room: Round -> bool): Path
    requires p.forming != []
  {
    HandOn(c, p.(forming := p.forming[1..]), p.forming[0], room)
  }

  lemma FormedLeaves(c: Settings, p: Path)
    requires Kept(c, p) && p.forming != []
    ensures Leaving(c, p.(forming := p.forming[1..]), p.forming[0])
  {
    var r := p.forming[0];
    var q := p.(forming := p.forming[1..]);
    DistinctTail(p.forming);
    forall s: nat
      ensures InOrderAround(q, s, r) && SplitOk(q, s) && r !in Expected(q, s)
    {
      assert InOrder(p, s) && SplitOk(p, s);
      FormedStream(p, s);
    }
    forall x | x in q.assembly && x != r && !q.assembly[x].stage.Forming?
      ensures x in Expected(q, x.stream)
    {
      assert x in Expected(p, x.stream);
    }
    SamePlaced(c, p, q);
  }

  lemma FormedStream(p: Path, stream: nat)
    requires p.forming != [] && InOrder(p, stream) && SplitOk(p, stream) && LineOk(p)
    requires Forms(p, p.forming[0])
    ensures var q := p.(forming := p.forming[1..]);
      InOrderAround(q, stream, p.forming[0]) && SplitOk(q, stream) && p.forming[0] !in Expected(q, stream)
  {
    FormedOrder(p, stream);
    FormedNotExpected(p, stream);
  }

  lemma FormedOrder(p: Path, stream: nat)
    requires p.forming != [] && InOrder(p, stream)
    ensures InOrderAround(p.(forming := p.forming[1..]), stream, p.forming[0])
  {
    var r := p.forming[0];
    var before := On(p.written, stream) + On(p.held, stream);
    var one, forming, expected := If(r.stream == stream, r), On(p.forming[1..], stream), Expected(p, stream);
    assert On(p.forming, stream) == one + forming;
    assert before + (one + forming) + expected == before + one + forming + expected;
  }

  lemma FormedNotExpected(p: Path, stream: nat)
    requires p.forming != [] && SplitOk(p, stream) && LineOk(p) && Forms(p, p.forming[0])
    ensures p.forming[0] !in Expected(p, stream)
  {
    var expected, line := Expected(p, stream), On(p.line, stream);
    OnMembers(p.line, stream);
    forall i | 0 <= i < |expected|
      ensures expected[i] != p.forming[0]
    {
      if i >= |expected| - |line| {
        assert expected[i] == expected[|expected| - |line|..][i - (|expected| - |line|)];
        assert expected[i] in line;
      }
    }
  }

  lemma FormedKept(c: Settings, p: Path, room: Round -> bool)
    requires Kept(c, p) && HeadsOk(p) && p.forming != []
    ensures Kept(c, Formed(c, p, room)) && HeadsOk(Formed(c, p, room))
    ensures Formed(c, p, room).line == p.line && Formed(c, p, room).emitted == p.emitted
    ensures c.hasStores ==> InFlightCount(Formed(c, p, room)) == InFlightCount(p)
  {
    var q := p.(forming := p.forming[1..]);
    FormedLeaves(c, p);
    HandedKept(c, q, p.forming[0], room);
    HandedPlaced(c, q, p.forming[0], room);
    SameHeads(p, Formed(c, p, room));
  }

  // ------------------------------------------------------ held for room

  function SendHead(c: Settings, p: Path): Path
    requires p.held != []
  {
    Send(c, p, p.held[0]).(held := p.held[1..])
  }

  lemma SendHeadPlaces(c: Settings, p: Path, x: Round)
    requires IsSettings(c) && c.hasStores && p.held != [] && InOnePlace(p, x)
    ensures InOnePlace(SendHead(c, p), x)
  {
    SentFlights(c, p, p.held[0], x);
  }

  lemma SendHeadKept(c: Settings, p: Path)
    requires Kept(c, p) && HeadsOk(p) && p.held != []
    ensures Kept(c, SendHead(c, p)) && HeadsOk(SendHead(c, p))
    ensures InFlightCount(SendHead(c, p)) == InFlightCount(p)
  {
    var q := SendHead(c, p);
    var r := p.held[0];
    forall x
      ensures InOnePlace(q, x)
    {
      assert InOnePlace(p, x);
      SendHeadPlaces(c, p, x);
    }
    SentFlights(c, p, r, r);
    SentFlightsOk(c, p, r);
    SendHeadOrdered(c, p);
  }

  lemma SendHeadOrder(c: Settings, p: Path, stream: nat)
    requires p.held != [] && InOrder(p, stream)
    ensures InOrder(SendHead(c, p), stream)
  {
    OnOne(p.written, p.held[0], stream);
    var one := If(p.held[0].stream == stream, p.held[0]);
    assert On(p.held, stream) == one + On(p.held[1..], stream);
    assert On(p.written, stream) + (one + On(p.held[1..], stream)) ==
      On(p.written, stream) + one + On(p.held[1..], stream);
    assert Expected(SendHead(c, p), stream) == Expected(p, stream);
  }

  lemma SendHeadForming(c: Settings, p: Path)
    requires p.held != []
    ensures FormingOk(c, p) ==> FormingOk(c, SendHead(c, p))
    ensures LineOk(p) && LineIsLast(p) && ArrivedOk(c, p) ==>
      LineOk(SendHead(c, p)) && LineIsLast(SendHead(c, p)) && ArrivedOk(c, SendHead(c, p))
  {
    assert forall s :: Expected(SendHead(c, p), s) == Expected(p, s);
  }

  lemma SendHeadSplit(c: Settings, p: Path, stream: nat)
    requires p.held != [] && SplitOk(p, stream)
    ensures SplitOk(SendHead(c, p), stream)
  {
    assert Expected(SendHead(c, p), stream) == Expected(p, stream);
  }

  lemma SendHeadOrdered(c: Settings, p: Path)
    requires Ordered(c, p) && HeadsOk(p) && p.held != []
    ensures Ordered(c, SendHead(c, p)) && HeadsOk(SendHead(c, p))
  {
    SendHeadForming(c, p);
    SameHeads(p, SendHead(c, p));
    forall s: nat
      ensures InOrder(SendHead(c, p), s) && SplitOk(SendHead(c, p), s)
    {
      assert InOrder(p, s) && SplitOk(p, s);
      SendHeadOrder(c, p, s);
      SendHeadSplit(c, p, s);
    }
  }

  lemma {:induction false} RetryHeldKept(c: Settings, p: Path, room: Round -> bool)
    requires Kept(c, p) && HeadsOk(p)
    ensures Kept(c, RetryHeld(c, p, room)) && HeadsOk(RetryHeld(c, p, room))
    ensures RetryHeld(c, p, room).line == p.line && RetryHeld(c, p, room).emitted == p.emitted
    ensures InFlightCount(RetryHeld(c, p, room)) == InFlightCount(p)
    decreases |p.held|
  {
    if p.held != [] && room(p.held[0]) {
      SendHeadKept(c, p);
      RetryHeldKept(c, SendHead(c, p), room);
    }
  }
}
