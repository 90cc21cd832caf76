/** The controller's readout path: rounds are packed from fragments, retire in emission order,
    wait for store room, travel, and are counted against the packing stage's bound.

    Link and store times are arbitrary: each delivery, landing and publication is a step of
    its own, and a store's answer about room is a parameter.
 */
module Readout {
  import opened Options

  /** stream stands for the route, the source and the stream a round's order is kept within. */
  datatype Round = Round(stream: nat, index: nat)

  /** sides lists a round's stores, its own first, true where the store takes it landed. */
  datatype Settings = Settings(
    capacity: Option<nat>,
    packingIsFree: bool,
    formationIsFree: bool,
    hasStores: bool,
    fragments: Round -> nat,
    isMemory: Round -> bool,
    sides: Round -> seq<bool>)

  datatype Stage = Collecting | PackDue | Packing | Ready | Forming

  datatype Context = Context(arrived: nat, stage: Stage)

  /** A round, or its copy, on its way to one store. */
  datatype Flight = Flight(round: Round, isCopy: bool, isLanded: bool, leaves: bool)

  datatype Path = Path(
    line: seq<Round>,
    waiting: map<Round, nat>,
    assembly: map<Round, Context>,
    expected: map<nat, seq<Round>>,
    forming: seq<Round>,
    held: seq<Round>,
    flights: seq<Flight>,
    inFlight: int,
    crossing: int,
    emitted: seq<Round>,
    written: seq<Round>,
    left: seq<Round>)

  const NothingYet: Path := Path([], map[], map[], map[], [], [], [], 0, 0, [], [], [])

  // ------------------------------------------------------------- the bound

  function InFlightCount(p: Path): int {
    |p.assembly| + |p.held| + p.inFlight + p.crossing
  }

  predicate HasRoom(c: Settings, p: Path) {
    c.capacity.None? || InFlightCount(p) < c.capacity.value
  }

  function Expected(p: Path, stream: nat): seq<Round> {
    if stream in p.expected then p.expected[stream] else []
  }

  // ------------------------------------------------- the line in front

  /** A waiting round takes a place; it packs in an event of its own if it is complete. */
  function Enter(c: Settings, p: Path, r: Round): Path
    requires r in p.waiting
  {
    p.(
      waiting := p.waiting - {r},
      assembly :=
        p.assembly[r := Context(p.waiting[r], if p.waiting[r] == c.fragments(r) then PackDue else Collecting)])
  }

  /** Places freed: rounds enter from the line's head while there is room. */
  function RetryLine(c: Settings, p: Path): Path
    requires forall i | 0 <= i < |p.line| :: p.line[i] in p.waiting
    requires forall i, j | 0 <= i < j < |p.line| :: p.line[i] != p.line[j]
    decreases |p.line|
  {
    if p.line == [] || !HasRoom(c, p) then p
    else
      assert forall i | 1 <= i < |p.line| :: p.line[i] != p.line[0];
      RetryLine(c, Enter(c, p, p.line[0]).(line := p.line[1..]))
  }

  /** A new round enters assembly if nothing waits and there is room, and else joins the line. */
  function Emit(c: Settings, p: Path, r: Round): Path {
    if r in p.waiting || r in p.assembly then p
    else
      var next := p.(
        expected := p.expected[r.stream := Expected(p, r.stream) + [r]],
        waiting := p.waiting[r := 0],
        emitted := p.emitted + [r]);
      if p.line == [] && HasRoom(c, p) then Enter(c, next, r) else next.(line := p.line + [r])
  }

  // ----------------------------------------------------- leaving the stage

  /** One flight to each store; the own one is counted, by the kind of its store. */
  function Flights(r: Round, sides: seq<bool>, isCopy: bool): seq<Flight> {
    if sides == [] then []
    else [Flight(r, isCopy, sides[0], false)] + Flights(r, sides[1..], true)
  }

  /** Every store has room: the round leaves for all of them. */
  function Send(c: Settings, p: Path, r: Round): Path {
    var sides := c.sides(r);
    var isLanded := sides != [] && sides[0];
    p.(
      written := p.written + [r],
      flights := p.flights + Flights(r, sides, false),
      inFlight := if isLanded then p.inFlight else p.inFlight + 1,
      crossing := if isLanded then p.crossing + 1 else p.crossing)
  }

  /** The round joins those held, or leaves, or waits for room; with no store it goes nowhere. */
  function Admit(c: Settings, p: Path, r: Round, room: Round -> bool): (q: Path)
    ensures q.line == p.line && q.waiting == p.waiting && q.assembly == p.assembly && q.emitted == p.emitted
    ensures q.expected == p.expected && q.forming == p.forming
  {
    if p.held != [] then p.(held := p.held + [r])
    else if !c.hasStores then p.(left := p.left + [r], written := p.written + [r])
    else if !room(r) then p.(held := p.held + [r])
    else Send(c, p, r)
  }

  function HandOn(c: Settings, p: Path, r: Round, room: Round -> bool): (q: Path)
    ensures q.line == p.line && q.waiting == p.waiting && q.assembly == p.assembly - {r} && q.emitted == p.emitted
    ensures q.expected == p.expected && q.forming == p.forming
  {
    Admit(c, p.(assembly := p.assembly - {r}), r, room)
  }

  /** Store room freed: held rounds leave from the head, up to the first refused. */
  function RetryHeld(c: Settings, p: Path, room: Round -> bool): Path
    decreases |p.held|
  {
    if p.held == [] || !room(p.held[0]) then p
    else RetryHeld(c, Send(c, p, p.held[0]).(held := p.held[1..]), room)
  }

  // ------------------------------------------------------- packing, forming

  predicate IsReady(p: Path, r: Round) {
    r in p.assembly && p.assembly[r].stage.Ready?
  }

  /** The round retires: formation starts, and with no formation time it is handed on. */
  function Retire(c: Settings, p: Path, r: Round, room: Round -> bool): Path
    requires r in p.assembly && Expected(p, r.stream) != []
  {
    var retired := p.(expected := p.expected[r.stream := Expected(p, r.stream)[1..]]);
    if c.formationIsFree then HandOn(c, retired, r, room)
    else
      retired.(
        assembly := p.assembly[r := p.assembly[r].(stage := Forming)],
        forming := p.forming + [r])
  }

  /** Ready rounds of the stream retire, while the first expected one is ready. */
  function Release(c: Settings, p: Path, stream: nat, room: Round -> bool): Path
    decreases |Expected(p, stream)|
  {
    var expected := Expected(p, stream);
    if expected == [] || expected[0].stream != stream || !IsReady(p, expected[0]) then p
    else Release(c, Retire(c, p, expected[0], room), stream, room)
  }

  function WithStage(p: Path, r: Round, stage: Stage): Path
    requires r in p.assembly
  {
    p.(assembly := p.assembly[r := p.assembly[r].(stage := stage)])
  }

  function FinishPacking(c: Settings, p: Path, r: Round, room: Round -> bool): Path
    requires r in p.assembly
  {
    Release(c, WithStage(p, r, Ready), r.stream, room)
  }

  function Pack(c: Settings, p: Path, r: Round, room: Round -> bool): Path
    requires r in p.assembly
  {
    if c.packingIsFree then FinishPacking(c, p, r, room) else WithStage(p, r, Packing)
  }

  /** One fragment arrived; the last one packs a round that is in assembly. */
  function Add(c: Settings, p: Path, r: Round, room: Round -> bool): Path
    requires r in p.waiting || r in p.assembly
  {
    if r in p.assembly then
      var more := p.(assembly := p.assembly[r := p.assembly[r].(arrived := p.assembly[r].arrived + 1)]);
      if p.assembly[r].arrived + 1 == c.fragments(r) then Pack(c, more, r, room) else more
    else p.(waiting := p.waiting[r := p.waiting[r] + 1])
  }

  // -------------------------------------------------------------- flights

  /** A memory round's flights over the transmitter end at the delivery, copies included. */
  predicate RidesMemory(c: Settings, f: Flight) {
    c.isMemory(f.round) && !f.isLanded
  }

  function WithoutFlight(p: Path, i: nat): Path
    requires i < |p.flights|
  {
    p.(flights := p.flights[..i] + p.flights[i + 1..])
  }

  /** The round left the stage: its place is free. */
  function Freed(p: Path, i: nat): Path
    requires i < |p.flights|
  {
    var f := p.flights[i];
    WithoutFlight(p, i).(
      inFlight := if f.isLanded then p.inFlight else p.inFlight - 1,
      crossing := if f.isLanded then p.crossing - 1 else p.crossing,
      left := if f.isCopy then p.left else p.left + [f.round])
  }
}
