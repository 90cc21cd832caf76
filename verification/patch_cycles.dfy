/** The cycle clock over the patch lives: at each boundary every idle patch and every running
    body emits a round, bodies that are done finish, and waiting commands start. In every run
    each life's stream sends its rounds in order, each once, and is sealed once at their count.
 */
module PatchCycles {
  import opened PatchLives

  /** A body on the QPU; the offset of its segment in each of its streams. */
  datatype Body = Body(emitted: nat, offsets: map<StreamId, nat>)

  datatype World = World(
    tick: nat,
    book: Book,
    idle: set<nat>,
    prepared: set<nat>,
    running: map<nat, Body>,
    started: set<nat>,
    finished: set<nat>,
    isOver: bool)

  const Initial: World := World(0, Book(map[], map[]), {}, {}, map[], {}, {}, false)

  function PatchSet(operation: Operation): set<nat> {
    set p | p in operation.patches
  }

  function Offsets(book: Book, streams: seq<StreamId>): map<StreamId, nat> {
    map s | s in streams :: LifeIn(book, s).nextRound
  }

  /** The body's round, one readout per stream it emits into. */
  function SendAll(book: Book, streams: seq<StreamId>, body: Body, tick: nat): (after: Book)
    ensures after.streamOf == book.streamOf
    decreases |streams|
  {
    if streams == [] then book
    else
      var s := streams[0];
      var offset := if s in body.offsets then body.offsets[s] else 0;
      SendAll(book.(lives := book.lives[s := Sent(LifeIn(book, s), offset + body.emitted, tick)]), streams[1..], body,
        tick)
  }

  /** The body is done: its patches idle or are discarded, and the runtime hears of it. */
  function Finish(program: seq<Operation>, w: World, o: nat): World
    requires o < |program|
  {
    var operation := program[o];
    var patches := PatchSet(operation);
    var idle := if operation.discards then w.idle else w.idle + (patches * w.prepared);
    var prepared := if operation.discards then w.prepared - patches else w.prepared;
    var book := if operation.discards then Close(w.book, StreamsOf(program, o)) else w.book;
    var finished := w.finished + {o};
    var isOver := |finished| == |program|;
    World(
      w.tick, if isOver then SealFinished(book) else book, idle, prepared,
      w.running - {o}, w.started, finished, isOver)
  }

  /** At the end of a boundary of a complete workload the idle patches stop. */
  function EndBoundary(w: World): World {
    if w.isOver then w.(idle := {}) else w
  }

  function EmitBody(program: seq<Operation>, w: World, o: nat): World
    requires o < |program|
  {
    if o !in w.running then w
    else
      var body := w.running[o].(emitted := w.running[o].emitted + 1);
      var book := if program[o].emits then SendAll(w.book, StreamsOf(program, o), body, w.tick) else w.book;
      var next := w.(book := book, running := w.running[o := body]);
      if body.emitted == program[o].rounds then Finish(program, next, o) else next
  }

  function EmitBodies(program: seq<Operation>, w: World, bodies: seq<nat>): World
    requires forall k | 0 <= k < |bodies| :: bodies[k] < |program|
    decreases |bodies|
  {
    if bodies == [] then w else EmitBodies(program, EmitBody(program, w, bodies[0]), bodies[1..])
  }

  /** One cycle boundary: the idle patches' rounds, then the bodies', in any order of each. */
  function Cross(program: seq<Operation>, w: World, tick: nat, idle: seq<nat>, bodies: seq<nat>): World
    requires forall k | 0 <= k < |bodies| :: bodies[k] < |program|
  {
    EndBoundary(EmitBodies(program, w.(tick := tick, book := ExtendAll(w.book, idle, tick)), bodies))
  }

  function StartCommand(program: seq<Operation>, w: World, o: nat): World
    requires o < |program|
  {
    var operation := program[o];
    var patches := PatchSet(operation);
    var next := w.(
      book := Bind(w.book, operation, StreamsOf(program, o)),
      idle := w.idle - patches,
      prepared := if operation.rounds > 0 then w.prepared + patches else w.prepared,
      started := w.started + {o});
    if operation.rounds == 0 then Finish(program, next, o)
    else next.(running := next.running[o := Body(0, Offsets(w.book, StreamsOf(program, o)))])
  }

  datatype Step = Crosses(tick: nat, idle: seq<nat>, bodies: seq<nat>) | Starts(operation: nat)

  ghost predicate Lists(list: seq<nat>, all: set<nat>) {
    && (forall m, n | 0 <= m < n < |list| :: list[m] != list[n])
    && (forall x :: x in list <==> x in all)
  }

  ghost predicate Shares(program: seq<Operation>, i: nat, j: nat) {
    exists p :: Runs(program, i, p) && Runs(program, j, p)
  }

  /** The program order: an operation starts once, after every earlier one on its patches. */
  ghost predicate MayStart(program: seq<Operation>, w: World, o: nat) {
    && o < |program| && o !in w.started
    && forall i | 0 <= i < o && Shares(program, i, o) :: i in w.finished
  }

  ghost predicate May(program: seq<Operation>, w: World, step: Step) {
    match step
    case Crosses(tick, idle, bodies) =>
      && tick > w.tick && Lists(idle, w.idle) && Lists(bodies, w.running.Keys)
      && forall k | 0 <= k < |bodies| :: bodies[k] < |program|
    case Starts(o) => MayStart(program, w, o)
  }

  function Take(program: seq<Operation>, w: World, step: Step): World
    requires step.Starts? ==> step.operation < |program|
    requires step.Crosses? ==> forall k | 0 <= k < |step.bodies| :: step.bodies[k] < |program|
  {
    match step
    case Crosses(tick, idle, bodies) => Cross(program, w, tick, idle, bodies)
    case Starts(o) => EndBoundary(StartCommand(program, w, o))
  }

  // ---- the invariant

  /** What runs, and in what order: two bodies never share a patch, and none runs on an idle one. */
  ghost predicate InOrder(program: seq<Operation>, w: World) {
    && (forall o :: o in w.started ==> o < |program|)
    && (forall o :: o in w.finished <==> o in w.started && o !in w.running)
    && (forall o :: o in w.running ==> o in w.started)
    && (forall i, j :: j in w.started && 0 <= i < j && Shares(program, i, j) ==> i in w.finished)
    && (forall p, o :: p in w.idle && o in w.running ==> !Runs(program, o, p))
    && (w.isOver ==> |w.finished| == |program|)
  }

  /** What each patch holds: a running body its own life's stream, and never a sealed one. */
  ghost predicate InHand(program: seq<Operation>, w: World) {
    && (forall p :: p in w.book.streamOf ==> w.book.streamOf[p].patch == p)
    && (forall o, s :: o in w.running && IsMember(program, o, s) ==> Holds(w.book, s))
    && (!w.isOver ==> forall s :: Holds(w.book, s) ==> !LifeIn(w.book, s).isSealed)
  }

  ghost predicate EndedBy(program: seq<Operation>, w: World, d: nat, s: StreamId) {
    d < |program| && d in w.finished && program[d].discards && IsMember(program, d, s)
  }

  /** Why a stream is sealed, and that a stream with rounds is known. */
  ghost predicate SealsMeant(program: seq<Operation>, w: World) {
    && (forall s :: LifeIn(w.book, s).isSealed ==> w.isOver || exists d :: EndedBy(program, w, d, s))
    && (forall s :: w.isOver && s in w.book.lives ==> w.book.lives[s].isSealed)
    && (forall o, s :: o in w.started && IsMember(program, o, s) && program[o].emits ==> s in w.book.lives)
  }

  ghost predicate RoundsInOrder(life: Life, tick: nat) {
    && (forall i | 0 <= i < |life.sent| :: life.sent[i].round == i + 1 && life.sent[i].tick <= tick)
    && (forall i, j | 0 <= i < j < |life.sent| :: life.sent[i].tick < life.sent[j].tick)
    && Tiles(life.spans, life.nextRound)
    && life.seals == (if life.isSealed then [life.nextRound] else [])
  }

  ghost predicate EmitsInto(program: seq<Operation>, w: World, o: nat, s: StreamId) {
    o < |program| && o in w.running && IsMember(program, o, s) && program[o].emits
  }

  /** A running body's segment ends its stream; the rounds not sent are those it has to run. */
  ghost predicate BodyCounts(program: seq<Operation>, w: World, o: nat, s: StreamId)
    requires o < |program|
  {
    && o in w.running && s in w.running[o].offsets
    && LifeIn(w.book, s).nextRound == w.running[o].offsets[s] + program[o].rounds
    && |LifeIn(w.book, s).sent| == w.running[o].offsets[s] + w.running[o].emitted
  }

  ghost predicate Counts(program: seq<Operation>, w: World, s: StreamId) {
    && (forall o :: EmitsInto(program, w, o, s) ==> BodyCounts(program, w, o, s))
    && ((forall o :: !EmitsInto(program, w, o, s)) ==> |LifeIn(w.book, s).sent| == LifeIn(w.book, s).nextRound)
  }

  ghost predicate AllCount(program: seq<Operation>, w: World) {
    && (forall s :: RoundsInOrder(LifeIn(w.book, s), w.tick))
    && (forall s :: Counts(program, w, s))
  }

  /** What holds between the parts of a boundary too. */
  ghost predicate Core(program: seq<Operation>, w: World) {
    InOrder(program, w) && InHand(program, w) && SealsMeant(program, w) && AllCount(program, w)
  }

  /** Every body but one has a round left to run. */
  ghost predicate BodiesRunBut(program: seq<Operation>, w: World, but: set<nat>) {
    forall o :: o in w.running && o < |program| && o !in but ==> w.running[o].emitted < program[o].rounds
  }

  ghost predicate Kept(program: seq<Operation>, w: World) {
    Core(program, w) && BodiesRunBut(program, w, {}) && (w.isOver ==> w.idle == {})
  }

  /** The stream has sent no round of this tick. */
  ghost predicate Fresh(w: World, s: StreamId) {
    forall i | 0 <= i < |LifeIn(w.book, s).sent| :: LifeIn(w.book, s).sent[i].tick < w.tick
  }

  // ---- the program order

  lemma {:induction false} LivesCome(program: seq<Operation>, i: nat, j: nat, patch: nat)
    requires i <= j <= |program|
    ensures LifeOf(program, i, patch) <= LifeOf(program, j, patch)
    ensures i < j && program[i].discards && Runs(program, i, patch) ==>
      LifeOf(program, i, patch) < LifeOf(program, j, patch)
    decreases j
  {
    if i < j {
      LivesCome(program, i, j - 1, patch);
    }
  }

  lemma Sharing(program: seq<Operation>, i: nat, j: nat, patch: nat)
    requires Runs(program, i, patch) && Runs(program, j, patch)
    ensures Shares(program, i, j)
  {
  }

  /** A discard that ended a life came after every other operation of it. */
  lemma NotEnded(program: seq<Operation>, w: World, o: nat, d: nat, s: StreamId)
    requires InOrder(program, w) && IsMember(program, o, s) && o !in w.finished
    requires o in w.started || MayStart(program, w, o)
    ensures !EndedBy(program, w, d, s)
  {
    if EndedBy(program, w, d, s) {
      Sharing(program, o, d, s.patch);
      Sharing(program, d, o, s.patch);
      if d < o {
        LivesCome(program, d, o, s.patch);
      }
      assert false;
    }
  }

  /** The stream of a body that runs, or may start, is open. */
  lemma StillOpen(program: seq<Operation>, w: World, o: nat, s: StreamId)
    requires InOrder(program, w) && SealsMeant(program, w) && IsMember(program, o, s) && o !in w.finished
    requires o in w.started || MayStart(program, w, o)
    ensures !w.isOver && !LifeIn(w.book, s).isSealed
  {
    if w.isOver {
      AllFinished(program, w, o);
    }
    if LifeIn(w.book, s).isSealed {
      var d :| EndedBy(program, w, d, s);
      NotEnded(program, w, o, d, s);
    }
  }

  lemma {:induction false} FullSet(n: nat, all: set<nat>)
    requires |all| == n && forall x :: x in all ==> x < n
    ensures forall x: nat | x < n :: x in all
  {
    if n > 0 {
      if n - 1 in all {
        var rest := all - {n - 1};
        FullSet(n - 1, rest);
        forall x: nat | x < n ensures x in all {
          assert x == n - 1 || x in rest;
        }
      } else {
        Bounded(n - 1, all);
      }
    }
  }

  lemma {:induction false} Bounded(n: nat, all: set<nat>)
    requires forall x :: x in all ==> x < n
    ensures |all| <= n
  {
    if n == 0 {
      assert all == {};
    } else {
      Bounded(n - 1, all - {n - 1});
    }
  }

  lemma AllFinished(program: seq<Operation>, w: World, o: nat)
    requires InOrder(program, w) && w.isOver && o < |program|
    ensures o in w.finished
  {
    FullSet(|program|, w.finished);
  }

  /** Two bodies never run on one patch. */
  lemma OneBody(program: seq<Operation>, w: World, i: nat, j: nat, patch: nat)
    requires InOrder(program, w) && i in w.running && j in w.running && Runs(program, i, patch)
    requires Runs(program, j, patch)
    ensures i == j
  {
    Sharing(program, i, j, patch);
    Sharing(program, j, i, patch);
  }

  /** Rounds given and sent change neither what is held nor what is sealed. */
  ghost predicate OnlyRounds(w: World, next: World, s: StreamId) {
    && LifeIn(next.book, s).isSealed == LifeIn(w.book, s).isSealed
    && (s in w.book.lives ==> s in next.book.lives)
    && (w.isOver && s in next.book.lives ==> s in w.book.lives)
  }

  lemma RoundsKeep(program: seq<Operation>, w: World, next: World)
    requires InOrder(program, w) && InHand(program, w) && SealsMeant(program, w)
    requires next == w.(tick := next.tick, book := next.book, running := next.running)
    requires next.running.Keys == w.running.Keys && next.book.streamOf == w.book.streamOf
    requires forall s :: OnlyRounds(w, next, s)
    ensures InOrder(program, next) && InHand(program, next) && SealsMeant(program, next)
  {
    assert forall s :: OnlyRounds(w, next, s) ==> (Holds(next.book, s) <==> Holds(w.book, s));
    RoundsKeepOrder(program, w, next);
    RoundsKeepSeals(program, w, next);
  }

  lemma RoundsKeepOrder(program: seq<Operation>, w: World, next: World)
    requires InOrder(program, w)
    requires next == w.(tick := next.tick, book := next.book, running := next.running)
    requires next.running.Keys == w.running.Keys
    ensures InOrder(program, next)
  {
    assert forall o :: o in next.running <==> o in w.running;
  }

  lemma RoundsKeepSeals(program: seq<Operation>, w: World, next: World)
    requires SealsMeant(program, w)
    requires next.started == w.started && next.finished == w.finished && next.isOver == w.isOver
    requires forall s :: OnlyRounds(w, next, s)
    ensures SealsMeant(program, next)
  {
    forall s | LifeIn(next.book, s).isSealed && !next.isOver ensures exists d :: EndedBy(program, next, d, s) {
      assert OnlyRounds(w, next, s);
      var d :| EndedBy(program, w, d, s);
      assert EndedBy(program, next, d, s);
    }
    forall s | next.isOver && s in next.book.lives ensures next.book.lives[s].isSealed {
      assert OnlyRounds(w, next, s);
    }
    forall o, s | o in next.started && IsMember(program, o, s) && program[o].emits ensures s in next.book.lives {
      assert OnlyRounds(w, next, s);
    }
  }

  // ---- idle rounds

  lemma ExtendKeeps(program: seq<Operation>, w: World, tick: nat, idle: seq<nat>)
    requires Kept(program, w) && tick > w.tick && Lists(idle, w.idle)
    ensures Core(program, w.(tick := tick, book := ExtendAll(w.book, idle, tick)))
    ensures forall s: StreamId ::
      s.patch !in w.idle ==> Fresh(w.(tick := tick, book := ExtendAll(w.book, idle, tick)), s)
  {
    var next := w.(tick := tick, book := ExtendAll(w.book, idle, tick));
    forall s
      ensures RoundsInOrder(LifeIn(next.book, s), tick) && Counts(program, next, s)
      ensures OnlyRounds(w, next, s)
      ensures s.patch !in w.idle ==> Fresh(next, s)
    {
      ExtendEach(w.book, idle, tick, s);
      assert Counts(program, w, s) && RoundsInOrder(LifeIn(w.book, s), w.tick);
      ExtendOne(program, w, next, s);
    }
    RoundsKeep(program, w, next);
  }

  lemma ExtendOne(program: seq<Operation>, w: World, next: World, s: StreamId)
    requires InOrder(program, w) && Counts(program, w, s) && RoundsInOrder(LifeIn(w.book, s), w.tick)
    requires next == w.(tick := next.tick, book := next.book) && next.tick > w.tick
    requires s.patch in w.idle && Holds(w.book, s) ==> !LifeIn(w.book, s).isSealed
    requires LifeIn(next.book, s) == if s.patch in w.idle && Holds(w.book, s)
      then Sent(Given(LifeIn(w.book, s), 1), LifeIn(w.book, s).nextRound + 1, next.tick) else LifeIn(w.book, s)
    ensures RoundsInOrder(LifeIn(next.book, s), next.tick) && Counts(program, next, s)
  {
    var life := LifeIn(w.book, s);
    assert forall o :: EmitsInto(program, next, o, s) <==> EmitsInto(program, w, o, s);
    assert forall o :: EmitsInto(program, w, o, s) ==> BodyCounts(program, w, o, s);
    if s.patch in w.idle && Holds(w.book, s) {
      TilesGrow(life.spans, life.nextRound, 1);
      assert forall o :: !EmitsInto(program, w, o, s);
    } else {
      assert forall o :: EmitsInto(program, w, o, s) ==> BodyCounts(program, next, o, s);
    }
  }

  // ---- a body's round

  lemma {:induction false} SendEach(book: Book, streams: seq<StreamId>, body: Body, tick: nat, s: StreamId)
    requires DistinctPatches(streams)
    ensures LifeIn(SendAll(book, streams, body, tick), s) ==
            (if s in streams
             then Sent(LifeIn(book, s), (if s in body.offsets then body.offsets[s] else 0) + body.emitted, tick)
             else LifeIn(book, s))
    ensures s in SendAll(book, streams, body, tick).lives <==> s in book.lives || s in streams
    decreases |streams|
  {
    if streams != [] {
      HeadOrRest(streams, s.patch);
      assert streams[0] == s ==> s !in streams[1..];
      var t := streams[0];
      var offset := if t in body.offsets then body.offsets[t] else 0;
      SendEach(book.(lives := book.lives[t := Sent(LifeIn(book, t), offset + body.emitted, tick)]), streams[1..], body,
        tick, s);
    }
  }

  /** The world in which the body has run one more round. */
  function RoundRun(program: seq<Operation>, w: World, o: nat): World
    requires o < |program| && o in w.running
  {
    var body := w.running[o].(emitted := w.running[o].emitted + 1);
    var book := if program[o].emits then SendAll(w.book, StreamsOf(program, o), body, w.tick) else w.book;
    w.(book := book, running := w.running[o := body])
  }

  lemma SendKeeps(program: seq<Operation>, w: World, o: nat)
    requires IsProgram(program) && Core(program, w) && o < |program| && o in w.running
    requires forall s :: IsMember(program, o, s) ==> Fresh(w, s)
    ensures Core(program, RoundRun(program, w, o))
    ensures forall s :: !IsMember(program, o, s) ==> LifeIn(RoundRun(program, w, o).book, s) == LifeIn(w.book, s)
  {
    var next := RoundRun(program, w, o);
    var streams := StreamsOf(program, o);
    var body := next.running[o];
    AmongDistinct(program, o, program[o].patches);
    forall s
      ensures RoundsInOrder(LifeIn(next.book, s), w.tick) && Counts(program, next, s)
      ensures OnlyRounds(w, next, s)
      ensures !IsMember(program, o, s) ==> LifeIn(next.book, s) == LifeIn(w.book, s)
    {
      SendEach(w.book, streams, body, w.tick, s);
      assert Counts(program, w, s) && RoundsInOrder(LifeIn(w.book, s), w.tick);
      SendOne(program, w, o, next, s);
    }
    assert next.running.Keys == w.running.Keys;
    RoundsKeep(program, w, next);
  }

  lemma SendOne(program: seq<Operation>, w: World, o: nat, next: World, s: StreamId)
    requires InOrder(program, w) && Counts(program, w, s) && RoundsInOrder(LifeIn(w.book, s), w.tick)
    requires o < |program| && o in w.running
    requires IsMember(program, o, s) ==> Fresh(w, s)
    requires next ==
      w.(book := next.book, running := w.running[o := w.running[o].(emitted := w.running[o].emitted + 1)])
    requires LifeIn(next.book, s) ==
             if program[o].emits && IsMember(program, o, s)
             then Sent(LifeIn(w.book, s), (if s in next.running[o].offsets then next.running[o].offsets[s] else 0) +
               next.running[o].emitted, w.tick)
             else LifeIn(w.book, s)
    ensures RoundsInOrder(LifeIn(next.book, s), w.tick) && Counts(program, next, s)
  {
    assert forall i :: EmitsInto(program, next, i, s) <==> EmitsInto(program, w, i, s);
    if EmitsInto(program, w, o, s) {
      assert BodyCounts(program, w, o, s);
      forall i | EmitsInto(program, next, i, s) ensures BodyCounts(program, next, i, s) {
        OneBody(program, w, i, o, s.patch);
      }
    } else {
      forall i | EmitsInto(program, next, i, s) ensures BodyCounts(program, next, i, s) {
        assert BodyCounts(program, w, i, s);
      }
    }
  }

  // ---- a body's end

  lemma FinishOrder(program: seq<Operation>, w: World, o: nat)
    requires InOrder(program, w) && o < |program| && o in w.running
    ensures InOrder(program, Finish(program, w, o))
  {
    var next := Finish(program, w, o);
    forall p, i | p in next.idle && i in next.running ensures !Runs(program, i, p) {
      if Runs(program, i, p) && p !in w.idle {
        OneBody(program, w, i, o, p);
      }
    }
  }

  /** What a body's end makes of one life: a discard seals the operation's, the last end all. */
  function LifeAfter(program: seq<Operation>, w: World, o: nat, s: StreamId): Life
    requires o < |program|
  {
    var ended := if program[o].discards && IsMember(program, o, s) then Closed(LifeIn(w.book, s))
      else LifeIn(w.book, s);
    var isKnown := s in w.book.lives || (program[o].discards && IsMember(program, o, s));
    if |w.finished + {o}| == |program| && isKnown && !ended.isSealed then Closed(ended) else ended
  }

  lemma FinishEach(program: seq<Operation>, w: World, o: nat, s: StreamId)
    requires IsProgram(program) && o < |program|
    ensures LifeIn(Finish(program, w, o).book, s) == LifeAfter(program, w, o, s)
    ensures s in Finish(program, w, o).book.lives <==>
      s in w.book.lives || (program[o].discards && IsMember(program, o, s))
    ensures Holds(Finish(program, w, o).book, s) <==>
      Holds(w.book, s) && !(program[o].discards && OnPatch(StreamsOf(program, o), s.patch))
    ensures s.patch in Finish(program, w, o).book.streamOf ==>
      s.patch in w.book.streamOf && Finish(program, w, o).book.streamOf[s.patch] == w.book.streamOf[s.patch]
  {
    AmongDistinct(program, o, program[o].patches);
    CloseEach(w.book, StreamsOf(program, o), s);
  }

  lemma FinishHand(program: seq<Operation>, w: World, o: nat)
    requires IsProgram(program) && InOrder(program, w) && InHand(program, w) && o < |program| && o in w.running
    ensures InHand(program, Finish(program, w, o))
  {
    var next := Finish(program, w, o);
    forall p | p in next.book.streamOf ensures next.book.streamOf[p].patch == p {
      FinishEach(program, w, o, StreamId(p, 0));
    }
    forall i, s | i in next.running && IsMember(program, i, s) ensures Holds(next.book, s) {
      FinishEach(program, w, o, s);
      if OnPatch(StreamsOf(program, o), s.patch) {
        OneBody(program, w, i, o, s.patch);
      }
    }
    if !next.isOver {
      forall s | Holds(next.book, s) ensures !LifeIn(next.book, s).isSealed {
        FinishEach(program, w, o, s);
        NotFull(program, w, o);
        assert IsMember(program, o, s) ==> OnPatch(StreamsOf(program, o), s.patch);
      }
    }
  }

  lemma NotFull(program: seq<Operation>, w: World, o: nat)
    requires InOrder(program, w) && o < |program| && o !in w.finished
    ensures !w.isOver
  {
    if w.isOver {
      AllFinished(program, w, o);
    }
  }

  lemma FinishSeals(program: seq<Operation>, w: World, o: nat)
    requires IsProgram(program) && InOrder(program, w) && SealsMeant(program, w) && o < |program| && o in w.running
    ensures SealsMeant(program, Finish(program, w, o))
  {
    var next := Finish(program, w, o);
    NotFull(program, w, o);
    forall s | LifeIn(next.book, s).isSealed && !next.isOver ensures exists d :: EndedBy(program, next, d, s) {
      FinishEach(program, w, o, s);
      if LifeIn(w.book, s).isSealed {
        var d :| EndedBy(program, w, d, s);
        assert EndedBy(program, next, d, s);
      } else {
        assert EndedBy(program, next, o, s);
      }
    }
    forall s | next.isOver && s in next.book.lives ensures next.book.lives[s].isSealed {
      FinishEach(program, w, o, s);
    }
    forall i, s | i in next.started && IsMember(program, i, s) && program[i].emits ensures s in next.book.lives {
      FinishEach(program, w, o, s);
    }
  }

  lemma FinishCounts(program: seq<Operation>, w: World, o: nat, s: StreamId)
    requires IsProgram(program) && Core(program, w) && o < |program| && o in w.running
    requires w.running[o].emitted == program[o].rounds
    ensures RoundsInOrder(LifeIn(Finish(program, w, o).book, s), w.tick) && Counts(program, Finish(program, w, o), s)
  {
    var next := Finish(program, w, o);
    FinishEach(program, w, o, s);
    assert Counts(program, w, s) && RoundsInOrder(LifeIn(w.book, s), w.tick);
    if IsMember(program, o, s) {
      StillOpen(program, w, o, s);
    }
    if EmitsInto(program, w, o, s) {
      assert BodyCounts(program, w, o, s);
      forall i ensures !EmitsInto(program, next, i, s) {
        if EmitsInto(program, next, i, s) {
          OneBody(program, w, i, o, s.patch);
          assert false;
        }
      }
    } else {
      forall i ensures EmitsInto(program, next, i, s) <==> EmitsInto(program, w, i, s) {
      }
      forall i | EmitsInto(program, next, i, s) ensures BodyCounts(program, next, i, s) {
        assert BodyCounts(program, w, i, s);
      }
    }
  }

  /** A body's end keeps everything, and its streams have sent every round given. */
  lemma FinishKeeps(program: seq<Operation>, w: World, o: nat)
    requires IsProgram(program) && Core(program, w) && BodiesRunBut(program, w, {o}) && o < |program| && o in w.running
    requires w.running[o].emitted == program[o].rounds
    ensures Core(program, Finish(program, w, o)) && BodiesRunBut(program, Finish(program, w, o), {})
    ensures forall s :: LifeIn(Finish(program, w, o).book, s).sent == LifeIn(w.book, s).sent
  {
    FinishOrder(program, w, o);
    FinishHand(program, w, o);
    FinishSeals(program, w, o);
    forall s
      ensures RoundsInOrder(LifeIn(Finish(program, w, o).book, s), w.tick) && Counts(program, Finish(program, w, o), s)
      ensures LifeIn(Finish(program, w, o).book, s).sent == LifeIn(w.book, s).sent
    {
      FinishCounts(program, w, o, s);
      FinishEach(program, w, o, s);
    }
  }

  // ---- one boundary

  lemma EmitBodyKeeps(program: seq<Operation>, w: World, o: nat)
    requires IsProgram(program) && Core(program, w) && BodiesRunBut(program, w, {}) && o < |program| && o in w.running
    requires forall s :: IsMember(program, o, s) ==> Fresh(w, s)
    ensures Core(program, EmitBody(program, w, o)) && BodiesRunBut(program, EmitBody(program, w, o), {})
    ensures forall s ::
      !IsMember(program, o, s) ==> LifeIn(EmitBody(program, w, o).book, s).sent == LifeIn(w.book, s).sent
    ensures forall i :: i in w.running && i != o ==> i in EmitBody(program, w, o).running
    ensures EmitBody(program, w, o).tick == w.tick
  {
    SendKeeps(program, w, o);
    if w.running[o].emitted + 1 == program[o].rounds {
      FinishKeeps(program, RoundRun(program, w, o), o);
    }
  }

  ghost predicate Due(program: seq<Operation>, w: World, bodies: seq<nat>) {
    && (forall m, n | 0 <= m < n < |bodies| :: bodies[m] != bodies[n])
    && (forall k | 0 <= k < |bodies| :: bodies[k] < |program| && bodies[k] in w.running)
    && (forall k, s | 0 <= k < |bodies| && IsMember(program, bodies[k], s) :: Fresh(w, s))
  }

  lemma StillDue(program: seq<Operation>, w: World, bodies: seq<nat>)
    requires IsProgram(program) && Core(program, w) && BodiesRunBut(program, w, {}) && Due(program, w, bodies)
    requires bodies != []
    ensures Core(program, EmitBody(program, w, bodies[0])) && BodiesRunBut(program, EmitBody(program, w, bodies[0]), {})
    ensures Due(program, EmitBody(program, w, bodies[0]), bodies[1..])
    ensures EmitBody(program, w, bodies[0]).tick == w.tick
  {
    var o, rest := bodies[0], bodies[1..];
    EmitBodyKeeps(program, w, o);
    var next := EmitBody(program, w, o);
    forall k, s | 0 <= k < |rest| && IsMember(program, rest[k], s) ensures Fresh(next, s) {
      assert rest[k] == bodies[k + 1];
      if IsMember(program, o, s) {
        OneBody(program, w, o, rest[k], s.patch);
      }
      assert Fresh(w, s);
    }
  }

  lemma {:induction false} EmitBodiesKeep(program: seq<Operation>, w: World, bodies: seq<nat>)
    requires IsProgram(program) && Core(program, w) && BodiesRunBut(program, w, {}) && Due(program, w, bodies)
    ensures Core(program, EmitBodies(program, w, bodies)) && BodiesRunBut(program, EmitBodies(program, w, bodies), {})
    decreases |bodies|
  {
    if bodies != [] {
      StillDue(program, w, bodies);
      EmitBodiesKeep(program, EmitBody(program, w, bodies[0]), bodies[1..]);
    }
  }

  lemma EndKeeps(program: seq<Operation>, w: World)
    requires Core(program, w) && BodiesRunBut(program, w, {})
    ensures Kept(program, EndBoundary(w))
  {
    var next := EndBoundary(w);
    forall s | LifeIn(next.book, s).isSealed && !next.isOver ensures exists d :: EndedBy(program, next, d, s) {
      var d :| EndedBy(program, w, d, s);
      assert EndedBy(program, next, d, s);
    }
    forall s ensures RoundsInOrder(LifeIn(next.book, s), next.tick) && Counts(program, next, s) {
      assert Counts(program, w, s) && RoundsInOrder(LifeIn(w.book, s), w.tick);
      assert forall o :: EmitsInto(program, next, o, s) <==> EmitsInto(program, w, o, s);
      assert forall o ::
        EmitsInto(program, next, o, s) ==> BodyCounts(program, w, o, s) && BodyCounts(program, next, o, s);
    }
  }

  // ---- a command's start

  /** The world in which the command's body has begun. */
  function Begun(program: seq<Operation>, w: World, o: nat): World
    requires o < |program|
  {
    w.(
      book := Bind(w.book, program[o], StreamsOf(program, o)),
      idle := w.idle - PatchSet(program[o]),
      prepared := if program[o].rounds > 0 then w.prepared + PatchSet(program[o]) else w.prepared,
      started := w.started + {o},
      running := w.running[o := Body(0, Offsets(w.book, StreamsOf(program, o)))])
  }

  /** No body runs on a patch of an operation that may start. */
  lemma NoneRuns(program: seq<Operation>, w: World, o: nat, i: nat, patch: nat)
    requires InOrder(program, w) && MayStart(program, w, o) && i in w.running
    ensures !(Runs(program, i, patch) && Runs(program, o, patch))
  {
    if Runs(program, i, patch) && Runs(program, o, patch) {
      Sharing(program, i, o, patch);
      Sharing(program, o, i, patch);
    }
  }

  lemma BeginOrder(program: seq<Operation>, w: World, o: nat)
    requires InOrder(program, w) && MayStart(program, w, o)
    ensures InOrder(program, Begun(program, w, o))
  {
    var next := Begun(program, w, o);
    forall i, j | j in next.started && 0 <= i < j && Shares(program, i, j) ensures i in next.finished {
    }
    forall p, i | p in next.idle && i in next.running ensures !Runs(program, i, p) {
    }
  }

  lemma BeginEach(program: seq<Operation>, w: World, o: nat, s: StreamId)
    requires IsProgram(program) && o < |program|
    ensures LifeIn(Begun(program, w, o).book, s) == (if IsMember(program, o, s) && program[o].emits
      then Given(LifeIn(w.book, s), program[o].rounds) else LifeIn(w.book, s))
    ensures s in Begun(program, w, o).book.lives <==> s in w.book.lives || (program[o].emits && IsMember(program, o, s))
    ensures Holds(Begun(program, w, o).book, s) <==>
      (if OnPatch(StreamsOf(program, o), s.patch) then IsMember(program, o, s) else Holds(w.book, s))
    ensures s.patch in Begun(program, w, o).book.streamOf ==>
              if OnPatch(StreamsOf(program, o), s.patch)
              then Begun(program, w, o).book.streamOf[s.patch].patch == s.patch
              else s.patch in w.book.streamOf && Begun(program, w, o).book.streamOf[s.patch] == w.book.streamOf[s.patch]
  {
    var streams := StreamsOf(program, o);
    AmongDistinct(program, o, program[o].patches);
    BindHolds(w.book, program[o], streams, s.patch);
    BindGives(w.book, program[o], streams, s);
    if s in streams {
      assert OnPatch(streams, s.patch);
      OneOnPatch(streams, s, Begun(program, w, o).book.streamOf[s.patch]);
    }
  }

  lemma BeginHand(program: seq<Operation>, w: World, o: nat)
    requires IsProgram(program) && InOrder(program, w) && InHand(program, w) && SealsMeant(program, w)
    requires MayStart(program, w, o)
    ensures InHand(program, Begun(program, w, o))
  {
    var next := Begun(program, w, o);
    forall p | p in next.book.streamOf ensures next.book.streamOf[p].patch == p {
      BeginEach(program, w, o, StreamId(p, 0));
    }
    forall i, s | i in next.running && IsMember(program, i, s) ensures Holds(next.book, s) {
      BeginEach(program, w, o, s);
      if i == o {
        assert OnPatch(StreamsOf(program, o), s.patch);
      } else {
        NoneRuns(program, w, o, i, s.patch);
      }
    }
    if !next.isOver {
      forall s | Holds(next.book, s) ensures !LifeIn(next.book, s).isSealed {
        BeginEach(program, w, o, s);
        if IsMember(program, o, s) {
          StillOpen(program, w, o, s);
        }
      }
    }
  }

  lemma BeginSeals(program: seq<Operation>, w: World, o: nat)
    requires IsProgram(program) && InOrder(program, w) && SealsMeant(program, w) && MayStart(program, w, o)
    ensures SealsMeant(program, Begun(program, w, o))
  {
    var next := Begun(program, w, o);
    NotFull(program, w, o);
    forall s ensures LifeIn(next.book, s).isSealed == LifeIn(w.book, s).isSealed {
      BeginEach(program, w, o, s);
    }
    forall s | LifeIn(next.book, s).isSealed && !next.isOver ensures exists d :: EndedBy(program, next, d, s) {
      var d :| EndedBy(program, w, d, s);
      assert EndedBy(program, next, d, s);
    }
    forall i, s | i in next.started && IsMember(program, i, s) && program[i].emits ensures s in next.book.lives {
      BeginEach(program, w, o, s);
    }
  }

  lemma BeginOwn(program: seq<Operation>, w: World, o: nat, s: StreamId)
    requires InOrder(program, w) && SealsMeant(program, w) && MayStart(program, w, o) && IsMember(program, o, s)
    requires RoundsInOrder(LifeIn(w.book, s), w.tick) && Counts(program, w, s)
    requires LifeIn(Begun(program, w, o).book, s) ==
      if program[o].emits then Given(LifeIn(w.book, s), program[o].rounds) else LifeIn(w.book, s)
    ensures RoundsInOrder(LifeIn(Begun(program, w, o).book, s), w.tick) && Counts(program, Begun(program, w, o), s)
  {
    var next := Begun(program, w, o);
    TilesGrow(LifeIn(w.book, s).spans, LifeIn(w.book, s).nextRound, program[o].rounds);
    StillOpen(program, w, o, s);
    forall i ensures !EmitsInto(program, w, i, s) {
      if EmitsInto(program, w, i, s) {
        NoneRuns(program, w, o, i, s.patch);
      }
    }
    assert forall i :: EmitsInto(program, next, i, s) ==> i == o;
    assert EmitsInto(program, next, o, s) <==> program[o].emits;
  }

  lemma BeginOther(program: seq<Operation>, w: World, o: nat, s: StreamId)
    requires o < |program| && !IsMember(program, o, s) && o !in w.running
    requires Counts(program, w, s) && LifeIn(Begun(program, w, o).book, s) == LifeIn(w.book, s)
    ensures Counts(program, Begun(program, w, o), s)
  {
    var next := Begun(program, w, o);
    assert forall i :: EmitsInto(program, next, i, s) <==> EmitsInto(program, w, i, s);
    assert forall i :: EmitsInto(program, w, i, s) ==> BodyCounts(program, w, i, s) && BodyCounts(program, next, i, s);
  }

  lemma BeginCounts(program: seq<Operation>, w: World, o: nat, s: StreamId)
    requires IsProgram(program) && Core(program, w) && MayStart(program, w, o)
    ensures RoundsInOrder(LifeIn(Begun(program, w, o).book, s), w.tick) && Counts(program, Begun(program, w, o), s)
  {
    BeginEach(program, w, o, s);
    assert Counts(program, w, s) && RoundsInOrder(LifeIn(w.book, s), w.tick);
    if IsMember(program, o, s) {
      BeginOwn(program, w, o, s);
    } else {
      BeginOther(program, w, o, s);
    }
  }

  lemma BeginCountsAll(program: seq<Operation>, w: World, o: nat)
    requires IsProgram(program) && Kept(program, w) && MayStart(program, w, o)
    ensures forall s ::
      RoundsInOrder(LifeIn(Begun(program, w, o).book, s), w.tick) && Counts(program, Begun(program, w, o), s)
  {
    forall s
      ensures RoundsInOrder(LifeIn(Begun(program, w, o).book, s), w.tick) && Counts(program, Begun(program, w, o), s)
    {
      BeginCounts(program, w, o, s);
    }
  }

  lemma StartKeeps(program: seq<Operation>, w: World, o: nat)
    requires IsProgram(program) && Kept(program, w) && MayStart(program, w, o)
    ensures Core(program, StartCommand(program, w, o)) && BodiesRunBut(program, StartCommand(program, w, o), {})
  {
    var next := Begun(program, w, o);
    BeginOrder(program, w, o);
    BeginHand(program, w, o);
    BeginSeals(program, w, o);
    BeginCountsAll(program, w, o);
    if program[o].rounds == 0 {
      FinishKeeps(program, next, o);
      assert next.running - {o} == w.running - {o};
      assert StartCommand(program, w, o) == Finish(program, next, o);
    } else {
      assert StartCommand(program, w, o) == next;
    }
  }

  // ---- every run

  lemma CrossKeeps(program: seq<Operation>, w: World, tick: nat, idle: seq<nat>, bodies: seq<nat>)
    requires IsProgram(program) && Kept(program, w) && May(program, w, Crosses(tick, idle, bodies))
    ensures Kept(program, Cross(program, w, tick, idle, bodies))
  {
    var next := w.(tick := tick, book := ExtendAll(w.book, idle, tick));
    ExtendKeeps(program, w, tick, idle);
    forall k, s | 0 <= k < |bodies| && IsMember(program, bodies[k], s) ensures Fresh(next, s) {
      assert bodies[k] in bodies;
      assert s.patch !in w.idle;
    }
    EmitBodiesKeep(program, next, bodies);
    EndKeeps(program, EmitBodies(program, next, bodies));
  }

  /** Every boundary and every start keeps what a run keeps. */
  lemma StepKeeps(program: seq<Operation>, w: World, step: Step)
    requires IsProgram(program) && Kept(program, w) && May(program, w, step)
    ensures Kept(program, Take(program, w, step))
  {
    match step
    case Crosses(tick, idle, bodies) => CrossKeeps(program, w, tick, idle, bodies);
    case Starts(o) =>
      StartKeeps(program, w, o);
      EndKeeps(program, StartCommand(program, w, o));
  }

  ghost predicate IsRun(program: seq<Operation>, w: World, steps: seq<Step>)
    decreases |steps|
  {
    steps == [] || (May(program, w, steps[0]) && IsRun(program, Take(program, w, steps[0]), steps[1..]))
  }

  function After(program: seq<Operation>, w: World, steps: seq<Step>): World
    requires IsRun(program, w, steps)
    decreases |steps|
  {
    if steps == [] then w else After(program, Take(program, w, steps[0]), steps[1..])
  }

  lemma {:induction false} EveryRunKeeps(program: seq<Operation>, w: World, steps: seq<Step>)
    requires IsProgram(program) && Kept(program, w) && IsRun(program, w, steps)
    ensures Kept(program, After(program, w, steps))
    decreases |steps|
  {
    if steps != [] {
      StepKeeps(program, w, steps[0]);
      EveryRunKeeps(program, Take(program, w, steps[0]), steps[1..]);
    }
  }

  lemma InitialKept(program: seq<Operation>)
    ensures Kept(program, Initial)
  {
    assert forall s :: LifeIn(Initial.book, s) == NewLife;
  }

  /** In every run a life's stream sends rounds 1, 2, ... in order, each once and no two at one
      tick; the rounds given to segments and idle cycles tile what it counts; and a sealed stream
      has sent every round it counts, at the length its one seal states. */
  lemma EachRoundOnceInOrder(program: seq<Operation>, steps: seq<Step>, s: StreamId)
    requires IsProgram(program) && IsRun(program, Initial, steps)
    ensures var life := LifeIn(After(program, Initial, steps).book, s);
            && (forall i | 0 <= i < |life.sent| :: life.sent[i].round == i + 1)
            && (forall i, j | 0 <= i < j < |life.sent| :: life.sent[i].tick < life.sent[j].tick)
            && Tiles(life.spans, life.nextRound)
            && |life.sent| <= life.nextRound
            && life.seals == (if life.isSealed then [|life.sent|] else [])
  {
    InitialKept(program);
    EveryRunKeeps(program, Initial, steps);
    var w := After(program, Initial, steps);
    assert RoundsInOrder(LifeIn(w.book, s), w.tick);
    CountsAt(program, w, s);
  }

  lemma CountsAt(program: seq<Operation>, w: World, s: StreamId)
    requires Kept(program, w)
    ensures |LifeIn(w.book, s).sent| <= LifeIn(w.book, s).nextRound
    ensures LifeIn(w.book, s).isSealed ==> |LifeIn(w.book, s).sent| == LifeIn(w.book, s).nextRound
  {
    assert Counts(program, w, s);
    if o :| EmitsInto(program, w, o, s) {
      assert BodyCounts(program, w, o, s);
      StillOpen(program, w, o, s);
    }
  }

  /** When the workload is complete, every life with a round to decode is sealed, once. */
  lemma EveryLifeSealedOnce(program: seq<Operation>, steps: seq<Step>, s: StreamId)
    requires IsProgram(program) && IsRun(program, Initial, steps) && IsDecoded(program, s)
    requires After(program, Initial, steps).isOver
    ensures LifeIn(After(program, Initial, steps).book, s).seals ==
      [|LifeIn(After(program, Initial, steps).book, s).sent|]
  {
    EachRoundOnceInOrder(program, steps, s);
    InitialKept(program);
    EveryRunKeeps(program, Initial, steps);
    var w := After(program, Initial, steps);
    var i :| 0 <= i < |program| && IsIn(program, i, s) && program[i].emits;
    AllFinished(program, w, i);
    assert IsMember(program, i, s) && i in w.started;
  }

  // ---- one round a boundary, and none after the seal

  ghost predicate HoldsIdle(w: World, s: StreamId) {
    s.patch in w.idle && Holds(w.book, s)
  }

  /** A body's turn sends one round into each of its streams and none into another's, and
      leaves a sealed stream alone. */
  lemma EmitBodySends(program: seq<Operation>, w: World, o: nat, s: StreamId)
    requires IsProgram(program) && Core(program, w) && BodiesRunBut(program, w, {}) && o < |program| && o in w.running
    requires forall t :: IsMember(program, o, t) ==> Fresh(w, t)
    ensures |LifeIn(EmitBody(program, w, o).book, s).sent| ==
      |LifeIn(w.book, s).sent| + (if EmitsInto(program, w, o, s) then 1 else 0)
    ensures LifeIn(w.book, s).isSealed ==> LifeIn(EmitBody(program, w, o).book, s) == LifeIn(w.book, s)
  {
    RoundSends(program, w, o, s);
    FinishEach(program, RoundRun(program, w, o), o, s);
    if IsMember(program, o, s) {
      StillOpen(program, w, o, s);
    }
  }

  lemma RoundSends(program: seq<Operation>, w: World, o: nat, s: StreamId)
    requires IsProgram(program) && o < |program| && o in w.running
    ensures |LifeIn(RoundRun(program, w, o).book, s).sent| ==
      |LifeIn(w.book, s).sent| + (if EmitsInto(program, w, o, s) then 1 else 0)
    ensures !IsMember(program, o, s) ==> LifeIn(RoundRun(program, w, o).book, s) == LifeIn(w.book, s)
  {
    AmongDistinct(program, o, program[o].patches);
    SendEach(w.book, StreamsOf(program, o), RoundRun(program, w, o).running[o], w.tick, s);
  }

  lemma {:induction false} EmitBodiesSend(program: seq<Operation>, w: World, bodies: seq<nat>, s: StreamId)
    requires IsProgram(program) && Core(program, w) && BodiesRunBut(program, w, {}) && Due(program, w, bodies)
    ensures |LifeIn(EmitBodies(program, w, bodies).book, s).sent| ==
            |LifeIn(w.book, s).sent| +
              (if exists k :: 0 <= k < |bodies| && EmitsInto(program, w, bodies[k], s) then 1 else 0)
    ensures LifeIn(w.book, s).isSealed ==> LifeIn(EmitBodies(program, w, bodies).book, s) == LifeIn(w.book, s)
    decreases |bodies|
  {
    if bodies != [] {
      var o, rest := bodies[0], bodies[1..];
      var next := EmitBody(program, w, o);
      StillDue(program, w, bodies);
      EmitBodyKeeps(program, w, o);
      EmitBodySends(program, w, o, s);
      EmitBodiesSend(program, next, rest, s);
      forall k | 0 <= k < |rest|
        ensures rest[k] == bodies[k + 1]
        ensures EmitsInto(program, next, rest[k], s) <==> EmitsInto(program, w, rest[k], s)
        ensures !(EmitsInto(program, w, o, s) && EmitsInto(program, w, rest[k], s))
      {
        if EmitsInto(program, w, o, s) && EmitsInto(program, w, rest[k], s) {
          OneBody(program, w, o, rest[k], s.patch);
        }
      }
      assert forall k | 0 < k < |bodies| :: bodies[k] == rest[k - 1];
    }
  }

  /** At a boundary a stream sends exactly one round where its patch idles in its life or a body
      emits into it, and none otherwise. */
  lemma OneRoundEachBoundary(
    program: seq<Operation>, w: World, tick: nat, idle: seq<nat>, bodies: seq<nat>, s: StreamId)
    requires IsProgram(program) && Kept(program, w) && May(program, w, Crosses(tick, idle, bodies))
    ensures |LifeIn(Cross(program, w, tick, idle, bodies).book, s).sent| ==
            |LifeIn(w.book, s).sent| + (if HoldsIdle(w, s) || exists o :: EmitsInto(program, w, o, s) then 1 else 0)
    ensures LifeIn(w.book, s).isSealed ==> LifeIn(Cross(program, w, tick, idle, bodies).book, s) == LifeIn(w.book, s)
  {
    var next := w.(tick := tick, book := ExtendAll(w.book, idle, tick));
    ExtendKeeps(program, w, tick, idle);
    ExtendEach(w.book, idle, tick, s);
    forall k, t | 0 <= k < |bodies| && IsMember(program, bodies[k], t) ensures Fresh(next, t) {
      assert bodies[k] in bodies;
      assert t.patch !in w.idle;
    }
    EmitBodiesSend(program, next, bodies, s);
    if o :| EmitsInto(program, w, o, s) {
      assert o in bodies;
      var k :| 0 <= k < |bodies| && bodies[k] == o;
      assert EmitsInto(program, next, bodies[k], s);
      assert !HoldsIdle(w, s);
    } else {
      forall k | 0 <= k < |bodies| ensures !EmitsInto(program, next, bodies[k], s) {
        assert EmitsInto(program, next, bodies[k], s) <==> EmitsInto(program, w, bodies[k], s);
      }
    }
  }

  /** A sealed stream is given and sends nothing more, and is not sealed again. */
  lemma NothingAfterSeal(program: seq<Operation>, w: World, step: Step, s: StreamId)
    requires IsProgram(program) && Kept(program, w) && May(program, w, step) && LifeIn(w.book, s).isSealed
    ensures LifeIn(Take(program, w, step).book, s) == LifeIn(w.book, s)
  {
    match step
    case Crosses(tick, idle, bodies) => OneRoundEachBoundary(program, w, tick, idle, bodies, s);
    case Starts(o) => StartLeaves(program, w, o, s);
  }

  lemma StartLeaves(program: seq<Operation>, w: World, o: nat, s: StreamId)
    requires IsProgram(program) && InOrder(program, w) && SealsMeant(program, w) && MayStart(program, w, o)
    requires LifeIn(w.book, s).isSealed
    ensures LifeIn(StartCommand(program, w, o).book, s) == LifeIn(w.book, s)
  {
    if IsMember(program, o, s) {
      StillOpen(program, w, o, s);
      assert false;
    } else {
      BeginEach(program, w, o, s);
      FinishEach(program, Begun(program, w, o), o, s);
      NotRunning(program, w, o);
      assert Begun(program, w, o).running - {o} == w.running - {o};
      assert program[o].rounds == 0 ==> StartCommand(program, w, o) == Finish(program, Begun(program, w, o), o);
      assert program[o].rounds != 0 ==> StartCommand(program, w, o) == Begun(program, w, o);
    }
  }

  lemma NotRunning(program: seq<Operation>, w: World, o: nat)
    requires InOrder(program, w) && MayStart(program, w, o)
    ensures o !in w.running && w.running - {o} == w.running
  {
  }

  /** The stream a discard seals is the one its patch holds, so taking it from the patch never fails. */
  lemma DiscardFindsItsStream(program: seq<Operation>, w: World, o: nat, s: StreamId)
    requires Core(program, w) && o in w.running && IsMember(program, o, s)
    ensures s.patch in w.book.streamOf && w.book.streamOf[s.patch] == s && !LifeIn(w.book, s).isSealed
  {
    StillOpen(program, w, o, s);
    assert Holds(w.book, s);
  }
}
