/** Each patch life as one decode stream: the program's lives, the stream each patch extends,
    and the cycle clock that emits a round of every live patch at each boundary.
 */
module PatchLives {

  /** An operation, known by its place in the program. */
  datatype Operation = Operation(patches: seq<nat>, rounds: nat, emits: bool, discards: bool)

  datatype StreamId = StreamId(patch: nat, life: nat)

  /** Rounds given at once: a segment's, or one idle round. */
  datatype Span = Span(first: nat, last: nat)

  datatype Readout = Readout(round: nat, tick: nat)

  /** A life's counter and seal, and what the windows and the QPU were told of it. */
  datatype Life = Life(nextRound: nat, isSealed: bool, spans: seq<Span>, sent: seq<Readout>, seals: seq<nat>)

  const NewLife: Life := Life(0, false, [], [], [])

  datatype Book = Book(streamOf: map<nat, StreamId>, lives: map<StreamId, Life>)

  predicate IsProgram(program: seq<Operation>) {
    forall i | 0 <= i < |program| ::
      (forall m, n | 0 <= m < n < |program[i].patches| :: program[i].patches[m] != program[i].patches[n])
      && (program[i].emits ==> program[i].rounds > 0)
  }

  predicate Runs(program: seq<Operation>, i: nat, patch: nat) {
    i < |program| && patch in program[i].patches
  }

  /** The lives of the patch that discards ended before the operation. */
  function LifeOf(program: seq<Operation>, i: nat, patch: nat): nat
    requires i <= |program|
  {
    if i == 0 then 0
    else LifeOf(program, i - 1, patch) + (if program[i - 1].discards && Runs(program, i - 1, patch) then 1 else 0)
  }

  predicate IsIn(program: seq<Operation>, i: nat, s: StreamId) {
    Runs(program, i, s.patch) && LifeOf(program, i, s.patch) == s.life
  }

  /** A life whose operations emit nothing has no stream. */
  predicate IsDecoded(program: seq<Operation>, s: StreamId) {
    exists i | 0 <= i < |program| :: IsIn(program, i, s) && program[i].emits
  }

  predicate IsMember(program: seq<Operation>, i: nat, s: StreamId) {
    IsIn(program, i, s) && IsDecoded(program, s)
  }

  function StreamsAmong(program: seq<Operation>, i: nat, patches: seq<nat>): (streams: seq<StreamId>)
    requires i < |program|
    ensures forall s ::
      s in streams <==> s.patch in patches && LifeOf(program, i, s.patch) == s.life && IsDecoded(program, s)
  {
    if patches == [] then []
    else
      var s := StreamId(patches[0], LifeOf(program, i, patches[0]));
      var rest := StreamsAmong(program, i, patches[1..]);
      assert forall p :: p in patches <==> p == patches[0] || p in patches[1..];
      if IsDecoded(program, s) then [s] + rest else rest
  }

  /** The streams of the lives the operation runs in. */
  function StreamsOf(program: seq<Operation>, i: nat): (streams: seq<StreamId>)
    requires i < |program|
    ensures forall s :: s in streams <==> IsMember(program, i, s)
  {
    StreamsAmong(program, i, program[i].patches)
  }

  function LifeIn(book: Book, s: StreamId): Life {
    if s in book.lives then book.lives[s] else NewLife
  }

  function Given(life: Life, rounds: nat): Life {
    life.(nextRound := life.nextRound + rounds,
      spans := life.spans + [Span(life.nextRound + 1, life.nextRound + rounds)])
  }

  function Sent(life: Life, round: nat, tick: nat): Life {
    life.(sent := life.sent + [Readout(round, tick)])
  }

  function Closed(life: Life): Life {
    life.(isSealed := true, seals := life.seals + [life.nextRound])
  }

  /** The patch measures in its life from now on; a body that emits nothing adds no round. */
  function Bound(book: Book, operation: Operation, s: StreamId): Book {
    Book(
      book.streamOf[s.patch := s],
      if operation.emits then book.lives[s := Given(LifeIn(book, s), operation.rounds)] else book.lives)
  }

  /** The operation's body becomes a segment of each of its streams, at the stream's next round. */
  function Bind(book: Book, operation: Operation, streams: seq<StreamId>): (after: Book)
    decreases |streams|
  {
    if streams == [] then book else Bind(Bound(book, operation, streams[0]), operation, streams[1..])
  }

  /** One more round for the life the patch is in, sent at once. */
  function Extend(book: Book, patch: nat, tick: nat): (after: Book)
    ensures after.streamOf == book.streamOf
  {
    if patch !in book.streamOf then book
    else
      var s := book.streamOf[patch];
      var life := Given(LifeIn(book, s), 1);
      book.(lives := book.lives[s := Sent(life, life.nextRound, tick)])
  }

  function ExtendAll(book: Book, patches: seq<nat>, tick: nat): (after: Book)
    ensures after.streamOf == book.streamOf
    decreases |patches|
  {
    if patches == [] then book else ExtendAll(Extend(book, patches[0], tick), patches[1..], tick)
  }

  function Ended(book: Book, s: StreamId): Book {
    Book(book.streamOf - {s.patch}, book.lives[s := Closed(LifeIn(book, s))])
  }

  /** A discard ends its patches' lives. */
  function Close(book: Book, streams: seq<StreamId>): (after: Book)
    decreases |streams|
  {
    if streams == [] then book
    else Close(Ended(book, streams[0]), streams[1..])
  }

  /** The workload is complete: every life no discard ended is sealed. */
  function SealFinished(book: Book): Book {
    book.(lives := map s | s in book.lives :: if book.lives[s].isSealed then book.lives[s] else Closed(book.lives[s]))
  }

  // ---- what the folds come to, stream by stream

  ghost predicate DistinctPatches(streams: seq<StreamId>) {
    forall m, n | 0 <= m < n < |streams| :: streams[m].patch != streams[n].patch
  }

  lemma {:induction false} AmongDistinct(program: seq<Operation>, i: nat, patches: seq<nat>)
    requires i < |program|
    requires forall m, n | 0 <= m < n < |patches| :: patches[m] != patches[n]
    ensures DistinctPatches(StreamsAmong(program, i, patches))
  {
    if patches != [] {
      AmongDistinct(program, i, patches[1..]);
      assert patches[0] !in patches[1..];
    }
  }

  ghost predicate OnPatch(streams: seq<StreamId>, patch: nat) {
    exists s :: s in streams && s.patch == patch
  }

  lemma HeadOrRest(streams: seq<StreamId>, patch: nat)
    requires streams != []
    ensures forall t :: t in streams <==> t == streams[0] || t in streams[1..]
    ensures OnPatch(streams, patch) <==> streams[0].patch == patch || OnPatch(streams[1..], patch)
  {
    assert streams == [streams[0]] + streams[1..];
    assert streams[0] in streams;
  }

  /** Each patch of the streams holds its stream; every other holds what it held. */
  lemma {:induction false} BindHolds(book: Book, operation: Operation, streams: seq<StreamId>, patch: nat)
    requires DistinctPatches(streams)
    ensures !OnPatch(streams, patch) ==>
              (patch in Bind(book, operation, streams).streamOf <==> patch in book.streamOf)
    ensures !OnPatch(streams, patch) && patch in book.streamOf ==>
      Bind(book, operation, streams).streamOf[patch] == book.streamOf[patch]
    ensures OnPatch(streams, patch) ==>
      patch in Bind(book, operation, streams).streamOf && Bind(book, operation, streams).streamOf[patch] in streams
                                        && Bind(book, operation, streams).streamOf[patch].patch == patch
    decreases |streams|
  {
    if streams != [] {
      HeadOrRest(streams, patch);
      BindHolds(Bound(book, operation, streams[0]), operation, streams[1..], patch);
    }
  }

  lemma OneOnPatch(streams: seq<StreamId>, s: StreamId, t: StreamId)
    requires DistinctPatches(streams) && s in streams && t in streams && s.patch == t.patch
    ensures s == t
  {
  }

  /** Each stream is given the segment's rounds, and no other stream any. */
  lemma {:induction false} BindGives(book: Book, operation: Operation, streams: seq<StreamId>, s: StreamId)
    requires DistinctPatches(streams)
    ensures LifeIn(Bind(book, operation, streams), s) ==
      (if s in streams && operation.emits then Given(LifeIn(book, s), operation.rounds) else LifeIn(book, s))
    ensures s in Bind(book, operation, streams).lives <==> s in book.lives || (operation.emits && s in streams)
    decreases |streams|
  {
    if streams != [] {
      HeadOrRest(streams, s.patch);
      assert streams[0] == s ==> s !in streams[1..];
      BindGives(Bound(book, operation, streams[0]), operation, streams[1..], s);
    }
  }

  ghost predicate Holds(book: Book, s: StreamId) {
    s.patch in book.streamOf && book.streamOf[s.patch] == s
  }

  /** Each patch's stream is extended by one round, and no other stream by any. */
  lemma {:induction false} ExtendEach(book: Book, patches: seq<nat>, tick: nat, s: StreamId)
    requires forall m, n | 0 <= m < n < |patches| :: patches[m] != patches[n]
    requires forall p :: p in book.streamOf ==> book.streamOf[p].patch == p
    ensures LifeIn(ExtendAll(book, patches, tick), s) ==
            (if s.patch in patches && Holds(book, s)
              then Sent(Given(LifeIn(book, s), 1), LifeIn(book, s).nextRound + 1, tick) else LifeIn(book, s))
    ensures s in ExtendAll(book, patches, tick).lives <==> s in book.lives || (s.patch in patches && Holds(book, s))
    decreases |patches|
  {
    if patches != [] {
      var p, rest := patches[0], patches[1..];
      assert forall q :: q in patches <==> q == p || q in rest;
      assert p !in rest;
      ExtendEach(Extend(book, p, tick), rest, tick, s);
    }
  }

  /** Each stream is sealed once and its patch holds none; every other is as it was. */
  lemma {:induction false} CloseEach(book: Book, streams: seq<StreamId>, s: StreamId)
    requires DistinctPatches(streams)
    ensures LifeIn(Close(book, streams), s) == (if s in streams then Closed(LifeIn(book, s)) else LifeIn(book, s))
    ensures s in Close(book, streams).lives <==> s in book.lives || s in streams
    ensures s.patch in Close(book, streams).streamOf <==> s.patch in book.streamOf && !OnPatch(streams, s.patch)
    ensures s.patch in Close(book, streams).streamOf ==>
      Close(book, streams).streamOf[s.patch] == book.streamOf[s.patch]
    decreases |streams|
  {
    if streams != [] {
      HeadOrRest(streams, s.patch);
      assert streams[0] == s ==> s !in streams[1..];
      CloseEach(Ended(book, streams[0]), streams[1..], s);
    }
  }

  // ---- spans that tile

  predicate Tiles(spans: seq<Span>, rounds: nat) {
    if spans == [] then rounds == 0
    else
      var last := spans[|spans| - 1];
      last.last == rounds && 1 <= last.first <= rounds + 1 && Tiles(spans[..|spans| - 1], last.first - 1)
  }

  lemma TilesGrow(spans: seq<Span>, rounds: nat, more: nat)
    requires Tiles(spans, rounds)
    ensures Tiles(spans + [Span(rounds + 1, rounds + more)], rounds + more)
  {
    var all := spans + [Span(rounds + 1, rounds + more)];
    assert all[..|all| - 1] == spans;
  }

  ghost predicate Covers(spans: seq<Span>, k: int, round: nat) {
    0 <= k < |spans| && spans[k].first <= round <= spans[k].last
  }

  /** Every round from the first to the last is given once, and none beyond. */
  lemma {:induction false} EachRoundGivenOnce(spans: seq<Span>, rounds: nat, round: nat)
    requires Tiles(spans, rounds)
    ensures (exists k :: Covers(spans, k, round)) <==> 1 <= round <= rounds
    ensures forall k, m :: Covers(spans, k, round) && Covers(spans, m, round) ==> k == m
    ensures forall k, m | 0 <= k < m < |spans| :: spans[k].last < spans[m].first
    ensures forall k | 0 <= k < |spans| :: 1 <= spans[k].first && spans[k].last <= rounds
    decreases |spans|
  {
    if spans != [] {
      var end := |spans| - 1;
      var last, before := spans[end], spans[..end];
      EachRoundGivenOnce(before, last.first - 1, round);
      forall k | 0 <= k < end ensures before[k] == spans[k] {
      }
      if 1 <= round < last.first {
        var k :| Covers(before, k, round);
        assert Covers(spans, k, round);
      }
      if last.first <= round <= rounds {
        assert Covers(spans, end, round);
      }
      forall k | Covers(spans, k, round) ensures 1 <= round <= rounds && (k < end ==> Covers(before, k, round)) {
      }
    }
  }
}
