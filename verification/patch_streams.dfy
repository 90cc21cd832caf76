/** The patch streams as an object: which stream each patch extends and how far each life is.
    Each method leaves the book the function of PatchLives gives.
 */
module PatchStreamObjects {
  import opened PatchLives

  /** A stream and the round it had reached when a body was bound to it. */
  datatype Segment = Segment(stream: StreamId, offset: nat)

  lemma BindOne(book: Book, operation: Operation, streams: seq<StreamId>, n: nat)
    requires n < |streams| && DistinctPatches(streams)
    ensures Bind(book, operation, streams[n..]) == Bind(Bound(book, operation, streams[n]), operation, streams[n + 1..])
    ensures forall m | n < m < |streams| ::
      LifeIn(Bound(book, operation, streams[n]), streams[m]) == LifeIn(book, streams[m])
  {
    assert streams[n..][0] == streams[n] && streams[n..][1..] == streams[n + 1..];
    assert forall m | n < m < |streams| :: streams[n].patch != streams[m].patch;
  }

  lemma CloseOne(book: Book, streams: seq<StreamId>, n: nat)
    requires n < |streams| && DistinctPatches(streams)
    ensures Close(book, streams[n..]) == Close(Ended(book, streams[n]), streams[n + 1..])
    ensures forall m | n < m < |streams| :: Holds(book, streams[m]) ==> Holds(Ended(book, streams[n]), streams[m])
  {
    assert streams[n..][0] == streams[n] && streams[n..][1..] == streams[n + 1..];
    assert forall m | n < m < |streams| :: streams[n].patch != streams[m].patch;
  }

  class PatchStreams {
    const program: seq<Operation>
    var streamByPatch: map<nat, StreamId>
    var lives: map<StreamId, Life>

    constructor (program: seq<Operation>)
      ensures this.program == program && Value() == Book(map[], map[])
    {
      this.program := program;
      streamByPatch, lives := map[], map[];
    }

    function Value(): Book
      reads this
    {
      Book(streamByPatch, lives)
    }

    /** The patch measures in the life from now on; where its stream stood. */
    method BindTheStream(o: nat, s: StreamId) returns (offset: nat)
      requires o < |program|
      modifies this
      ensures Value() == Bound(old(Value()), program[o], s) && offset == LifeIn(old(Value()), s).nextRound
    {
      var live := LifeIn(Value(), s);
      offset := live.nextRound;
      streamByPatch := streamByPatch[s.patch := s];
      if program[o].emits {
        lives := lives[s := Given(live, program[o].rounds)];
      }
    }

    /** A segment of each patch stream, where each stream stood; a body with no data takes none. */
    method BindAtStart(o: nat) returns (segments: seq<Segment>)
      requires IsProgram(program) && o < |program|
      modifies this
      ensures Value() == Bind(old(Value()), program[o], StreamsOf(program, o))
      ensures |segments| == if program[o].emits then |StreamsOf(program, o)| else 0
      ensures forall k | 0 <= k < |segments| ::
        segments[k] == Segment(StreamsOf(program, o)[k], LifeIn(old(Value()), StreamsOf(program, o)[k]).nextRound)
    {
      var streams := StreamsOf(program, o);
      AmongDistinct(program, o, program[o].patches);
      assert streams[0..] == streams;
      segments := [];
      var n := 0;
      while n < |streams|
        invariant n <= |streams|
        invariant Bind(Value(), program[o], streams[n..]) == Bind(old(Value()), program[o], streams)
        invariant forall m | n <= m < |streams| :: LifeIn(Value(), streams[m]) == LifeIn(old(Value()), streams[m])
        invariant |segments| == if program[o].emits then n else 0
        invariant forall k | 0 <= k < |segments| ::
          segments[k] == Segment(streams[k], LifeIn(old(Value()), streams[k]).nextRound)
      {
        BindOne(Value(), program[o], streams, n);
        var offset := BindTheStream(o, streams[n]);
        if program[o].emits {
          segments := segments + [Segment(streams[n], offset)];
        }
        n := n + 1;
      }
    }

    /** A discard ends its patches' lives; each is the one its patch holds. */
    method RequestCloses(o: nat)
      requires IsProgram(program) && o < |program|
      requires program[o].discards ==> forall s | s in StreamsOf(program, o) :: Holds(Value(), s)
      modifies this
      ensures Value() == if program[o].discards then Close(old(Value()), StreamsOf(program, o)) else old(Value())
    {
      if !program[o].discards {
        return;
      }
      var streams := StreamsOf(program, o);
      AmongDistinct(program, o, program[o].patches);
      assert streams[0..] == streams;
      var n := 0;
      while n < |streams|
        invariant n <= |streams|
        invariant forall m | n <= m < |streams| :: Holds(Value(), streams[m])
        invariant Close(Value(), streams[n..]) == Close(old(Value()), streams)
      {
        var s := streams[n];
        CloseOne(Value(), streams, n);
        assert s.patch in streamByPatch;
        ghost var before := Value();
        streamByPatch := streamByPatch - {s.patch};
        Seal(s);
        assert Value() == Ended(before, s);
        n := n + 1;
      }
    }

    method Seal(s: StreamId)
      modifies this`lives
      ensures lives == old(lives)[s := Closed(LifeIn(old(Value()), s))]
    {
      lives := lives[s := Closed(LifeIn(Value(), s))];
    }

    /** Every life no discard ended is sealed, at what it counts. */
    method SealFinishedStreams()
      modifies this`lives
      ensures Value() == SealFinished(old(Value()))
    {
      var left := lives.Keys;
      while left != {}
        invariant left <= lives.Keys == old(lives).Keys
        invariant forall s | s in lives ::
          lives[s] == if s in left || old(lives)[s].isSealed then old(lives)[s] else Closed(old(lives)[s])
        decreases left
      {
        var s :| s in left;
        if !lives[s].isSealed {
          Seal(s);
        }
        left := left - {s};
      }
      assert lives == SealFinished(old(Value())).lives;
    }

    /** One more round for the life the patch is in; false when it is in none that is decoded. */
    method ExtendLiveStream(patch: nat, tick: nat) returns (isExtended: bool)
      modifies this`lives
      ensures isExtended == (patch in old(streamByPatch))
      ensures Value() == Extend(old(Value()), patch, tick)
    {
      if patch !in streamByPatch {
        return false;
      }
      var s := streamByPatch[patch];
      var live := Given(LifeIn(Value(), s), 1);
      lives := lives[s := Sent(live, live.nextRound, tick)];
      return true;
    }
  }
}
