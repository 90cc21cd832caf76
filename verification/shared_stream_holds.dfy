/** The shared streams as an object: live streams, bindings and holds, each changed in place.
    Each method leaves the book the function of SharedStreams gives.
 */
module SharedStreamObjects {
  import opened Options
  import opened SharedStreams

  class FeedbackStreams {
    const table: Table
    var lives: map<nat, Live>
    var bindings: map<nat, Binding>
    var streamByPatch: map<nat, nat>

    constructor (table: Table)
      ensures this.table == table && Value() == Empty
    {
      this.table := table;
      lives, bindings, streamByPatch := map[], map[], map[];
    }

    function Value(): Book
      reads this
    {
      Book(lives, bindings, streamByPatch)
    }

    function LiveStream(stream: nat): Live
      reads this
    {
      if stream in lives then lives[stream] else NewLive
    }

    /** The segment takes its rounds at the offset it declares, unless they are taken. */
    method ReserveStreamRounds(operation: Operation) returns (refusal: Option<Refusal>)
      modifies this`lives
      ensures match Reserve(old(Value()), operation)
              case Done(book) => refusal == None && Value() == book
              case Refused(why) => refusal == Some(why) && Value() == old(Value())
    {
      var stream, offset := DeclaredStream(Value(), operation), DeclaredOffset(Value(), operation);
      if stream.None? {
        return None;
      }
      var live := LiveStream(stream.value);
      if operation.finalizes {
        if offset.None? || offset.value + 1 != live.nextRound {
          return Some(OffBoundary);
        }
        return None;
      }
      if offset.None? {
        return None;
      }
      if offset.value < live.nextRound {
        return Some(AlreadyReserved);
      }
      lives := lives[stream.value :=
        Give(live, offset.value, operation.rounds, Segment(operation.id)).(pending := Some(operation.id))];
      return None;
    }

    /** Each member that holds the stream lets it go. */
    method ReleaseTheGroup(stream: nat, group: seq<nat>)
      modifies this`lives, this`streamByPatch
      ensures Value() == ReleaseGroup(old(Value()), stream, group)
    {
      var n := 0;
      while n < |group|
        invariant n <= |group| && lives == old(lives)
        invariant forall p ::
          p in streamByPatch <==> p in old(streamByPatch) && !(p in group[..n] && old(streamByPatch)[p] == stream)
        invariant forall p :: p in streamByPatch ==> streamByPatch[p] == old(streamByPatch)[p]
      {
        assert group[..n + 1] == group[..n] + [group[n]];
        if group[n] in streamByPatch && streamByPatch[group[n]] == stream {
          streamByPatch := streamByPatch - {group[n]};
        }
        n := n + 1;
      }
      assert group[..n] == group;
      lives := lives[stream := LiveStream(stream).(isSplit := true)];
      assert streamByPatch == ReleaseGroup(old(Value()), stream, group).streamOf;
    }

    method ReleaseSplitGroups(patches: seq<nat>)
      modifies this`lives, this`streamByPatch
      ensures Value() == ReleaseSplit(table, old(Value()), patches, patches)
    {
      assert patches[0..] == patches;
      for n := 0 to |patches|
        invariant bindings == old(bindings)
        invariant ReleaseSplit(table, Value(), patches, patches[n..]) ==
          ReleaseSplit(table, old(Value()), patches, patches)
      {
        var p := patches[n];
        assert patches[n..][0] == p && patches[n..][1..] == patches[n + 1..];
        if SplitsGroup(table, Value(), patches, p) {
          ReleaseTheGroup(streamByPatch[p], table.groupOf(streamByPatch[p]));
        }
      }
    }

    method EndPendingSegments(patches: seq<nat>)
      modifies this`lives
      ensures Value() == EndPending(old(Value()), patches)
    {
      assert patches[0..] == patches;
      for n := 0 to |patches|
        invariant EndPending(Value(), patches[n..]) == EndPending(old(Value()), patches)
      {
        assert patches[n..][0] == patches[n] && patches[n..][1..] == patches[n + 1..];
        if patches[n] in streamByPatch {
          var stream := streamByPatch[patches[n]];
          lives := lives[stream := LiveStream(stream).(pending := None)];
        }
      }
    }

    /** The operation's patches hold its stream, or none when its rounds are its own history. */
    method HoldThePatches(operation: Operation, feeds: Option<nat>)
      modifies this`lives, this`streamByPatch
      ensures Value() == HoldPatches(table, old(Value()), operation, feeds)
    {
      ReleaseSplitGroups(operation.patches);
      ghost var split := Value();
      var stream := if feeds.Some? then feeds else DeclaredStream(Value(), operation);
      if stream.Some? {
        SetHolds(operation.patches, stream.value);
        lives := lives[stream.value := LiveStream(stream.value).(isSplit := false)];
        assert streamByPatch == HoldPatches(table, old(Value()), operation, feeds).streamOf;
        return;
      }
      EndPendingSegments(operation.patches);
      if operation.emits {
        ClearHolds(operation.patches);
      }
    }

    method SetHolds(patches: seq<nat>, stream: nat)
      modifies this`streamByPatch
      ensures streamByPatch == map p | p in old(streamByPatch).Keys + (set q | q in patches) ::
        if p in patches then stream else old(streamByPatch)[p]
    {
      var n := 0;
      while n < |patches|
        invariant n <= |patches|
        invariant forall p :: p in streamByPatch <==> p in old(streamByPatch) || p in patches[..n]
        invariant forall p ::
          p in streamByPatch ==> streamByPatch[p] == if p in patches[..n] then stream else old(streamByPatch)[p]
      {
        assert patches[..n + 1] == patches[..n] + [patches[n]];
        streamByPatch := streamByPatch[patches[n] := stream];
        n := n + 1;
      }
      assert patches[..n] == patches;
    }

    method ClearHolds(patches: seq<nat>)
      modifies this`streamByPatch
      ensures streamByPatch == map p | p in old(streamByPatch) && p !in patches :: old(streamByPatch)[p]
    {
      var n := 0;
      while n < |patches|
        invariant n <= |patches|
        invariant forall p :: p in streamByPatch <==> p in old(streamByPatch) && p !in patches[..n]
        invariant forall p :: p in streamByPatch ==> streamByPatch[p] == old(streamByPatch)[p]
      {
        assert patches[..n + 1] == patches[..n] + [patches[n]];
        streamByPatch := streamByPatch - {patches[n]};
        n := n + 1;
      }
      assert patches[..n] == patches;
    }

    /** A continuation takes its stream's next rounds as it starts. */
    method StartsAt(operation: Operation, feeds: Option<nat>) returns (refusal: Option<Refusal>)
      modifies this`lives, this`bindings
      ensures match BindAtStart(old(Value()), operation, feeds)
              case Done(book) => refusal == None && Value() == book
              case Refused(why) => refusal == Some(why) && Value() == old(Value())
    {
      if feeds.Some? {
        refusal := CheckBinding(Value(), operation, feeds.value);
        if refusal.None? {
          bindings := bindings[operation.id := Binding(feeds.value, LiveStream(feeds.value).nextRound)];
        }
        return;
      }
      if operation.stream.None? || operation.offset.Some? {
        return None;
      }
      var stream := operation.stream.value;
      var live := LiveStream(stream);
      bindings := bindings[operation.id := Binding(stream, live.nextRound)];
      lives := lives[stream := Give(live, live.nextRound, operation.rounds, Segment(operation.id)).(pending := None)];
      return None;
    }

    /** The stream the idle patch holds advances once a tick, when its whole group is idle. */
    method ExtendLiveStream(
      operation: nat, patch: nat, tick: nat, isGroupIdle: bool) returns (isExtended: bool, refusal: Option<Refusal>)
      modifies this`lives
      ensures match Extend(table, old(Value()), operation, patch, tick, isGroupIdle)
              case Extends(book) => isExtended && refusal == None && Value() == book
              case Leaves => !isExtended && refusal == None && Value() == old(Value())
              case Fails(why) => !isExtended && refusal == Some(why) && Value() == old(Value())
    {
      var held := HeldAfter(Value(), operation, patch);
      if held.None? || !table.isDynamic(held.value) {
        return false, None;
      }
      var live := LiveStream(held.value);
      if live.lastEmission == Some(tick) {
        return true, None;
      }
      if table.limitOf(held.value).Some? && live.nextRound >= table.limitOf(held.value).value {
        return false, None;
      }
      if !isGroupIdle {
        return false, if live.isSplit then None else Some(PartlyIdle);
      }
      lives := lives[held.value := Give(live, live.nextRound, 1, IdleCycle(tick)).(lastEmission := Some(tick))];
      return true, None;
    }
  }
}
