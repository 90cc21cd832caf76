/** What each step does to the shared streams: which patches hold which stream after an operation is
    issued, when a segment is refused, and which idle cycles continue a stream.
 */
module SharedStreamSteps {
  import opened Options
  import opened SharedStreams

  function HeldBy(book: Book, patch: nat): Option<nat> {
    if patch in book.streamOf then Some(book.streamOf[patch]) else None
  }

  // ---------------------------------------------------------- issuing: holds

  /** The claim takes some, not all, of the patches of a dynamic stream that a claimed patch holds. */
  ghost predicate IsSplitBy(table: Table, book: Book, patches: seq<nat>, stream: nat) {
    && table.isDynamic(stream) && !Includes(patches, table.groupOf(stream))
    && exists p :: p in patches && HeldBy(book, p) == Some(stream)
  }

  lemma {:induction false} MarkStays(table: Table, book: Book, patches: seq<nat>, left: seq<nat>, stream: nat)
    ensures LiveOf(book, stream).isSplit ==> LiveOf(ReleaseSplit(table, book, patches, left), stream).isSplit
    decreases |left|
  {
    if left != [] {
      var p := left[0];
      var next :=
        if SplitsGroup(table, book, patches, p)
        then ReleaseGroup(book, book.streamOf[p], table.groupOf(book.streamOf[p]))
        else book;
      MarkStays(table, next, patches, left[1..], stream);
    }
  }

  lemma {:induction false} SplitMarks(
    table: Table, book: Book, patches: seq<nat>, left: seq<nat>, claimed: nat, stream: nat)
    requires claimed in left && HeldBy(book, claimed) == Some(stream)
    requires table.isDynamic(stream) && !Includes(patches, table.groupOf(stream))
    ensures LiveOf(ReleaseSplit(table, book, patches, left), stream).isSplit
    decreases |left|
  {
    var q := left[0];
    var isSplit := SplitsGroup(table, book, patches, q);
    var next := if isSplit then ReleaseGroup(book, book.streamOf[q], table.groupOf(book.streamOf[q])) else book;
    if isSplit && book.streamOf[q] == stream {
      MarkStays(table, next, patches, left[1..], stream);
    } else {
      assert claimed != q && claimed in left[1..];
      SplitMarks(table, next, patches, left[1..], claimed, stream);
    }
  }

  /** A patch keeps what it holds, unless the claim splits its stream's group. */
  lemma {:induction false} SplitKeepsOthers(table: Table, book: Book, patches: seq<nat>, left: seq<nat>, p: nat)
    requires forall q :: q in left ==> q in patches
    ensures var next := ReleaseSplit(table, book, patches, left);
      || HeldBy(next, p) == HeldBy(book, p)
      || (HeldBy(next, p).None? && HeldBy(book, p).Some? &&
          IsSplitBy(table, book, patches, HeldBy(book, p).value))
    decreases |left|
  {
    if left != [] {
      var q := left[0];
      var next :=
        if SplitsGroup(table, book, patches, q)
        then ReleaseGroup(book, book.streamOf[q], table.groupOf(book.streamOf[q]))
        else book;
      SplitKeepsOthers(table, next, patches, left[1..], p);
      if SplitsGroup(table, book, patches, q) {
        assert q in patches && HeldBy(book, q) == Some(book.streamOf[q]);
        assert IsSplitBy(table, book, patches, book.streamOf[q]);
      }
      if HeldBy(next, p).Some? && IsSplitBy(table, next, patches, HeldBy(next, p).value) {
        var r :| r in patches && HeldBy(next, r) == HeldBy(next, p);
        assert HeldBy(book, r) == HeldBy(next, r);
      }
    }
  }

  /** The stream an operation's patches hold after it: the protected one it feeds, else its own. */
  function StreamFor(book: Book, operation: Operation, feeds: Option<nat>): Option<nat> {
    if feeds.Some? then feeds else DeclaredStream(book, operation)
  }

  /** What an operation's patches hold once it is issued: its stream, whole again; with no stream,
      nothing if it emits detectors, and else what they held. */
  ghost predicate HoldsAfter(table: Table, book: Book, operation: Operation, feeds: Option<nat>, next: Book, p: nat) {
    var stream := StreamFor(book, operation, feeds);
    if p in operation.patches then
      if stream.Some? then HeldBy(next, p) == stream && !LiveOf(next, stream.value).isSplit
      else if operation.emits then HeldBy(next, p).None?
      else KeepsHold(table, book, operation.patches, next, p)
    else KeepsHold(table, book, operation.patches, next, p)
  }

  ghost predicate KeepsHold(table: Table, book: Book, patches: seq<nat>, next: Book, p: nat) {
    || HeldBy(next, p) == HeldBy(book, p)
    || (HeldBy(next, p).None? && HeldBy(book, p).Some? && IsSplitBy(table, book, patches, HeldBy(book, p).value))
  }

  lemma {:induction false} EndsPending(book: Book, patches: seq<nat>, p: nat)
    ensures EndPending(book, patches).streamOf == book.streamOf
    ensures EndPending(book, patches).bindings == book.bindings
    ensures forall s :: LiveOf(book, s).pending.None? ==> LiveOf(EndPending(book, patches), s).pending.None?
    ensures p in patches && p in book.streamOf ==> LiveOf(EndPending(book, patches), book.streamOf[p]).pending.None?
    decreases |patches|
  {
    if patches != [] {
      var next :=
        if patches[0] in book.streamOf
        then Put(book, book.streamOf[patches[0]], LiveOf(book, book.streamOf[patches[0]]).(pending := None))
        else book;
      EndsPending(next, patches[1..], p);
    }
  }

  /** Who holds what after an operation is issued. */
  lemma HoldsAsMeant(table: Table, book: Book, operation: Operation, feeds: Option<nat>, p: nat)
    ensures HoldsAfter(table, book, operation, feeds, HoldPatches(table, book, operation, feeds), p)
  {
    var split := ReleaseSplit(table, book, operation.patches, operation.patches);
    SplitKeepsOthers(table, book, operation.patches, operation.patches, p);
    SplitGivesNothing(table, book, operation.patches, operation.patches, 0);
    EndsPending(split, operation.patches, p);
  }

  /** An operation with no stream of its own ends the wait of the stream each of its patches holds. */
  lemma ClaimEndsPending(table: Table, book: Book, operation: Operation, p: nat)
    requires DeclaredStream(book, operation).None? && p in operation.patches
    ensures var held := HeldBy(ReleaseSplit(table, book, operation.patches, operation.patches), p);
      held.Some? ==> LiveOf(HoldPatches(table, book, operation, None), held.value).pending.None?
  {
    var split := ReleaseSplit(table, book, operation.patches, operation.patches);
    SplitGivesNothing(table, book, operation.patches, operation.patches, 0);
    EndsPending(split, operation.patches, p);
  }

  // ----------------------------------------------------- issuing: segments

  /** Why a segment is refused as it is issued, if it is. */
  function RefusalOf(book: Book, operation: Operation): Option<Refusal> {
    var stream, offset := DeclaredStream(book, operation), DeclaredOffset(book, operation);
    if stream.None? then None
    else
      var given := LiveOf(book, stream.value).nextRound;
      if operation.finalizes then
        if offset.Some? && offset.value == given - 1 then None else Some(OffBoundary)
      else if offset.Some? && offset.value + 1 <= given then Some(AlreadyReserved)
      else None
  }

  /** A finalizer must end on the last round given, any other segment must begin after it; one that
      is taken has exactly its rounds from its offset on. */
  lemma ReservesExactly(book: Book, operation: Operation)
    ensures if RefusalOf(book, operation).Some?
      then Reserve(book, operation) == Refused(RefusalOf(book, operation).value)
      else Reserve(book, operation).Done? && Reserved(book, operation, Reserve(book, operation).book)
  {
  }

  ghost predicate Reserved(book: Book, operation: Operation, next: Book) {
    var stream, offset := DeclaredStream(book, operation), DeclaredOffset(book, operation);
    if stream.Some? && offset.Some? && !operation.finalizes then
      && LiveOf(next, stream.value).given == LiveOf(book, stream.value).given +
           [Interval(offset.value + 1, offset.value + operation.rounds, Segment(operation.id))]
      && LiveOf(next, stream.value).nextRound == offset.value + operation.rounds
      && LiveOf(next, stream.value).pending == Some(operation.id)
      && (forall s | s != stream.value :: LiveOf(next, s) == LiveOf(book, s))
    else next == book
  }

  // --------------------------------------------------------------- starting

  /** A feedback source starts on its stream's next round, and is refused when it names another
      stream or another round; a continuation takes the next rounds; any other changes nothing. */
  lemma StartsExactly(book: Book, operation: Operation, feeds: Option<nat>)
    ensures feeds.Some? ==> FeedsExactly(book, operation, feeds.value, BindAtStart(book, operation, feeds))
    ensures feeds.None? ==> BindAtStart(book, operation, feeds).Done?
    ensures feeds.None? && (operation.stream.None? || operation.offset.Some?) ==>
      BindAtStart(book, operation, feeds).book == book
    ensures feeds.None? && operation.stream.Some? && operation.offset.None? ==>
      Continues(book, operation, operation.stream.value, BindAtStart(book, operation, feeds).book)
  {
  }

  ghost predicate FeedsExactly(book: Book, operation: Operation, stream: nat, result: Result) {
    var names, at := DeclaredStream(book, operation), DeclaredOffset(book, operation);
    var next := LiveOf(book, stream).nextRound;
    if names.Some? && names.value != stream then result == Refused(ConflictingStream)
    else if at.Some? && at.value != next then result == Refused(ConflictingOffset)
    else result == Done(book.(bindings := book.bindings[operation.id := Binding(stream, next)]))
  }

  ghost predicate Continues(book: Book, operation: Operation, stream: nat, next: Book) {
    var live, after := LiveOf(book, stream), LiveOf(next, stream);
    && next.bindings == book.bindings[operation.id := Binding(stream, live.nextRound)]
    && after.given == live.given +
         [Interval(live.nextRound + 1, live.nextRound + operation.rounds, Segment(operation.id))]
    && after.nextRound == live.nextRound + operation.rounds && after.pending.None?
    && next.streamOf == book.streamOf && (forall s | s != stream :: LiveOf(next, s) == LiveOf(book, s))
  }

  /** Once a feedback source has started, it feeds no other stream, whatever it declares, and its own
      again only at the round it started on. */
  lemma SourceIsBound(table: Table, book: Book, later: Book, operation: Operation, stream: nat, other: nat)
    requires BindAtStart(book, operation, Some(stream)).Done?
    requires operation.id in later.bindings
    requires later.bindings[operation.id] == BindAtStart(book, operation, Some(stream)).book.bindings[operation.id]
    ensures other != stream ==>
      && Begin(table, later, operation, Some(other)) == Refused(ConflictingStream)
      && BindAtStart(later, operation, Some(other)) == Refused(ConflictingStream)
    ensures BindAtStart(later, operation, Some(stream)).Done? <==>
      LiveOf(later, stream).nextRound == LiveOf(book, stream).nextRound
  {
  }

  // ----------------------------------------------------------------- idling

  /** The stream an idle patch would continue after the operation: the one the operation was bound
      to, else the one the patch holds. */
  function IdlesIn(book: Book, operation: nat, patch: nat): Option<nat> {
    if operation in book.bindings then Some(book.bindings[operation].stream) else HeldBy(book, patch)
  }

  ghost predicate MayContinue(table: Table, book: Book, operation: nat, stream: nat, tick: nat) {
    var live := LiveOf(book, stream);
    && stream in book.lives && !live.isSealed && (live.pending.None? || live.pending == Some(operation))
    && table.isDynamic(stream) && live.lastEmission != Some(tick)
    && (table.limitOf(stream).Some? ==> live.nextRound + 1 <= table.limitOf(stream).value)
  }

  /** An idle cycle gives its stream one more round just when the stream may go on and its whole
      group idles; when the group idles in part it is left to the policy if a claim split the
      group and refused if none did; no round passes the stream's limit. */
  lemma IdlesExactly(table: Table, book: Book, operation: nat, patch: nat, tick: nat, isGroupIdle: bool)
    ensures var extension := Extend(table, book, operation, patch, tick, isGroupIdle);
      var stream := IdlesIn(book, operation, patch);
      if stream.Some? && MayContinue(table, book, operation, stream.value, tick) then
        if isGroupIdle then extension.Extends? && GivesOne(book, stream.value, tick, extension.book)
        else if LiveOf(book, stream.value).isSplit then extension.Leaves?
        else extension == Fails(PartlyIdle)
      else extension.Leaves? || extension == Extends(book)
    ensures Extend(table, book, operation, patch, tick, isGroupIdle) == Extends(book) <==>
      var stream := IdlesIn(book, operation, patch);
      && stream.Some? && stream.value in book.lives && !LiveOf(book, stream.value).isSealed
      && (LiveOf(book, stream.value).pending.None? || LiveOf(book, stream.value).pending == Some(operation))
      && table.isDynamic(stream.value) && LiveOf(book, stream.value).lastEmission == Some(tick)
  {
    var stream := IdlesIn(book, operation, patch);
    if stream.Some? {
      var live := LiveOf(book, stream.value);
      var given := Put(book, stream.value,
        Give(live, live.nextRound, 1, IdleCycle(tick)).(lastEmission := Some(tick)));
      assert |LiveOf(given, stream.value).given| == |live.given| + 1;
    }
  }

  ghost predicate GivesOne(book: Book, stream: nat, tick: nat, next: Book) {
    var live := LiveOf(book, stream);
    && LiveOf(next, stream) == live.(
         nextRound := live.nextRound + 1, lastEmission := Some(tick),
         given := live.given + [Interval(live.nextRound + 1, live.nextRound + 1, IdleCycle(tick))])
    && next.streamOf == book.streamOf && next.bindings == book.bindings
    && (forall s | s != stream :: LiveOf(next, s) == LiveOf(book, s))
  }

  // -------------------------------------------------- the protected cycle, seals

  /** The protected cycle's round is its stream's next one, and the last of them seals it; a
      release lets the tick emit again; a seal is for good and moves no round. */
  lemma CyclesAndSeals(book: Book, stream: nat, tick: nat, isFinal: bool)
    ensures var live, after := LiveOf(book, stream), LiveOf(ProtectedRound(book, stream, tick, isFinal), stream);
      && after.given == live.given + [Interval(live.nextRound + 1, live.nextRound + 1, ProtectedCycle)]
      && after.nextRound == live.nextRound + 1 && after.lastEmission == Some(tick)
      && (after.isSealed <==> live.isSealed || isFinal)
    ensures LiveOf(ProtectedRelease(book, stream), stream) == LiveOf(book, stream).(lastEmission := None)
    ensures LiveOf(SealOne(book, stream), stream) == LiveOf(book, stream).(isSealed := true)
    ensures forall s | s != stream ::
      && LiveOf(ProtectedRound(book, stream, tick, isFinal), s) == LiveOf(book, s)
      && LiveOf(ProtectedRelease(book, stream), s) == LiveOf(book, s)
      && LiveOf(SealOne(book, stream), s) == LiveOf(book, s)
  {
  }

  /** An operation issued takes its rounds, or is refused, and then its patches hold its stream; a
      protected stream's feedback source reserves none. */
  ghost predicate IssuesAsMeant(table: Table, book: Book, operation: Operation, feeds: Option<nat>, result: Result) {
    if feeds.Some? then
      var names, at := DeclaredStream(book, operation), DeclaredOffset(book, operation);
      if names.Some? && names != feeds then result == Refused(ConflictingStream)
      else if at.Some? && at.value != LiveOf(book, feeds.value).nextRound then result == Refused(ConflictingOffset)
      else result.Done? && (forall p :: HoldsAfter(table, book, operation, feeds, result.book, p))
    else if RefusalOf(book, operation).Some? then result == Refused(RefusalOf(book, operation).value)
    else
      var reserved := Reserve(book, operation);
      && result.Done? && reserved.Done? && Reserved(book, operation, reserved.book)
      && (forall p :: HoldsAfter(table, reserved.book, operation, None, result.book, p))
      && (forall s :: SameRounds(LiveOf(reserved.book, s), LiveOf(result.book, s)))
  }

  /** What each step comes to. */
  ghost predicate StepsAsMeant(table: Table, book: Book, tick: nat, step: Step, result: Result) {
    match step
    case Begins(operation, feeds) => IssuesAsMeant(table, book, operation, feeds, result)
    case Starts(operation, feeds) =>
      if feeds.Some? then FeedsExactly(book, operation, feeds.value, result)
      else if operation.stream.Some? && operation.offset.None?
      then result.Done? && Continues(book, operation, operation.stream.value, result.book)
      else result == Done(book)
    case Idles(operation, patch, isGroupIdle) =>
      var stream := IdlesIn(book, operation, patch);
      if stream.Some? && MayContinue(table, book, operation, stream.value, tick) then
        if isGroupIdle then result.Done? && GivesOne(book, stream.value, tick, result.book)
        else if LiveOf(book, stream.value).isSplit then result == Done(book)
        else result == Refused(PartlyIdle)
      else result == Done(book)
    case Protects(stream, isFinal) =>
      result.Done? && |LiveOf(result.book, stream).given| == |LiveOf(book, stream).given| + 1 &&
      LiveOf(result.book, stream).isSealed == (LiveOf(book, stream).isSealed || isFinal)
    case Releases(stream) => result.Done? && LiveOf(result.book, stream).lastEmission.None?
    case Seals(stream) => result.Done? && LiveOf(result.book, stream).isSealed
  }

  lemma IssuesIsMeant(table: Table, book: Book, operation: Operation, feeds: Option<nat>)
    ensures IssuesAsMeant(table, book, operation, feeds, Begin(table, book, operation, feeds))
  {
    ReservesExactly(book, operation);
    var reserved := if feeds.None? && Reserve(book, operation).Done? then Reserve(book, operation).book else book;
    var next := HoldPatches(table, reserved, operation, feeds);
    forall p: nat
      ensures HoldsAfter(table, reserved, operation, feeds, next, p)
    {
      HoldsAsMeant(table, reserved, operation, feeds, p);
    }
    forall s: nat
      ensures SameRounds(LiveOf(reserved, s), LiveOf(next, s))
    {
      HoldGivesNothing(table, reserved, operation, feeds, s);
    }
  }

  lemma StepIsMeant(table: Table, book: Book, tick: nat, step: Step)
    ensures StepsAsMeant(table, book, tick, step, Take(table, book, tick, step))
  {
    match step
    case Begins(operation, feeds) => IssuesIsMeant(table, book, operation, feeds);
    case Starts(operation, feeds) => StartsExactly(book, operation, feeds);
    case Idles(operation, patch, isGroupIdle) => IdlesExactly(table, book, operation, patch, tick, isGroupIdle);
    case Protects(stream, isFinal) => CyclesAndSeals(book, stream, tick, isFinal);
    case Releases(stream) => CyclesAndSeals(book, stream, tick, false);
    case Seals(stream) => CyclesAndSeals(book, stream, tick, false);
  }

  /** A sealed stream is given no more idle rounds. */
  lemma {:induction false} SealedStays(table: Table, book: Book, now: nat, steps: seq<Timed>, stream: nat)
    requires IsRun(table, book, now, steps) && LiveOf(book, stream).isSealed
    ensures LiveOf(After(table, book, now, steps), stream).isSealed
    ensures forall k | |LiveOf(book, stream).given| <= k < |LiveOf(After(table, book, now, steps), stream).given| ::
      !LiveOf(After(table, book, now, steps), stream).given[k].giver.IdleCycle?
    ensures LiveOf(book, stream).given <= LiveOf(After(table, book, now, steps), stream).given
    decreases |steps|
  {
    if steps != [] {
      var next := Take(table, book, steps[0].tick, steps[0].step).book;
      SealedStep(table, book, steps[0].tick, steps[0].step, stream);
      SealedStays(table, next, steps[0].tick, steps[1..], stream);
      var before, after := LiveOf(next, stream).given, LiveOf(After(table, book, now, steps), stream).given;
      forall k | |LiveOf(book, stream).given| <= k < |after|
        ensures !after[k].giver.IdleCycle?
      {
        assert k < |before| ==> after[k] == before[k];
      }
    }
  }

  lemma SealedStep(table: Table, book: Book, tick: nat, step: Step, stream: nat)
    requires Take(table, book, tick, step).Done? && LiveOf(book, stream).isSealed
    ensures var next := Take(table, book, tick, step).book;
      && LiveOf(next, stream).isSealed && LiveOf(book, stream).given <= LiveOf(next, stream).given
      && (forall k | |LiveOf(book, stream).given| <= k < |LiveOf(next, stream).given| ::
            !LiveOf(next, stream).given[k].giver.IdleCycle?)
  {
    match step {
      case Begins(operation, feeds) =>
        var reserved := if feeds.Some? then book else Reserve(book, operation).book;
        HoldGivesNothing(table, reserved, operation, feeds, stream);
        assert SameRounds(LiveOf(reserved, stream), LiveOf(HoldPatches(table, reserved, operation, feeds), stream));
      case _ =>
    }
  }
}
