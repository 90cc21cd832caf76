/** The rounds of the streams operations share: segments reserved as they are issued or bound as
    they start, idle rounds that continue a stream while its patches wait, and the protected
    cycle's. In every run the intervals given on a stream are apart and increase, and no stream
    is continued twice at one tick.
 */
module SharedStreams {
  import opened Options

  datatype Operation = Operation(
    id: nat,
    patches: seq<nat>,
    stream: Option<nat>,
    offset: Option<nat>,
    rounds: nat,
    emits: bool,
    finalizes: bool)

  datatype Giver = Segment(operation: nat) | IdleCycle(tick: nat) | ProtectedCycle

  /** The rounds from first to last, and to what they were given. */
  datatype Interval = Interval(first: nat, last: nat, giver: Giver)

  datatype Live = Live(
    nextRound: nat,
    lastEmission: Option<nat>,
    isSealed: bool,
    pending: Option<nat>,
    isSplit: bool,
    given: seq<Interval>)

  const NewLive: Live := Live(0, None, false, None, false, [])

  datatype Binding = Binding(stream: nat, offset: nat)

  datatype Book = Book(lives: map<nat, Live>, bindings: map<nat, Binding>, streamOf: map<nat, nat>)

  const Empty: Book := Book(map[], map[], map[])

  /** What the program and the windows say of the streams. */
  datatype Table = Table(groupOf: nat -> seq<nat>, isDynamic: nat -> bool, limitOf: nat -> Option<nat>)

  datatype Refusal = OffBoundary | AlreadyReserved | ConflictingStream | ConflictingOffset | PartlyIdle

  datatype Result = Done(book: Book) | Refused(refusal: Refusal)

  function LiveOf(book: Book, stream: nat): Live {
    if stream in book.lives then book.lives[stream] else NewLive
  }

  function Put(book: Book, stream: nat, live: Live): Book {
    book.(lives := book.lives[stream := live])
  }

  function Bound(book: Book, operation: nat, stream: nat, offset: nat): Book {
    book.(bindings := book.bindings[operation := Binding(stream, offset)])
  }

  /** A binding in the book comes before what the operation declares. */
  function DeclaredStream(book: Book, operation: Operation): Option<nat> {
    if operation.id in book.bindings then Some(book.bindings[operation.id].stream) else operation.stream
  }

  function DeclaredOffset(book: Book, operation: Operation): Option<nat> {
    if operation.id in book.bindings then Some(book.bindings[operation.id].offset) else operation.offset
  }

  function Give(live: Live, offset: nat, rounds: nat, giver: Giver): Live {
    live.(nextRound := offset + rounds, given := live.given + [Interval(offset + 1, offset + rounds, giver)])
  }

  /** A segment that declares an offset takes its rounds as it is issued. */
  function Reserve(book: Book, operation: Operation): Result {
    var stream := DeclaredStream(book, operation);
    var offset := DeclaredOffset(book, operation);
    if stream.None? then Done(book)
    else
      var live := LiveOf(book, stream.value);
      if operation.finalizes then
        if offset.None? || offset.value + 1 != live.nextRound then Refused(OffBoundary) else Done(book)
      else if offset.None? then Done(book)
      else if offset.value < live.nextRound then Refused(AlreadyReserved)
      else Done(Put(book, stream.value,
        Give(live, offset.value, operation.rounds, Segment(operation.id)).(pending := Some(operation.id))))
  }

  // ---- which patch holds which stream

  ghost predicate Includes(patches: seq<nat>, group: seq<nat>) {
    forall p :: p in group ==> p in patches
  }

  function IsWithin(group: seq<nat>, patches: seq<nat>): (isWithin: bool)
    ensures isWithin <==> Includes(patches, group)
  {
    if group == [] then true
    else
      assert forall p :: p in group <==> p == group[0] || p in group[1..];
      group[0] in patches && IsWithin(group[1..], patches)
  }

  /** Each member that holds the stream lets it go, and the stream is marked. */
  function ReleaseGroup(book: Book, stream: nat, group: seq<nat>): Book {
    var held := map p | p in book.streamOf && !(p in group && book.streamOf[p] == stream) :: book.streamOf[p];
    Put(book, stream, LiveOf(book, stream).(isSplit := true)).(streamOf := held)
  }

  /** The patch holds a stream whose group the claim does not cover. */
  predicate SplitsGroup(table: Table, book: Book, patches: seq<nat>, p: nat) {
    p in book.streamOf && table.isDynamic(book.streamOf[p]) && !IsWithin(table.groupOf(book.streamOf[p]), patches)
  }

  /** A stream held by a claimed patch is let go by its whole group when the claim leaves a member out. */
  function ReleaseSplit(table: Table, book: Book, patches: seq<nat>, left: seq<nat>): Book
    decreases |left|
  {
    if left == [] then book
    else
      var p := left[0];
      var next :=
        if SplitsGroup(table, book, patches, p)
        then ReleaseGroup(book, book.streamOf[p], table.groupOf(book.streamOf[p]))
        else book;
      ReleaseSplit(table, next, patches, left[1..])
  }

  function EndPending(book: Book, patches: seq<nat>): Book
    decreases |patches|
  {
    if patches == [] then book
    else
      var next :=
        if patches[0] in book.streamOf
        then Put(book, book.streamOf[patches[0]], LiveOf(book, book.streamOf[patches[0]]).(pending := None))
        else book;
      EndPending(next, patches[1..])
  }

  /** The operation's patches hold its stream; its rounds are its own history when it has none. */
  function HoldPatches(table: Table, book: Book, operation: Operation, feeds: Option<nat>): Book {
    var split := ReleaseSplit(table, book, operation.patches, operation.patches);
    var stream := if feeds.Some? then feeds else DeclaredStream(split, operation);
    if stream.Some? then
      var held := map p | p in split.streamOf.Keys + (set q | q in operation.patches) ::
        if p in operation.patches then stream.value else split.streamOf[p];
      Put(split, stream.value, LiveOf(split, stream.value).(isSplit := false)).(streamOf := held)
    else
      var ended := EndPending(split, operation.patches);
      if !operation.emits then ended
      else ended.(streamOf := map p | p in ended.streamOf && p !in operation.patches :: ended.streamOf[p])
  }

  /** A feedback source names no other stream, and no round but the one it starts on. */
  function CheckBinding(book: Book, operation: Operation, stream: nat): Option<Refusal> {
    if DeclaredStream(book, operation) != None && DeclaredStream(book, operation) != Some(stream)
      then Some(ConflictingStream)
    else if DeclaredOffset(book, operation) != None
      && DeclaredOffset(book, operation) != Some(LiveOf(book, stream).nextRound)
      then Some(ConflictingOffset)
    else None
  }

  /** An operation is issued; feeds is the protected stream it is a feedback source of. */
  function Begin(table: Table, book: Book, operation: Operation, feeds: Option<nat>): Result {
    if feeds.Some? then
      var refusal := CheckBinding(book, operation, feeds.value);
      if refusal.Some? then Refused(refusal.value) else Done(HoldPatches(table, book, operation, feeds))
    else
      match Reserve(book, operation)
      case Refused(refusal) => Refused(refusal)
      case Done(reserved) => Done(HoldPatches(table, reserved, operation, feeds))
  }

  /** A continuation takes its stream's next rounds as it starts. */
  function BindAtStart(book: Book, operation: Operation, feeds: Option<nat>): Result {
    if feeds.Some? then
      var refusal := CheckBinding(book, operation, feeds.value);
      if refusal.Some? then Refused(refusal.value)
      else Done(Bound(book, operation.id, feeds.value, LiveOf(book, feeds.value).nextRound))
    else if operation.stream.None? || operation.offset.Some? then Done(book)
    else
      var stream := operation.stream.value;
      var live := LiveOf(book, stream);
      var bound := Bound(book, operation.id, stream, live.nextRound);
      Done(Put(bound, stream, Give(live, live.nextRound, operation.rounds, Segment(operation.id)).(pending := None)))
  }

  /** Which open stream an idle round would go to, if any. */
  function HeldAfter(book: Book, operation: nat, patch: nat): Option<nat> {
    var stream :=
      if operation in book.bindings then Some(book.bindings[operation].stream)
      else if patch in book.streamOf then Some(book.streamOf[patch]) else None;
    if stream.None? || stream.value !in book.lives then None
    else
      var live := book.lives[stream.value];
      if live.isSealed || (live.pending != None && live.pending != Some(operation)) then None else stream
  }

  datatype Extension = Extends(book: Book) | Leaves | Fails(refusal: Refusal)

  /** An idle patch's cycle is its stream's next round, once a tick; the QPU says whether the whole
      group idles after the operation. */
  function Extend(table: Table, book: Book, operation: nat, patch: nat, tick: nat, isGroupIdle: bool): Extension {
    var held := HeldAfter(book, operation, patch);
    if held.None? || !table.isDynamic(held.value) then Leaves
    else
      var live := LiveOf(book, held.value);
      if live.lastEmission == Some(tick) then Extends(book)
      else if table.limitOf(held.value).Some? && live.nextRound >= table.limitOf(held.value).value then Leaves
      else if !isGroupIdle then (if live.isSplit then Leaves else Fails(PartlyIdle))
      else Extends(Put(book, held.value, Give(live, live.nextRound, 1, IdleCycle(tick)).(lastEmission := Some(tick))))
  }

  /** The protected cycle's round, which seals the stream when it is the last. */
  function ProtectedRound(book: Book, stream: nat, tick: nat, isFinal: bool): Book {
    var live := LiveOf(book, stream);
    Put(book, stream,
      Give(live, live.nextRound, 1, ProtectedCycle).(lastEmission := Some(tick), isSealed := live.isSealed || isFinal))
  }

  function ProtectedRelease(book: Book, stream: nat): Book {
    Put(book, stream, LiveOf(book, stream).(lastEmission := None))
  }

  function SealOne(book: Book, stream: nat): Book {
    Put(book, stream, LiveOf(book, stream).(isSealed := true))
  }

  datatype Step =
    | Begins(operation: Operation, feeds: Option<nat>)
    | Starts(operation: Operation, feeds: Option<nat>)
    | Idles(idle: nat, patch: nat, isGroupIdle: bool)
    | Protects(stream: nat, isFinal: bool)
    | Releases(stream: nat)
    | Seals(stream: nat)

  /** A step at its tick; one the code refuses ends the run. */
  function Take(table: Table, book: Book, tick: nat, step: Step): Result {
    match step
    case Begins(operation, feeds) => Begin(table, book, operation, feeds)
    case Starts(operation, feeds) => BindAtStart(book, operation, feeds)
    case Idles(operation, patch, isGroupIdle) =>
      (match Extend(table, book, operation, patch, tick, isGroupIdle)
       case Extends(after) => Done(after)
       case Leaves => Done(book)
       case Fails(refusal) => Refused(refusal))
    case Protects(stream, isFinal) => Done(ProtectedRound(book, stream, tick, isFinal))
    case Releases(stream) => Done(ProtectedRelease(book, stream))
    case Seals(stream) => Done(SealOne(book, stream))
  }

  // ---- what every step keeps

  ghost predicate Apart(live: Live) {
    && (forall k, m | 0 <= k < m < |live.given| :: live.given[k].last < live.given[m].first)
    && (forall k | 0 <= k < |live.given| ::
      1 <= live.given[k].first <= live.given[k].last + 1 && live.given[k].last <= live.nextRound)
  }

  ghost predicate IsIdleAt(live: Live, k: int, tick: nat) {
    0 <= k < |live.given| && live.given[k].giver == IdleCycle(tick)
  }

  ghost predicate OncePerTick(live: Live, now: nat) {
    && (forall k, m, t: nat :: IsIdleAt(live, k, t) && IsIdleAt(live, m, t) ==> k == m)
    && (forall k, t: nat :: IsIdleAt(live, k, t) ==> t <= now)
    && (forall k :: IsIdleAt(live, k, now) ==> live.isSealed || live.lastEmission == Some(now))
  }

  ghost predicate SoundAt(book: Book, now: nat, s: nat) {
    Apart(LiveOf(book, s)) && OncePerTick(LiveOf(book, s), now)
  }

  ghost predicate Sound(book: Book, now: nat) {
    forall s: nat :: SoundAt(book, now, s)
  }

  /** Nothing given, and nothing that keeps an idle round from coming twice, has changed. */
  ghost predicate SameRounds(live: Live, after: Live) {
    after == live.(pending := after.pending, isSplit := after.isSplit)
  }

  lemma {:induction false} SplitGivesNothing(table: Table, book: Book, patches: seq<nat>, left: seq<nat>, stream: nat)
    ensures SameRounds(LiveOf(book, stream), LiveOf(ReleaseSplit(table, book, patches, left), stream))
    ensures ReleaseSplit(table, book, patches, left).bindings == book.bindings
    decreases |left|
  {
    if left != [] {
      var p := left[0];
      var next :=
        if SplitsGroup(table, book, patches, p)
        then ReleaseGroup(book, book.streamOf[p], table.groupOf(book.streamOf[p]))
        else book;
      SplitGivesNothing(table, next, patches, left[1..], stream);
    }
  }

  lemma {:induction false} EndPendingGivesNothing(book: Book, patches: seq<nat>, stream: nat)
    ensures SameRounds(LiveOf(book, stream), LiveOf(EndPending(book, patches), stream))
    decreases |patches|
  {
    if patches != [] {
      var next :=
        if patches[0] in book.streamOf
        then Put(book, book.streamOf[patches[0]], LiveOf(book, book.streamOf[patches[0]]).(pending := None))
        else book;
      EndPendingGivesNothing(next, patches[1..], stream);
    }
  }

  lemma HoldGivesNothing(table: Table, book: Book, operation: Operation, feeds: Option<nat>, stream: nat)
    ensures SameRounds(LiveOf(book, stream), LiveOf(HoldPatches(table, book, operation, feeds), stream))
  {
    var split := ReleaseSplit(table, book, operation.patches, operation.patches);
    SplitGivesNothing(table, book, operation.patches, operation.patches, stream);
    EndPendingGivesNothing(split, operation.patches, stream);
  }

  lemma GiveKeeps(live: Live, offset: nat, rounds: nat, giver: Giver, now: nat)
    requires Apart(live) && OncePerTick(live, now) && offset >= live.nextRound
    requires giver.IdleCycle? ==> giver.tick == now && !live.isSealed && live.lastEmission != Some(now)
    ensures Apart(Give(live, offset, rounds, giver))
    ensures giver.IdleCycle? ==> OncePerTick(Give(live, offset, rounds, giver).(lastEmission := Some(now)), now)
    ensures !giver.IdleCycle? ==> OncePerTick(Give(live, offset, rounds, giver), now)
  {
    var after := Give(live, offset, rounds, giver);
    assert forall k | 0 <= k < |live.given| :: after.given[k] == live.given[k];
    assert forall k, t: nat ::
      IsIdleAt(after, k, t) ==> IsIdleAt(live, k, t) || (k == |live.given| && giver == IdleCycle(t));
    var emitted := after.(lastEmission := Some(now));
    assert forall k, t: nat :: IsIdleAt(emitted, k, t) <==> IsIdleAt(after, k, t);
  }

  lemma SameRoundsKeep(live: Live, after: Live, now: nat)
    requires SameRounds(live, after) && Apart(live) && OncePerTick(live, now)
    ensures Apart(after) && OncePerTick(after, now)
  {
    assert forall k, t: nat :: IsIdleAt(after, k, t) <==> IsIdleAt(live, k, t);
  }

  /** A protected region is released after its stream is sealed. */
  ghost predicate May(book: Book, step: Step) {
    step.Releases? ==> LiveOf(book, step.stream).isSealed
  }

  lemma ReserveKeeps(book: Book, operation: Operation, now: nat, s: nat)
    requires SoundAt(book, now, s) && Reserve(book, operation).Done?
    ensures SoundAt(Reserve(book, operation).book, now, s)
  {
    var live, offset := LiveOf(book, s), DeclaredOffset(book, operation);
    if DeclaredStream(book, operation) == Some(s) && offset.Some? && offset.value >= live.nextRound {
      var after := Give(live, offset.value, operation.rounds, Segment(operation.id));
      GiveKeeps(live, offset.value, operation.rounds, Segment(operation.id), now);
      SameRoundsKeep(after, after.(pending := Some(operation.id)), now);
    }
  }

  lemma BeginKeeps(table: Table, book: Book, operation: Operation, feeds: Option<nat>, now: nat, s: nat)
    requires SoundAt(book, now, s) && Begin(table, book, operation, feeds).Done?
    ensures SoundAt(Begin(table, book, operation, feeds).book, now, s)
  {
    var reserved := if feeds.Some? then book else Reserve(book, operation).book;
    if feeds.None? {
      ReserveKeeps(book, operation, now, s);
    }
    HoldGivesNothing(table, reserved, operation, feeds, s);
    SameRoundsKeep(LiveOf(reserved, s), LiveOf(HoldPatches(table, reserved, operation, feeds), s), now);
  }

  lemma StartKeeps(book: Book, operation: Operation, feeds: Option<nat>, now: nat, s: nat)
    requires SoundAt(book, now, s) && BindAtStart(book, operation, feeds).Done?
    ensures SoundAt(BindAtStart(book, operation, feeds).book, now, s)
  {
    var live := LiveOf(book, s);
    var after := Give(live, live.nextRound, operation.rounds, Segment(operation.id));
    GiveKeeps(live, live.nextRound, operation.rounds, Segment(operation.id), now);
    SameRoundsKeep(after, after.(pending := None), now);
  }

  lemma IdleKeeps(table: Table, book: Book, operation: nat, patch: nat, now: nat, isGroupIdle: bool, s: nat)
    requires SoundAt(book, now, s) && Extend(table, book, operation, patch, now, isGroupIdle).Extends?
    ensures SoundAt(Extend(table, book, operation, patch, now, isGroupIdle).book, now, s)
  {
    var live := LiveOf(book, s);
    if HeldAfter(book, operation, patch) == Some(s) && live.lastEmission != Some(now) {
      GiveKeeps(live, live.nextRound, 1, IdleCycle(now), now);
    }
  }

  lemma StepKeepsOne(table: Table, book: Book, tick: nat, step: Step, s: nat)
    requires SoundAt(book, tick, s) && May(book, step) && Take(table, book, tick, step).Done?
    ensures SoundAt(Take(table, book, tick, step).book, tick, s)
  {
    var live := LiveOf(book, s);
    match step
    case Begins(operation, feeds) => BeginKeeps(table, book, operation, feeds, tick, s);
    case Starts(operation, feeds) => StartKeeps(book, operation, feeds, tick, s);
    case Idles(operation, patch, isGroupIdle) =>
      if Extend(table, book, operation, patch, tick, isGroupIdle).Extends? {
        IdleKeeps(table, book, operation, patch, tick, isGroupIdle, s);
      }
    case Protects(stream, isFinal) =>
      GiveKeeps(live, live.nextRound, 1, ProtectedCycle, tick);
      MarkKeeps(Give(live, live.nextRound, 1, ProtectedCycle), Some(tick), live.isSealed || isFinal, tick);
    case Releases(stream) =>
      if live.isSealed {
        MarkKeeps(live, None, true, tick);
      }
    case Seals(stream) => MarkKeeps(live, live.lastEmission, true, tick);
  }

  lemma MarkKeeps(live: Live, lastEmission: Option<nat>, isSealed: bool, now: nat)
    requires Apart(live) && OncePerTick(live, now)
    requires live.isSealed ==> isSealed
    requires isSealed || lastEmission == Some(now) || lastEmission == live.lastEmission
    ensures Apart(live.(lastEmission := lastEmission, isSealed := isSealed))
    ensures OncePerTick(live.(lastEmission := lastEmission, isSealed := isSealed), now)
  {
    var after := live.(lastEmission := lastEmission, isSealed := isSealed);
    assert forall k, t: nat :: IsIdleAt(after, k, t) <==> IsIdleAt(live, k, t);
  }

  /** Time passes. */
  lemma LaterKeeps(book: Book, now: nat, later: nat)
    requires Sound(book, now) && now <= later
    ensures Sound(book, later)
  {
    forall s: nat ensures SoundAt(book, later, s) {
      assert SoundAt(book, now, s);
    }
  }

  datatype Timed = Timed(tick: nat, step: Step)

  ghost predicate IsRun(table: Table, book: Book, now: nat, steps: seq<Timed>)
    decreases |steps|
  {
    steps == [] ||
    (now <= steps[0].tick && May(book, steps[0].step)
     && Take(table, book, steps[0].tick, steps[0].step).Done?
     && IsRun(table, Take(table, book, steps[0].tick, steps[0].step).book, steps[0].tick, steps[1..]))
  }

  function After(table: Table, book: Book, now: nat, steps: seq<Timed>): Book
    requires IsRun(table, book, now, steps)
    decreases |steps|
  {
    if steps == [] then book
    else After(table, Take(table, book, steps[0].tick, steps[0].step).book, steps[0].tick, steps[1..])
  }

  lemma {:induction false} IntervalsStayApart(table: Table, book: Book, now: nat, steps: seq<Timed>, stream: nat)
    requires Sound(book, now) && IsRun(table, book, now, steps)
    ensures var live := LiveOf(After(table, book, now, steps), stream);
            && Apart(live)
            && forall k, m, t: nat :: IsIdleAt(live, k, t) && IsIdleAt(live, m, t) ==> k == m
    decreases |steps|
  {
    assert SoundAt(book, now, stream);
    if steps != [] {
      var tick, step := steps[0].tick, steps[0].step;
      LaterKeeps(book, now, tick);
      forall s: nat ensures SoundAt(Take(table, book, tick, step).book, tick, s) {
        assert SoundAt(book, tick, s);
        StepKeepsOne(table, book, tick, step, s);
      }
      IntervalsStayApart(table, Take(table, book, tick, step).book, tick, steps[1..], stream);
    }
  }

  lemma EmptySound()
    ensures Sound(Empty, 0)
  {
    assert forall k, t: nat :: !IsIdleAt(NewLive, k, t);
  }

  /** In every run the rounds given on a stream are apart and increase, whoever takes them, and
      idle patches continue it at most once a tick. */
  lemma IntervalsApart(table: Table, steps: seq<Timed>, stream: nat)
    requires IsRun(table, Empty, 0, steps)
    ensures var live := LiveOf(After(table, Empty, 0, steps), stream);
            && Apart(live)
            && forall k, m, t: nat :: IsIdleAt(live, k, t) && IsIdleAt(live, m, t) ==> k == m
  {
    EmptySound();
    IntervalsStayApart(table, Empty, 0, steps, stream);
  }

  /** While a segment at a declared offset is still to run, its stream is not continued by a patch
      that idles after another operation. */
  lemma PendingIsNotContinued(
    table: Table, book: Book, operation: Operation, idle: nat, patch: nat, tick: nat, isGroupIdle: bool)
    requires operation.stream.Some? && operation.offset.Some? && !operation.finalizes && operation.id !in book.bindings
    requires idle != operation.id
    requires Begin(table, book, operation, None).Done?
    ensures var next := Begin(table, book, operation, None).book;
            match Extend(table, next, idle, patch, tick, isGroupIdle)
            case Extends(after) => LiveOf(after, operation.stream.value) == LiveOf(next, operation.stream.value)
            case _ => true
  {
    var reserved := Reserve(book, operation).book;
    var stream := operation.stream.value;
    SplitKeepsPending(table, reserved, operation.patches, operation.patches, stream);
    assert LiveOf(Begin(table, book, operation, None).book, stream).pending == Some(operation.id);
  }

  lemma {:induction false} SplitKeepsPending(table: Table, book: Book, patches: seq<nat>, left: seq<nat>, stream: nat)
    ensures LiveOf(ReleaseSplit(table, book, patches, left), stream).pending == LiveOf(book, stream).pending
    ensures ReleaseSplit(table, book, patches, left).bindings == book.bindings
    decreases |left|
  {
    if left != [] {
      var p := left[0];
      var next :=
        if SplitsGroup(table, book, patches, p)
        then ReleaseGroup(book, book.streamOf[p], table.groupOf(book.streamOf[p]))
        else book;
      SplitKeepsPending(table, next, patches, left[1..], stream);
    }
  }

  // ---- a split group

  lemma {:induction false} SplitNarrows(table: Table, book: Book, patches: seq<nat>, left: seq<nat>, p: nat)
    ensures p in ReleaseSplit(table, book, patches, left).streamOf ==>
      p in book.streamOf && ReleaseSplit(table, book, patches, left).streamOf[p] == book.streamOf[p]
    decreases |left|
  {
    if left != [] {
      var q := left[0];
      var next :=
        if SplitsGroup(table, book, patches, q)
        then ReleaseGroup(book, book.streamOf[q], table.groupOf(book.streamOf[q]))
        else book;
      SplitNarrows(table, next, patches, left[1..], p);
    }
  }

  /** A patch of the claim that held a dynamic stream of a group the claim does not cover leaves no
      patch of the group holding it. */
  lemma {:induction false} SplitEndsTheHold(
    table: Table, book: Book, patches: seq<nat>, left: seq<nat>, claimed: nat, member: nat, stream: nat)
    requires claimed in left && claimed in book.streamOf && book.streamOf[claimed] == stream
    requires table.isDynamic(stream) && !Includes(patches, table.groupOf(stream))
    requires member in table.groupOf(stream) && claimed in table.groupOf(stream)
    ensures var next := ReleaseSplit(table, book, patches, left);
            !(member in next.streamOf && next.streamOf[member] == stream)
    decreases |left|
  {
    var q := left[0];
    var isSplit := SplitsGroup(table, book, patches, q);
    var next := if isSplit then ReleaseGroup(book, book.streamOf[q], table.groupOf(book.streamOf[q])) else book;
    SplitNarrows(table, next, patches, left[1..], member);
    if isSplit && book.streamOf[q] == stream {
      assert !(member in next.streamOf && next.streamOf[member] == stream);
    } else {
      assert claimed != q && claimed in left[1..];
      SplitEndsTheHold(table, next, patches, left[1..], claimed, member, stream);
    }
  }
}
