/** A pool's decoder units, the jobs on them, and the unit a job is offered.

    The functions are the meaning of decsim/decoders/decoder_unit.py and
    decsim/decoders/decoder_pool.py; the class DecoderPool runs the loops of the
    source and is proved to compute the same offer.
 */
module DecoderPools {
  import opened Options

  /** One resident computes while another's input lands. */
  const INPUT_SLOT_COUNT: nat := 2

  /** A duration; Unbounded stands for the source's infinity. */
  datatype Ticks = Finite(ticks: int) | Unbounded {

    predicate AtMost(other: Ticks) {
      other.Unbounded? || (Finite? && ticks <= other.ticks)
    }

    function Plus(other: Ticks): Ticks {
      if Finite? && other.Finite? then Finite(ticks + other.ticks) else Unbounded
    }
  }

  /** One decode request, with the flags the manager side updates. */
  datatype Job = Job(
    id: nat,
    readyTime: int,
    occupancy: Ticks,
    carriesInput: bool,
    isStartable: bool,
    cancelled: bool,
    completed: bool,
    started: bool,
    isAsked: bool,
    landed: bool,
    claimsAtDispatch: bool,
    landingTicks: Option<int>)
  {
    /** A job that never starts again. */
    predicate IsPastStart() {
      cancelled || completed || started
    }

    predicate IsLive() {
      !cancelled && !completed
    }
  }

  /** One unit: the jobs holding its input slots in dispatch order, and the compute claim. */
  datatype Unit = Unit(residents: seq<Job>, holder: Option<nat>, expectedFree: Ticks)

  // ------------------------------------------------------------ one unit

  function LiveAmong(residents: seq<Job>): (live: seq<Job>) {
    if residents == [] then []
    else
      var rest := LiveAmong(residents[1..]);
      if residents[0].IsLive() then [residents[0]] + rest else rest
  }

  /** Fewer residents than slots, and a memory that says yes. */
  predicate HasRoom(unit: Unit, memoryFits: bool) {
    |unit.residents| < INPUT_SLOT_COUNT && (memoryFits || LiveAmong(unit.residents) == [])
  }

  /** The declared cost of every resident not started, the holder's apart. */
  function StagedCost(residents: seq<Job>, holder: Option<nat>): Ticks {
    if residents == [] then Finite(0)
    else
      var rest := StagedCost(residents[1..], holder);
      if holder == Some(residents[0].id) || residents[0].IsPastStart() then rest
      else residents[0].occupancy.Plus(rest)
  }

  /** Ticks of compute the unit may still owe; a holder that outlived its prediction makes
      them unbounded. */
  function WorkLeft(unit: Unit, now: int): Ticks {
    var held :=
      if unit.holder.None? then Finite(0)
      else if unit.expectedFree.Unbounded? then Unbounded
      else Finite(unit.expectedFree.ticks - now);
    if held.Finite? && held.ticks < 0 then Unbounded
    else held.Plus(StagedCost(unit.residents, unit.holder))
  }

  // ----------------------------------------------------------- the offer

  /** What the memories answer for one job, unit by unit. */
  datatype MemoryView = MemoryView(fits: nat -> bool, holdsInput: nat -> bool)

  datatype Offer = Placement(unit: nat, claimsCompute: bool) | NoUnit

  /** What computing units are compared by, the lesser first. */
  datatype Rank = Rank(work: Ticks, live: nat, movesInput: bool) {

    predicate Before(other: Rank) {
      if work != other.work then work.AtMost(other.work)
      else if live != other.live then live < other.live
      else !movesInput && other.movesInput
    }
  }

  predicate Room(units: seq<Unit>, view: MemoryView, u: nat)
  {
    u < |units| && HasRoom(units[u], view.fits(u))
  }

  /** The unit's work left is the pool's least. */
  predicate IsFreeingFirst(units: seq<Unit>, now: int, u: nat)
    requires u < |units|
  {
    forall v | 0 <= v < |units| ::
      WorkLeft(units[u], now).AtMost(WorkLeft(units[v], now))
  }

  function RankOf(units: seq<Unit>, now: int, view: MemoryView, u: nat): Rank
    requires u < |units|
  {
    Rank(WorkLeft(units[u], now), |LiveAmong(units[u].residents)|, !view.holdsInput(u))
  }

  /** No unit of the free list has room. */
  predicate NoFreeUnit(units: seq<Unit>, free: seq<nat>, view: MemoryView)
  {
    forall f | f in free :: !Room(units, view, f)
  }

  /** The free unit a job takes: the first holding its input, else the one longest free. */
  predicate IsFreeChoice(
    units: seq<Unit>, free: seq<nat>, view: MemoryView, u: nat)
  {
    exists p | 0 <= p < |free| ::
      && free[p] == u
      && Room(units, view, u)
      && (forall q | 0 <= q < p ::
            !Room(units, view, free[q]) || (view.holdsInput(u) && !view.holdsInput(free[q])))
      && (!view.holdsInput(u) ==>
            forall f | f in free && Room(units, view, f) :: !view.holdsInput(f))
  }

  /** Of two units that free alike, one has no more live jobs than the other; of two with as
      many, it holds the job's input if the other does; of two alike in both, it is no later. */
  predicate IsPreferred(units: seq<Unit>, view: MemoryView, u: nat, v: nat)
    requires u < |units| && v < |units|
  {
    var live, others := |LiveAmong(units[u].residents)|, |LiveAmong(units[v].residents)|;
    && live <= others
    && (live == others ==> view.holdsInput(v) ==> view.holdsInput(u))
    && (live == others && view.holdsInput(u) == view.holdsInput(v) ==> u <= v)
  }

  /** The computing unit a job is staged on: the one preferred among those with room of the
      pool's least work left. */
  predicate IsStagingChoice(units: seq<Unit>, now: int, view: MemoryView, u: nat)
  {
    && Room(units, view, u)
    && IsFreeingFirst(units, now, u)
    && (forall v | 0 <= v < |units| && Room(units, view, v) && IsFreeingFirst(units, now, v) ::
          IsPreferred(units, view, u, v))
  }

  /** What the pool may answer: the meaning of an offer. */
  predicate IsOffer(
    units: seq<Unit>, free: seq<nat>, job: Job, now: int, view: MemoryView, offer: Offer)
  {
    match offer
    case Placement(u, true) =>
      IsFreeChoice(units, free, view, u)
    case Placement(u, false) =>
      && NoFreeUnit(units, free, view)
      && job.carriesInput
      && IsStagingChoice(units, now, view, u)
    case NoUnit =>
      && NoFreeUnit(units, free, view)
      && (job.carriesInput ==>
            forall u | 0 <= u < |units| && IsFreeingFirst(units, now, u) ::
              !Room(units, view, u))
  }

  // ------------------------------------------------ computing the offer

  /** The first entry of a list a test accepts. */
  function First(list: seq<nat>, accepts: nat -> bool): (found: Option<nat>)
    ensures found.Some? ==> accepts(found.value) && found.value in list
    ensures found.None? ==> forall x | x in list :: !accepts(x)
  {
    if list == [] then None
    else if accepts(list[0]) then Some(list[0])
    else First(list[1..], accepts)
  }

  /** The best staging unit among the first count units. */
  function BestStaging(
    units: seq<Unit>, now: int, view: MemoryView, count: nat): (best: Option<nat>)
    requires count <= |units|
    ensures best.Some? ==> best.value < count
  {
    if count == 0 then None
    else
      var best := BestStaging(units, now, view, count - 1);
      var u := count - 1;
      if !(Room(units, view, u) && IsFreeingFirst(units, now, u)) then best
      else if best.Some? &&
        !RankOf(units, now, view, u).Before(RankOf(units, now, view, best.value)) then best
      else Some(u)
  }

  function OfferOf(
    units: seq<Unit>, free: seq<nat>, job: Job, now: int, view: MemoryView): (offer: Offer)
    ensures offer.Placement? ==> offer.unit < |units|
  {
    var holding := First(free, (u: nat) => Room(units, view, u) && view.holdsInput(u));
    var anyFree := First(free, (u: nat) => Room(units, view, u));
    if holding.Some? then Placement(holding.value, true)
    else if anyFree.Some? then Placement(anyFree.value, true)
    else if !job.carriesInput then NoUnit
    else
      match BestStaging(units, now, view, |units|)
      case Some(u) => Placement(u, false)
      case None => NoUnit
  }

  /** Where First finds its entry: nothing before it is accepted. */
  lemma {:induction false} FirstIsEarliest(list: seq<nat>, accepts: nat -> bool) returns (place: nat)
    requires First(list, accepts).Some?
    ensures place < |list| && list[place] == First(list, accepts).value
    ensures forall q | 0 <= q < place :: !accepts(list[q])
  {
    if accepts(list[0]) {
      place := 0;
    } else {
      place := FirstIsEarliest(list[1..], accepts);
      place := place + 1;
    }
  }

  lemma {:induction false} BestStagingMeaning(
    units: seq<Unit>, now: int, view: MemoryView, count: nat)
    requires count <= |units|
    ensures var best := BestStaging(units, now, view, count);
      match best
      case None =>
        forall u | 0 <= u < count && IsFreeingFirst(units, now, u) :: !Room(units, view, u)
      case Some(b) =>
        && b < count && Room(units, view, b) && IsFreeingFirst(units, now, b)
        && (forall v | 0 <= v < count && Room(units, view, v) && IsFreeingFirst(units, now, v) ::
              IsPreferred(units, view, b, v))
  {
    if count > 0 {
      BestStagingMeaning(units, now, view, count - 1);
    }
  }

  /** The offer the pool computes is the one the rule describes. */
  lemma OfferMeaning(
    units: seq<Unit>, free: seq<nat>, job: Job, now: int, view: MemoryView)
    ensures IsOffer(units, free, job, now, view, OfferOf(units, free, job, now, view))
  {
    var roomAndInput := (u: nat) => Room(units, view, u) && view.holdsInput(u);
    var room := (u: nat) => Room(units, view, u);
    if First(free, roomAndInput).Some? {
      var place := FirstIsEarliest(free, roomAndInput);
    } else if First(free, room).Some? {
      var place := FirstIsEarliest(free, room);
    } else {
      BestStagingMeaning(units, now, view, |units|);
    }
  }

  // ------------------------------------------------- what the offer stands on

  /** The live jobs among residents are just those neither cancelled nor completed, each as
      often as it is there. */
  lemma {:induction false} LiveAreKept(residents: seq<Job>, job: Job)
    ensures multiset(LiveAmong(residents))[job] ==
      if job.cancelled || job.completed then 0 else multiset(residents)[job]
  {
    if residents != [] {
      assert residents == [residents[0]] + residents[1..];
      LiveAreKept(residents[1..], job);
    }
  }

  /** A slot is empty, and the memory takes the job beside what is live, if anything is. */
  predicate Takes(unit: Unit, memoryFits: bool) {
    && |unit.residents| <= 1
    && (!memoryFits ==> forall p | 0 <= p < |unit.residents| ::
          unit.residents[p].cancelled || unit.residents[p].completed)
  }

  /** A job is offered a unit that takes it, and none only when no free unit does. */
  lemma OfferFits(
    units: seq<Unit>, free: seq<nat>, job: Job, now: int, view: MemoryView)
    ensures var offer := OfferOf(units, free, job, now, view);
      && (offer.Placement? ==> Takes(units[offer.unit], view.fits(offer.unit)))
      && (offer.NoUnit? || !offer.claimsCompute ==>
            forall f | f in free && f < |units| :: !Takes(units[f], view.fits(f)))
  {
    OfferMeaning(units, free, job, now, view);
    forall u | 0 <= u < |units|
      ensures Room(units, view, u) == Takes(units[u], view.fits(u))
    {
      RoomTakes(units[u], view.fits(u));
    }
  }

  lemma RoomTakes(unit: Unit, memoryFits: bool)
    ensures HasRoom(unit, memoryFits) == Takes(unit, memoryFits)
  {
    if |unit.residents| == 1 {
      LiveAreKept(unit.residents, unit.residents[0]);
    }
  }

  /** Nobody can tell when the unit is done: its holder's end is not known or is past, or a
      job that is yet to start has no declared cost. */
  predicate IsEndless(unit: Unit, now: int) {
    || (unit.holder.Some? && (unit.expectedFree.Unbounded? || unit.expectedFree.ticks < now))
    || AwaitsEndless(unit.residents, unit.holder)
  }

  predicate AwaitsEndless(residents: seq<Job>, holder: Option<nat>) {
    exists p | 0 <= p < |residents| :: IsEndlessJob(residents[p]) && holder != Some(residents[p].id)
  }

  predicate IsEndlessJob(job: Job) {
    job.occupancy.Unbounded? && !job.cancelled && !job.completed && !job.started
  }

  lemma {:induction false} StagedCostUnbounded(residents: seq<Job>, holder: Option<nat>)
    ensures StagedCost(residents, holder).Unbounded? <==> AwaitsEndless(residents, holder)
  {
    if residents != [] {
      StagedCostUnbounded(residents[1..], holder);
      var rest := residents[1..];
      if AwaitsEndless(rest, holder) {
        var p :| 0 <= p < |rest| && IsEndlessJob(rest[p]) && holder != Some(rest[p].id);
        assert residents[p + 1] == rest[p];
      }
      forall p | 0 < p < |residents|
        ensures residents[p] == rest[p - 1]
      {
      }
    }
  }

  lemma WorkIsEndless(unit: Unit, now: int)
    ensures WorkLeft(unit, now).Unbounded? <==> IsEndless(unit, now)
  {
    StagedCostUnbounded(unit.residents, unit.holder);
  }

  /** A job is staged where nobody can tell the end only when no unit's end can be told. */
  lemma EndlessIsStagedLast(
    units: seq<Unit>, free: seq<nat>, job: Job, now: int, view: MemoryView, u: nat, v: nat)
    requires OfferOf(units, free, job, now, view) == Placement(u, false)
    requires u < |units| && v < |units|
    ensures IsEndless(units[u], now) ==> IsEndless(units[v], now)
  {
    assert IsFreeingFirst(units, now, u) by {
      OfferMeaning(units, free, job, now, view);
    }
    WorkIsEndless(units[u], now);
    WorkIsEndless(units[v], now);
  }
}
