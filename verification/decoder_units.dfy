/** The decoder units and the pool as the objects the manager updates: each method's result
    or new state is the one the functions of DecoderPools and DecodeSteps give.
 */
module DecoderUnits {
  import opened Options
  import opened Lists
  import opened DecoderPools
  import opened DecodeSteps

  /** Two offers the rule allows are one offer. */
  lemma OfferIsUnique(
    units: seq<Unit>, free: seq<nat>, job: Job, now: int, view: MemoryView, a: Offer, b: Offer)
    requires forall f | f in free :: f < |units|
    requires IsOffer(units, free, job, now, view, a) && IsOffer(units, free, job, now, view, b)
    ensures a == b
  {
  }

  class DecoderUnit {
    var residents: seq<Job>
    var holder: Option<nat>
    var expectedFree: Ticks

    constructor ()
      ensures Value() == Unit([], None, Unbounded)
    {
      residents, holder, expectedFree := [], None, Unbounded;
    }

    function Value(): Unit
      reads this
    {
      Unit(residents, holder, expectedFree)
    }

    method LiveResidents() returns (live: seq<Job>)
      ensures live == LiveAmong(residents)
    {
      live := [];
      var p := 0;
      while p < |residents|
        invariant p <= |residents|
        invariant live + LiveAmong(residents[p..]) == LiveAmong(residents)
      {
        if residents[p].IsLive() {
          live := live + [residents[p]];
        }
        p := p + 1;
      }
    }

    /** memoryFits is the memory's answer for the job beside the live residents. */
    method CanTake(memoryFits: bool) returns (room: bool)
      ensures room == HasRoom(Value(), memoryFits)
    {
      if |residents| >= INPUT_SLOT_COUNT {
        return false;
      }
      var live := LiveResidents();
      return live == [] || memoryFits;
    }

    method WorkLeftTicks(now: int) returns (work: Ticks)
      ensures work == WorkLeft(Value(), now)
    {
      work := Finite(0);
      if holder.Some? {
        work := if expectedFree.Unbounded? then Unbounded else Finite(expectedFree.ticks - now);
      }
      if work.Finite? && work.ticks < 0 {
        return Unbounded;
      }
      ghost var held := work;
      var p := 0;
      while p < |residents|
        invariant p <= |residents|
        invariant work.Plus(StagedCost(residents[p..], holder)) == held.Plus(StagedCost(residents, holder))
      {
        if !(holder == Some(residents[p].id) || residents[p].IsPastStart()) {
          work := work.Plus(residents[p].occupancy);
        }
        p := p + 1;
      }
    }

    /** The first resident not past its start whose input landed, or is still in flight. */
    method OldestNotStarted(landed: bool) returns (found: Option<nat>)
      ensures found == OldestResident(residents, landed)
    {
      var p := 0;
      while p < |residents|
        invariant p <= |residents|
        invariant OldestResident(residents[p..], landed) == OldestResident(residents, landed)
      {
        if !residents[p].IsPastStart() && residents[p].landed == landed {
          return Some(residents[p].id);
        }
        p := p + 1;
      }
      return None;
    }

    method Place(id: nat) returns (p: nat)
      ensures p == PlaceOf(residents, id)
    {
      p := 0;
      while p < |residents| && residents[p].id != id
        invariant p <= |residents|
        invariant forall q | 0 <= q < p :: residents[q].id != id
      {
        p := p + 1;
      }
    }

    method Admit(job: Job)
      modifies this`residents
      ensures Value() == old(Value()).(residents := old(residents) + [job])
    {
      residents := residents + [job];
    }

    method Evict(id: nat)
      requires Holds(Value(), id)
      modifies this`residents
      ensures var p := PlaceOf(old(residents), id);
        Value() == old(Value()).(residents := old(residents)[..p] + old(residents)[p + 1..])
    {
      var p := Place(id);
      residents := residents[..p] + residents[p + 1..];
    }

    method ClaimCompute(id: nat)
      modifies this`holder
      ensures Value() == old(Value()).(holder := Some(id))
    {
      holder := Some(id);
    }

    method ReleaseCompute()
      modifies this`holder, this`expectedFree
      ensures Value() == old(Value()).(holder := None, expectedFree := Unbounded)
    {
      holder := None;
      expectedFree := Unbounded;
    }

    method ExpectComputeFree(ticks: Ticks)
      modifies this`expectedFree
      ensures Value() == old(Value()).(expectedFree := ticks)
    {
      expectedFree := ticks;
    }

    /** A job record on the unit is rewritten. */
    method Update(job: Job)
      requires Holds(Value(), job.id)
      modifies this`residents
      ensures Value() == WithJob(old(Value()), job)
    {
      var p := Place(job.id);
      residents := residents[p := job];
    }

    method Resident(id: nat) returns (job: Job)
      requires Holds(Value(), id)
      ensures job == JobOn(Value(), id)
    {
      var p := Place(id);
      job := residents[p];
    }
  }

  class DecoderPool {
    const units: seq<DecoderUnit>
    var free: seq<nat>

    /** As many units as the settings say, every one free. */
    constructor (unitCount: nat)
      ensures Valid() && fresh(Repr()) && |units| == unitCount
      ensures Values() == seq(unitCount, (u: nat) => Unit([], None, Unbounded)) && free == seq(unitCount, (u: nat) => u)
    {
      var made: seq<DecoderUnit> := [];
      while |made| < unitCount
        invariant |made| <= unitCount
        invariant forall u | 0 <= u < |made| :: fresh(made[u]) && made[u].Value() == Unit([], None, Unbounded)
        invariant forall u, v | 0 <= u < v < |made| :: made[u] != made[v]
      {
        var unit := new DecoderUnit();
        made := made + [unit];
      }
      units := made;
      free := seq(unitCount, (u: nat) => u);
    }

    ghost function Repr(): set<object>
    {
      {this} + set u | 0 <= u < |units| :: units[u]
    }

    ghost predicate Valid()
    {
      forall u, v | 0 <= u < v < |units| :: units[u] != units[v]
    }

    function Values(): (values: seq<Unit>)
      reads units
      ensures |values| == |units|
      ensures forall u | 0 <= u < |units| :: values[u] == units[u].Value()
    {
      seq(|units|, u requires 0 <= u < |units| reads units => units[u].Value())
    }

    /** The units of the list whose slots and memory hold the job. */
    method WithRoom(list: seq<nat>, view: MemoryView) returns (roomy: seq<nat>)
      requires forall u | u in list :: u < |units|
      ensures roomy == Kept(list, RoomIn(Values(), view))
    {
      ghost var accepts := RoomIn(Values(), view);
      roomy := [];
      var p := 0;
      while p < |list|
        invariant p <= |list|
        invariant roomy + Kept(list[p..], accepts) == Kept(list, accepts)
      {
        var u := list[p];
        assert u in list && accepts(u) == HasRoom(units[u].Value(), view.fits(u));
        var room := units[u].CanTake(view.fits(u));
        if room {
          roomy := roomy + [u];
        }
        p := p + 1;
      }
    }

    /** The first of the units that holds the job's input. */
    method UnitHoldingInput(list: seq<nat>, view: MemoryView) returns (found: Option<nat>)
      ensures found == First(list, view.holdsInput)
    {
      var p := 0;
      while p < |list|
        invariant p <= |list|
        invariant First(list[p..], view.holdsInput) == First(list, view.holdsInput)
      {
        if view.holdsInput(list[p]) {
          return Some(list[p]);
        }
        p := p + 1;
      }
      return None;
    }

    method LeastWorkLeft(now: int) returns (least: Ticks)
      ensures forall u | 0 <= u < |units| ::
        IsFreeingFirst(Values(), now, u) <==> WorkLeft(units[u].Value(), now) == least
    {
      least := Unbounded;
      var u := 0;
      while u < |units|
        invariant u <= |units|
        invariant forall v | 0 <= v < u :: least.AtMost(WorkLeft(units[v].Value(), now))
        invariant least.Finite? ==> exists v | 0 <= v < u :: WorkLeft(units[v].Value(), now) == least
      {
        var work := units[u].WorkLeftTicks(now);
        if !least.AtMost(work) {
          least := work;
        }
        u := u + 1;
      }
    }

    /** Those of the units whose work left is the pool's least. */
    method FreeingFirst(list: seq<nat>, now: int) returns (first: seq<nat>)
      requires forall u | u in list :: u < |units|
      requires Increasing(list)
      ensures Increasing(first)
      ensures forall u | u in first :: u in list
      ensures forall u | u in list :: u in first <==> IsFreeingFirst(Values(), now, u)
    {
      var least := LeastWorkLeft(now);
      ghost var isFirst := FirstIn(Values(), now);
      first := [];
      var p := 0;
      while p < |list|
        invariant p <= |list|
        invariant first + Kept(list[p..], isFirst) == Kept(list, isFirst)
      {
        var u := list[p];
        assert u in list && isFirst(u) == IsFreeingFirst(Values(), now, u);
        KeptStep(first, list, p, isFirst);
        var work := units[u].WorkLeftTicks(now);
        if work == least {
          first := first + [u];
        }
        p := p + 1;
      }
      assert list[p..] == [] && first == Kept(list, isFirst);
      KeptMembers(list, isFirst);
      KeptIncreasing(list, isFirst);
      assert forall u | u in list :: u < |units| && isFirst(u) == IsFreeingFirst(Values(), now, u);
    }

    method RankIn(u: nat, now: int, view: MemoryView) returns (rank: Rank)
      requires u < |units|
      ensures rank == RankOf(Values(), now, view, u)
    {
      var work := units[u].WorkLeftTicks(now);
      var live := units[u].LiveResidents();
      rank := Rank(work, |live|, !view.holdsInput(u));
    }

    /** The units that may stage the job's input: with room, and freeing first. */
    method StagingUnits(now: int, view: MemoryView) returns (list: seq<nat>)
      ensures Increasing(list)
      ensures forall u | u in list :: u < |units| && Room(Values(), view, u) && IsFreeingFirst(Values(), now, u)
      ensures forall u | 0 <= u < |units| && IsFreeingFirst(Values(), now, u) && Room(Values(), view, u) :: u in list
    {
      var everyUnit := seq(|units|, (u: nat) => u);
      forall u: nat | u < |units|
        ensures u in everyUnit
      {
        assert everyUnit[u] == u;
      }
      list := WithRoom(everyUnit, view);
      KeptMembers(everyUnit, RoomIn(Values(), view));
      KeptIncreasing(everyUnit, RoomIn(Values(), view));
      list := FreeingFirst(list, now);
    }

    /** The unit to stage the job's input on, if any may take it. */
    method StagingOffer(now: int, view: MemoryView) returns (best: Option<nat>)
      ensures match best
        case Some(u) => IsStagingChoice(Values(), now, view, u)
        case None => forall u | 0 <= u < |units| && IsFreeingFirst(Values(), now, u) :: !Room(Values(), view, u)
    {
      var list := StagingUnits(now, view);
      if list == [] {
        return None;
      }
      assert forall q | 0 <= q < |list| :: list[q] in list;
      var least := list[0];
      var leastRank := RankIn(least, now, view);
      var p := 1;
      while p < |list|
        invariant 1 <= p <= |list| && forall q | 0 <= q < |list| :: list[q] < |units|
        invariant least in list && leastRank == RankOf(Values(), now, view, least)
        invariant forall q | 0 <= q < p :: Follows(RankOf(Values(), now, view, list[q]), list[q], leastRank, least)
        invariant forall q | p <= q < |list| :: least < list[q]
      {
        var rank := RankIn(list[p], now, view);
        if rank.Before(leastRank) {
          least, leastRank := list[p], rank;
        }
        p := p + 1;
      }
      forall v | 0 <= v < |units| && Room(Values(), view, v) && IsFreeingFirst(Values(), now, v)
        ensures Follows(RankOf(Values(), now, view, v), v, leastRank, least)
      {
        assert v in list;
      }
      return Some(least);
    }

    /** The free unit the job takes, if any has room. */
    method FreeUnitFor(view: MemoryView) returns (found: Option<nat>)
      requires forall f | f in free :: f < |units|
      ensures match found
        case Some(u) => IsFreeChoice(Values(), free, view, u)
        case None => NoFreeUnit(Values(), free, view)
    {
      var roomy := WithRoom(free, view);
      FreeChoiceOfKept(Values(), free, view);
      if roomy == [] {
        return None;
      }
      found := UnitHoldingInput(roomy, view);
      if found.None? {
        return Some(roomy[0]);
      }
    }

    /** The unit the job is offered: the rule's own answer. */
    method Offer(job: Job, now: int, view: MemoryView) returns (offer: Offer)
      requires forall f | f in free :: f < |units|
      ensures IsOffer(Values(), free, job, now, view, offer)
      ensures offer == OfferOf(Values(), free, job, now, view)
    {
      var freeUnit := FreeUnitFor(view);
      if freeUnit.Some? {
        offer := Placement(freeUnit.value, true);
      } else if !job.carriesInput {
        offer := NoUnit;
      } else {
        var staging := StagingOffer(now, view);
        offer := if staging.Some? then Placement(staging.value, false) else NoUnit;
      }
      OfferMeaning(Values(), free, job, now, view);
      OfferIsUnique(Values(), free, job, now, view, offer, OfferOf(Values(), free, job, now, view));
    }

    /** The unit's compute leaves the pool, or goes back to it. */
    method Claim(u: nat, id: nat)
      requires Valid() && u < |units|
      modifies this`free, units[u]
      ensures free == Without(old(free), u)
      ensures Values() == old(Values())[u := old(Values())[u].(holder := Some(id))]
    {
      free := Without(free, u);
      units[u].ClaimCompute(id);
    }

    method Release(u: nat)
      modifies this`free
      ensures free == old(free) + [u]
    {
      free := free + [u];
    }
  }

  // ------------------------------------------------- the lists of the loops

  /** A unit of the rank does not come before the other. */
  predicate Follows(rank: Rank, u: nat, other: Rank, v: nat) {
    !rank.Before(other) && (rank == other ==> v <= u)
  }

  function RoomIn(units: seq<Unit>, view: MemoryView): nat -> bool {
    (u: nat) => Room(units, view, u)
  }

  function FirstIn(units: seq<Unit>, now: int): nat -> bool {
    (u: nat) => u < |units| && IsFreeingFirst(units, now, u)
  }

  /** The entries a test accepts, in order. */
  function Kept(list: seq<nat>, accepts: nat -> bool): (kept: seq<nat>) {
    if list == [] then []
    else if accepts(list[0]) then [list[0]] + Kept(list[1..], accepts)
    else Kept(list[1..], accepts)
  }

  /** The next entry joins those kept before it, or not. */
  lemma KeptStep(before: seq<nat>, list: seq<nat>, p: nat, accepts: nat -> bool)
    requires p < |list|
    ensures before + Kept(list[p..], accepts) ==
      (if accepts(list[p]) then before + [list[p]] else before) + Kept(list[p + 1..], accepts)
  {
    assert list[p..][0] == list[p] && list[p..][1..] == list[p + 1..];
  }

  ghost predicate Increasing(list: seq<nat>) {
    forall p, q | 0 <= p < q < |list| :: list[p] < list[q]
  }

  lemma {:induction false} KeptMembers(list: seq<nat>, accepts: nat -> bool)
    ensures forall x :: x in Kept(list, accepts) <==> x in list && accepts(x)
  {
    if list != [] {
      KeptMembers(list[1..], accepts);
    }
  }

  lemma {:induction false} KeptIncreasing(list: seq<nat>, accepts: nat -> bool)
    requires Increasing(list)
    ensures Increasing(Kept(list, accepts))
  {
    if list != [] {
      KeptIncreasing(list[1..], accepts);
      KeptMembers(list[1..], accepts);
      var kept := Kept(list[1..], accepts);
      forall q | 0 <= q < |kept|
        ensures list[0] < kept[q]
      {
        assert kept[q] in list[1..];
      }
    }
  }

  /** The first kept entry holding the input, else the first kept, is the rule's free choice. */
  lemma FreeChoiceOfKept(units: seq<Unit>, free: seq<nat>, view: MemoryView)
    ensures var kept := Kept(free, RoomIn(units, view));
      match First(kept, view.holdsInput)
      case Some(u) => IsFreeChoice(units, free, view, u)
      case None => if kept == [] then NoFreeUnit(units, free, view) else IsFreeChoice(units, free, view, kept[0])
  {
    var room := RoomIn(units, view);
    var both := (u: nat) => room(u) && view.holdsInput(u);
    var kept := Kept(free, room);
    KeptMembers(free, room);
    FirstOfKept(free, room, view.holdsInput, both);
    if First(kept, view.holdsInput).Some? {
      var p := FirstIsEarliest(free, both);
    } else if kept != [] {
      var p := FirstIsEarliest(free, room);
      assert free[p] in free;
    }
  }

  /** Keeping what is accepted and then looking is looking for both. */
  lemma {:induction false} FirstOfKept(list: seq<nat>, accepts: nat -> bool, also: nat -> bool, both: nat -> bool)
    requires forall x :: both(x) == (accepts(x) && also(x))
    ensures First(Kept(list, accepts), also) == First(list, both)
    ensures First(list, accepts) == if Kept(list, accepts) == [] then None else Some(Kept(list, accepts)[0])
  {
    if list != [] {
      FirstOfKept(list[1..], accepts, also, both);
    }
  }
}
