/** The decoder side as a state and its steps: what each manager entry point and each
    engine callback does to the queue, the units, the jobs and the device's slots.

    The functions are the meaning of decode_service.py, decode_dispatch.py, execution_slots.py
    and of the manager's entry points. What the model cannot see is a parameter: the
    scheduler's pick, the memory's answers, the link's expected delay and whether an input
    is on the unit already.
 */
module DecodeSteps {
  import opened Options
  import opened Lists
  import opened DecoderPools

  /** A decode on the shared device: one of this pool's units, or another pool's. */
  datatype Decode = Own(unit: nat, job: nat) | Foreign(name: nat)

  datatype Device = Device(slotCount: nat, running: seq<Decode>, waiting: seq<Decode>)

  /** A report of the job_started trace source. */
  datatype Started = Started(job: nat, tick: int)

  /** The whole side. gone lists the jobs that left their unit or the queue for good. */
  datatype Side = Side(
    now: int,
    nextId: nat,
    waiting: seq<Job>,
    units: seq<Unit>,
    free: seq<nat>,
    device: Option<Device>,
    dispatchIsFree: bool,
    startLog: seq<Started>,
    gone: seq<nat>)

  /** A scheduler's pop: the place in the queue of the job it takes next. */
  type Pick = pick: (nat, seq<Job>) -> nat | forall k, q :: q != [] ==> pick(k, q) < |q|
    witness (k: nat, q: seq<Job>) => 0

  /** How a dispatched job's input moves: on the unit already, or expected at a tick. */
  datatype Staging = AtOnce | Expected(landing: Option<int>)

  /** The answers the rest of the machine gives during one run of the dispatch loop; the
      first argument counts the loop's rounds. */
  datatype Environment = Environment(
    pick: Pick,
    fits: (nat, nat, nat) -> bool,
    holdsInput: (nat, nat, nat) -> bool,
    staging: nat -> Staging)
  {
    function ViewOf(k: nat, id: nat): MemoryView {
      MemoryView((u: nat) => fits(k, id, u), (u: nat) => holdsInput(k, id, u))
    }
  }

  /** The first place of the job in the slots; the slots' length when it has none. */
  function PlaceOf(residents: seq<Job>, id: nat): (p: nat)
    ensures p <= |residents|
    ensures p < |residents| ==> residents[p].id == id
    ensures forall q | 0 <= q < p :: residents[q].id != id
  {
    if residents == [] then 0
    else if residents[0].id == id then 0
    else 1 + PlaceOf(residents[1..], id)
  }

  /** The place depends on the ids alone. */
  lemma SamePlaces(a: seq<Job>, b: seq<Job>)
    requires |a| <= |b| && forall q | 0 <= q < |a| :: a[q].id == b[q].id
    ensures forall id :: PlaceOf(a, id) < |a| ==> PlaceOf(b, id) == PlaceOf(a, id)
    ensures forall id :: PlaceOf(a, id) == |a| ==> PlaceOf(b, id) >= |a|
  {
    forall id: nat
      ensures PlaceOf(a, id) < |a| ==> PlaceOf(b, id) == PlaceOf(a, id)
      ensures PlaceOf(a, id) == |a| ==> PlaceOf(b, id) >= |a|
    {
      var p, q := PlaceOf(a, id), PlaceOf(b, id);
      assert p < |a| ==> a[p].id == b[p].id;
      assert q < |a| ==> a[q].id == b[q].id;
    }
  }

  predicate Holds(unit: Unit, id: nat) {
    PlaceOf(unit.residents, id) < |unit.residents|
  }

  function JobOn(unit: Unit, id: nat): (job: Job)
    requires Holds(unit, id)
    ensures job.id == id && job in unit.residents
  {
    unit.residents[PlaceOf(unit.residents, id)]
  }

  function WithJob(unit: Unit, job: Job): (r: Unit)
    requires Holds(unit, job.id)
    ensures |r.residents| == |unit.residents| && r.holder == unit.holder && r.expectedFree == unit.expectedFree
    ensures Holds(r, job.id) && JobOn(r, job.id) == job
    ensures forall q | 0 <= q < |r.residents| :: r.residents[q].id == unit.residents[q].id
    ensures forall id :: PlaceOf(r.residents, id) == PlaceOf(unit.residents, id)
  {
    var p := PlaceOf(unit.residents, job.id);
    SamePlaces(unit.residents, unit.residents[p := job]);
    unit.(residents := unit.residents[p := job])
  }

  predicate OnUnit(s: Side, u: nat, id: nat) {
    u < |s.units| && Holds(s.units[u], id)
  }

  /** What no placing, starting or handing on of decodes changes. */
  ghost predicate SameQueue(s: Side, r: Side) {
    && |r.units| == |s.units| && r.waiting == s.waiting && r.now == s.now && r.nextId == s.nextId
    && r.dispatchIsFree == s.dispatchIsFree
  }

  /** Every slot of every unit holds the request it held. */
  ghost predicate SameSlots(s: Side, r: Side) {
    && |r.units| == |s.units| && r.gone == s.gone
    && (forall u | 0 <= u < |s.units| :: SameIds(s.units[u].residents, r.units[u].residents))
  }

  ghost predicate SameIds(a: seq<Job>, b: seq<Job>) {
    |a| == |b| && forall q | 0 <= q < |a| :: a[q].id == b[q].id
  }

  // ---------------------------------------------------------- one decode

  /** The unit with its expected free tick renewed for the job that holds its compute. */
  function Predicted(unit: Unit, job: Job, now: int): Unit {
    var start :=
      if job.landingTicks.Some? && job.landingTicks.value > now then job.landingTicks.value else now;
    unit.(expectedFree := Finite(start).Plus(job.occupancy))
  }

  /** Start the decode on its unit. */
  function Start(s: Side, u: nat, id: nat): (r: Side)
    requires OnUnit(s, u, id)
    ensures SameQueue(s, r) && SameSlots(s, r) && r.free == s.free
  {
    var job := JobOn(s.units[u], id).(started := true);
    s.(
      units := s.units[u := Predicted(WithJob(s.units[u], job), job, s.now)],
      startLog := s.startLog + [Started(id, s.now)])
  }

  /** The unit's memory holds the input: start, or wait for a slot of the shared device. */
  function Begin(s: Side, u: nat, id: nat): (r: Side)
    requires OnUnit(s, u, id)
    ensures SameQueue(s, r) && SameSlots(s, r) && r.free == s.free
  {
    if JobOn(s.units[u], id).cancelled then s
    else
      match s.device
      case None => Start(s, u, id)
      case Some(d) =>
        if |d.running| < d.slotCount then
          Start(s.(device := Some(d.(running := d.running + [Own(u, id)]))), u, id)
        else
          s.(device := Some(d.(waiting := d.waiting + [Own(u, id)])))
  }

  /** The input is whole: a holder starts, any other resident is marked landed. */
  function Land(s: Side, u: nat, id: nat): (r: Side)
    requires OnUnit(s, u, id)
    ensures SameQueue(s, r) && SameSlots(s, r) && r.free == s.free
  {
    var job := JobOn(s.units[u], id).(landed := true, landingTicks := Some(s.now));
    var landed := s.(units := s.units[u := WithJob(s.units[u], job)]);
    if s.units[u].holder == Some(id) then Begin(landed, u, id) else landed
  }

  /** The job's input is asked for: it lands at once, or at the tick the link expects. */
  function Staged(s: Side, u: nat, id: nat, staging: Staging): (r: Side)
    requires OnUnit(s, u, id)
    ensures SameQueue(s, r) && SameSlots(s, r) && r.free == s.free && OnUnit(r, u, id)
  {
    var job := JobOn(s.units[u], id).(isAsked := true);
    match staging
    case AtOnce => Land(s.(units := s.units[u := WithJob(s.units[u], job)]), u, id)
    case Expected(landing) =>
      s.(units := s.units[u := WithJob(s.units[u], job.(landingTicks := landing))])
  }

  /** The job's input may move. */
  function AskForInput(s: Side, u: nat, id: nat, staging: Staging): (r: Side)
    requires OnUnit(s, u, id)
    ensures SameQueue(s, r) && SameSlots(s, r) && r.free == s.free
  {
    var staged := Staged(s, u, id, staging);
    if JobOn(s.units[u], id).claimsAtDispatch then
      staged.(units := staged.units[u := Predicted(staged.units[u], JobOn(staged.units[u], id), s.now)])
    else staged
  }

  /** The job's slot on the unit, and the claim on its compute. */
  function Admit(s: Side, u: nat, job: Job, claims: bool): (r: Side)
    requires u < |s.units|
    ensures SameQueue(s, r) && r.gone == s.gone && OnUnit(r, u, job.id)
  {
    var unit := s.units[u].(residents := s.units[u].residents + [job.(claimsAtDispatch := claims)]);
    assert unit.residents[|s.units[u].residents|].id == job.id;
    s.(
      units := s.units[u := if claims then unit.(holder := Some(job.id)) else unit],
      free := if claims then Without(s.free, u) else s.free)
  }

  /** A placed job becomes a resident and its transfer is under way. */
  function DispatchTo(s: Side, u: nat, job: Job, claims: bool, staging: Staging): (r: Side)
    requires u < |s.units|
    ensures SameQueue(s, r) && r.gone == s.gone
  {
    var admitted := Admit(s, u, job, claims);
    if s.dispatchIsFree then AskForInput(admitted, u, job.id, staging) else admitted
  }

  // ------------------------------------------------------ compute passes on

  /** The first resident not past its start whose landed flag is the given one. */
  function OldestResident(residents: seq<Job>, landed: bool): (found: Option<nat>)
    ensures found.Some? ==> PlaceOf(residents, found.value) < |residents|
  {
    if residents == [] then None
    else if !residents[0].IsPastStart() && residents[0].landed == landed then Some(residents[0].id)
    else OldestResident(residents[1..], landed)
  }

  /** The claim passes to the first resident that has landed and not started; with none landed it
      is kept for the first in flight; with no resident left the unit joins the free list. */
  function OfferCompute(s: Side, u: nat): (r: Side)
    requires u < |s.units|
    ensures SameQueue(s, r) && SameSlots(s, r)
  {
    var unit := s.units[u];
    if unit.holder.Some? then s
    else
      var ready := OldestResident(unit.residents, true);
      var landing := OldestResident(unit.residents, false);
      if ready.Some? then
        Begin(s.(units := s.units[u := unit.(holder := ready)]), u, ready.value)
      else if landing.Some? then
        var reserved := unit.(holder := landing);
        s.(units := s.units[u := Predicted(reserved, JobOn(reserved, landing.value), s.now)])
      else
        s.(free := s.free + [u])
  }

  /** The job leaves its slot, and gives its unit's compute up if it held it. */
  function Left(unit: Unit, id: nat): Unit
    requires Holds(unit, id)
  {
    var p := PlaceOf(unit.residents, id);
    var without := unit.(residents := unit.residents[..p] + unit.residents[p + 1..]);
    if unit.holder == Some(id) then without.(holder := None, expectedFree := Unbounded) else without
  }

  /** The device's waiting decodes stand on their units. */
  ghost predicate WaitingOnUnits(s: Side) {
    s.device.Some? ==>
      forall d | d in s.device.value.waiting && d.Own? :: OnUnit(s, d.unit, d.job)
  }

  /** The device's waiting decodes start, oldest first, while a slot is free. */
  function StartWaiting(s: Side): (r: Side)
    requires WaitingOnUnits(s)
    ensures SameQueue(s, r) && SameSlots(s, r) && r.free == s.free
    decreases if s.device.Some? then |s.device.value.waiting| else 0
  {
    match s.device
    case None => s
    case Some(d) =>
      if d.waiting == [] || |d.running| >= d.slotCount then s
      else
        var granted := s.(device := Some(d.(running := d.running + [d.waiting[0]], waiting := d.waiting[1..])));
        assert d.waiting[0] in d.waiting;
        match d.waiting[0]
        case Foreign(_) => StartWaiting(granted)
        case Own(u, id) => StartWaiting(Start(granted, u, id))
  }

  /** The decode's slot of the device goes to the oldest waiting decode. */
  function GiveBack(s: Side, decode: Decode): (r: Side)
    requires WaitingOnUnits(s)
    ensures SameQueue(s, r) && SameSlots(s, r) && r.free == s.free
  {
    match s.device
    case None => s
    case Some(d) => StartWaiting(s.(device := Some(d.(running := Without(d.running, decode)))))
  }

  /** A decode waiting for a slot of the device stops waiting. */
  function Withdraw(s: Side, decode: Decode): (r: Side)
    ensures SameQueue(s, r) && SameSlots(s, r) && r.free == s.free
  {
    match s.device
    case None => s
    case Some(d) => s.(device := Some(d.(waiting := Without(d.waiting, decode))))
  }

  /** Another pool's decode asks the device for a slot. */
  function ForeignTake(s: Side, name: nat): Side {
    match s.device
    case None => s
    case Some(d) =>
      if |d.running| < d.slotCount then s.(device := Some(d.(running := d.running + [Foreign(name)])))
      else s.(device := Some(d.(waiting := d.waiting + [Foreign(name)])))
  }

  /** The job is off its unit and done with. */
  function LeaveUnit(s: Side, u: nat, id: nat): (r: Side)
    requires OnUnit(s, u, id)
    ensures SameQueue(s, r)
  {
    s.(units := s.units[u := Left(s.units[u], id)], gone := s.gone + [id])
  }

  /** Compute finished: the job's slots go back and its unit's compute passes on. */
  function Free(s: Side, u: nat, id: nat): (r: Side)
    requires OnUnit(s, u, id) && WaitingOnUnits(LeaveUnit(s, u, id))
    ensures SameQueue(s, r)
  {
    OfferCompute(GiveBack(LeaveUnit(s, u, id), Own(u, id)), u)
  }

  /** A resident that has not started is taken out; if it was the holder the claim moves on. */
  function Evict(s: Side, u: nat, id: nat): (r: Side)
    requires OnUnit(s, u, id)
    ensures SameQueue(s, r)
  {
    var left := LeaveUnit(Withdraw(s, Own(u, id)), u, id);
    if s.units[u].holder == Some(id) then OfferCompute(left, u) else left
  }

  // -------------------------------------------------------------- dispatch

  /** The queue as the scheduler pops it, next job first. */
  function Drain(pick: Pick, k: nat, queue: seq<Job>): (ordered: seq<Job>)
    ensures |ordered| == |queue|
    decreases |queue|
  {
    if queue == [] then []
    else
      var p := pick(k, queue);
      [queue[p]] + Drain(pick, k, queue[..p] + queue[p + 1..])
  }

  datatype Selection = Selected(index: nat, unit: nat, claims: bool) | NoSelection

  /** The offer the pool makes one waiting job in the loop's round k. */
  function OfferFor(s: Side, job: Job, env: Environment, k: nat): Offer {
    OfferOf(s.units, s.free, job, s.now, env.ViewOf(k, job.id))
  }

  /** The first job in scheduler order that may start and has a unit. */
  function FirstPlacement(s: Side, ordered: seq<Job>, from: nat, env: Environment, k: nat): (r: Selection)
    requires from <= |ordered|
    ensures r.Selected? ==> from <= r.index < |ordered| && ordered[r.index].isStartable
    ensures r.Selected? ==> OfferFor(s, ordered[r.index], env, k) == Placement(r.unit, r.claims)
    ensures forall i | from <= i < (if r.Selected? then r.index else |ordered|) ::
      ordered[i].isStartable ==> OfferFor(s, ordered[i], env, k).NoUnit?
    decreases |ordered| - from
  {
    if from == |ordered| then NoSelection
    else if !ordered[from].isStartable then FirstPlacement(s, ordered, from + 1, env, k)
    else
      match OfferFor(s, ordered[from], env, k)
      case NoUnit => FirstPlacement(s, ordered, from + 1, env, k)
      case Placement(u, claims) => Selected(from, u, claims)
  }

  /** One queued job leaves the ordered queue for the unit it was offered. */
  function Place(s: Side, ordered: seq<Job>, index: nat, u: nat, claims: bool, env: Environment): (r: Side)
    requires index < |ordered| && u < |s.units|
    ensures r.waiting == ordered[..index] + ordered[index + 1..]
    ensures SameQueue(s, r.(waiting := s.waiting)) && r.gone == s.gone
  {
    DispatchTo(
      s.(waiting := ordered[..index] + ordered[index + 1..]),
      u, ordered[index], claims, env.staging(ordered[index].id))
  }

  /** What one round of the loop leaves: the queue put back with a job placed, or as drained. */
  datatype Round = Placed(side: Side) | NothingPlaced(side: Side)

  function RoundOf(s: Side, env: Environment, k: nat): (r: Round)
    ensures |r.side.waiting| == if r.Placed? then |s.waiting| - 1 else |s.waiting|
    ensures SameQueue(s, r.side.(waiting := s.waiting)) && r.side.gone == s.gone
  {
    var ordered := Drain(env.pick, k, s.waiting);
    match FirstPlacement(s, ordered, 0, env, k)
    case NoSelection => NothingPlaced(s.(waiting := ordered))
    case Selected(index, u, claims) => Placed(Place(s, ordered, index, u, claims, env))
  }

  /** Rounds of some rule, each placing one queued job or ending the loop. */
  type Rounds = rule: (Side, nat) -> Round |
      forall s, k :: rule(s, k).Placed? ==> |rule(s, k).side.waiting| == |s.waiting| - 1
    witness (s: Side, k: nat) => NothingPlaced(s)

  /** Rounds from the k-th on, until the queue is empty or a round places nothing. */
  function Loop(s: Side, rule: Rounds, k: nat): Side
    decreases |s.waiting|
  {
    if s.waiting == [] then s
    else
      var round := rule(s, k);
      if round.Placed? then Loop(round.side, rule, k + 1) else round.side
  }

  /** The dispatch loop. */
  function Dispatch(s: Side, env: Environment): Side {
    Loop(s, (t: Side, k: nat) => RoundOf(t, env, k), 0)
  }
}
