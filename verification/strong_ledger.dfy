/** The ledger of escalated requests: what each call of the manager does to the records, to
    the results waiting in the units' output slots and to the ended requests.

    A request is one strong decode asked for on one pool for one destination window. Its
    place is that window and pool. A call that the source answers with an exception is
    Raised.
 */
module StrongLedgers {
  import opened Options

  /** lead names the attempt: the request itself, or the one a forced-class companion joins. */
  datatype Request = Request(key: nat, window: nat, pool: nat, lead: nat) {
    function At(): Place {
      Place(window, Some(pool))
    }
  }

  /** A destination window and a target pool; a pool that escalates nowhere has no target. */
  datatype Place = Place(window: nat, target: Option<nat>)

  /** The decode that serves a request: its own, or the merged batch it is in. */
  datatype Service = Own(key: nat) | Batch(id: nat)

  datatype Live = Live(request: Request, service: Service)

  datatype Phase = NothingAsked | WaitingSelection | WaitingResult

  /** One place's requests. arrived counts the results of the selected attempt that reached
      the destination since it asked; the source keeps no such count. */
  datatype Record = Record(
    live: seq<Live>,
    phase: Phase,
    selected: Option<nat>,
    owed: int,
    companions: map<nat, nat>,
    openWeak: set<nat>,
    arrived: nat)
  {
    predicate IsEmpty() {
      live == [] && phase.NothingAsked? && openWeak == {}
    }

    function CompanionsOf(lead: nat): nat {
      if lead in companions then companions[lead] else 0
    }
  }

  /** A finished result and the unit that produced it. */
  datatype Completion = Completion(request: Request, unit: nat)

  datatype Outcome = Delivered | CompletedDiscarded | Cancelled

  datatype Ended = Ended(key: nat, outcome: Outcome)

  datatype Ledger = Ledger(
    unitCount: nat,
    targets: map<nat, nat>,
    records: map<Place, Record>,
    abandoned: set<nat>,
    held: seq<Completion>,
    admitted: map<nat, Request>,
    ended: seq<Ended>,
    cancelledCount: nat,
    abandonedCount: nat)

  datatype Error = DuplicateRequest | NewerRequest | NoDestination | MergedAccuracy | NothingServed

  datatype Attempted = Done(ledger: Ledger) | Raised(error: Error)

  const NoRequests: Record := Record([], NothingAsked, None, 0, map[], {}, 0)

  // ------------------------------------------------------------ the records

  function RecordAt(l: Ledger, k: Place): Record {
    if k in l.records then l.records[k] else NoRequests
  }

  /** The record put back; one waiting on nothing leaves the ledger. */
  function Put(l: Ledger, k: Place, r: Record): (after: Ledger)
    ensures RecordAt(after, k) == if r.IsEmpty() then NoRequests else r
    ensures forall j :: j != k ==> RecordAt(after, j) == RecordAt(l, j)
    ensures after == l.(records := after.records)
  {
    if r.IsEmpty() then l.(records := l.records - {k}) else l.(records := l.records[k := r])
  }

  /** The place whose weak decodes the pool opens for the window. */
  function AttemptPlace(l: Ledger, window: nat, pool: nat): Place {
    Place(window, if pool in l.targets then Some(l.targets[pool]) else None)
  }

  function OpenAttempt(l: Ledger, k: Place, key: nat): Ledger {
    var r := RecordAt(l, k);
    Put(l, k, r.(openWeak := r.openWeak + {key}))
  }

  /** The request's decode will meet no verdict. */
  function CloseAttempt(l: Ledger, q: Request): (after: Ledger)
    ensures after == l.(records := after.records)
  {
    if q.pool !in l.targets then l
    else
      var k := AttemptPlace(l, q.window, q.pool);
      var r := RecordAt(l, k);
      Put(l, k, r.(openWeak := r.openWeak - {q.key}))
  }

  function CloseAttempts(l: Ledger, live: seq<Live>): (after: Ledger)
    ensures after == l.(records := after.records)
    decreases |live|
  {
    if live == [] then l else CloseAttempts(CloseAttempt(l, live[0].request), live[1..])
  }

  // ---------------------------------------------------------------- admission

  /** One more companion of the lead, and one more result owed if the lead was asked for. */
  function WithCompanion(r: Record, lead: nat): Record {
    var counted := r.(companions := r.companions[lead := r.CompanionsOf(lead) + 1]);
    if !r.phase.NothingAsked? && r.selected == Some(lead) then counted.(owed := r.owed + 1) else counted
  }

  function AdmitStrong(l: Ledger, q: Request): Attempted {
    var r := RecordAt(l, q.At());
    if r.live != [] && q.lead == q.key then Raised(DuplicateRequest)
    else
      var counted := if q.lead != q.key then WithCompanion(r, q.lead) else r;
      var admitted := Put(l, q.At(), counted.(live := counted.live + [Live(q, Own(q.key))]))
        .(admitted := l.admitted[q.key := q]);
      Done(if q.pool in l.targets then OpenAttempt(admitted, AttemptPlace(l, q.window, q.pool), q.key) else admitted)
  }

  function AdmitWeak(l: Ledger, window: nat, pool: nat, key: nat): Ledger {
    OpenAttempt(l, AttemptPlace(l, window, pool), key)
  }

  /** The source pool's decode of the window has its directive. */
  function ResolveWeak(l: Ledger, window: nat, pool: nat): Ledger {
    var k := AttemptPlace(l, window, pool);
    Put(l, k, RecordAt(l, k).(openWeak := {}))
  }

  // ---------------------------------------------------- selection and completion

  function BeginSelection(l: Ledger, k: Place, lead: nat): Ledger {
    var r := RecordAt(l, k);
    Put(l, k, r.(phase := WaitingSelection, selected := Some(lead), owed := 1 + r.CompanionsOf(lead), arrived := 0))
  }

  predicate IsSelected(l: Ledger, k: Place, lead: nat) {
    RecordAt(l, k).phase.WaitingSelection? && RecordAt(l, k).selected == Some(lead)
  }

  /** The destination waits for this attempt's results now. */
  predicate IsAwaited(l: Ledger, q: Request) {
    RecordAt(l, q.At()).phase.WaitingResult? && RecordAt(l, q.At()).selected == Some(q.lead)
  }

  predicate HasNewer(l: Ledger, q: Request) {
    exists i | 0 <= i < |RecordAt(l, q.At()).live| :: RecordAt(l, q.At()).live[i].request.lead != q.lead
  }

  predicate MayConsume(l: Ledger, k: Place) {
    !RecordAt(l, k).phase.NothingAsked? || RecordAt(l, k).openWeak != {}
  }

  /** One of the awaited results arrived; the last one ends the wait. */
  function OneArrived(r: Record, lead: nat): Record {
    if r.owed - 1 > 0 then r.(owed := r.owed - 1, arrived := r.arrived + 1)
    else
      r.(owed := r.owed - 1, arrived := r.arrived + 1, phase := NothingAsked, selected := None,
         companions := r.companions - {lead})
  }

  /** A finished result: dropped if abandoned, delivered if awaited, else held at its unit. */
  function Complete(l: Ledger, c: Completion): Attempted {
    var q := c.request;
    if q.key in l.abandoned then
      Done(CloseAttempt(
        l.(abandoned := l.abandoned - {q.key}, abandonedCount := l.abandonedCount + 1,
           ended := l.ended + [Ended(q.key, CompletedDiscarded)]), q))
    else if IsAwaited(l, q) then
      Done(Put(l, q.At(), OneArrived(RecordAt(l, q.At()), q.lead)).(ended := l.ended + [Ended(q.key, Delivered)]))
    else if HasNewer(l, q) then Raised(NewerRequest)
    else if !MayConsume(l, q.At()) then Raised(NoDestination)
    else Done(l.(held := l.held + [c]))
  }

  function CompleteAll(l: Ledger, cs: seq<Completion>): Attempted
    decreases |cs|
  {
    if cs == [] then Done(l)
    else
      match Complete(l, cs[0])
      case Raised(e) => Raised(e)
      case Done(next) => CompleteAll(next, cs[1..])
  }

  // ------------------------------------------------------- the output slots

  function AtUnit(held: seq<Completion>, k: Place, unit: nat): seq<Completion> {
    if held == [] then []
    else
      (if held[0].request.At() == k && held[0].unit == unit then [held[0]] else []) + AtUnit(held[1..], k, unit)
  }

  /** The place's results in the order they leave: unit by unit, each unit's oldest first. */
  function Outputs(held: seq<Completion>, k: Place, unit: nat, unitCount: nat): seq<Completion>
    decreases unitCount - unit
  {
    if unit >= unitCount then [] else AtUnit(held, k, unit) + Outputs(held, k, unit + 1, unitCount)
  }

  function Elsewhere(held: seq<Completion>, k: Place): seq<Completion> {
    if held == [] then []
    else (if held[0].request.At() == k then [] else [held[0]]) + Elsewhere(held[1..], k)
  }

  function OutputsAt(l: Ledger, k: Place): seq<Completion> {
    Outputs(l.held, k, 0, l.unitCount)
  }

  /** The selection landed: if it is the one sent, the waiting results go to the window. */
  function AcceptSelection(l: Ledger, k: Place, lead: nat): Attempted {
    if !IsSelected(l, k, lead) then Done(l)
    else
      var landed := Put(l, k, RecordAt(l, k).(phase := WaitingResult));
      CompleteAll(landed.(held := Elsewhere(l.held, k)), OutputsAt(l, k))
  }

  function EndedAs(cs: seq<Completion>, outcome: Outcome): (e: seq<Ended>)
    ensures |e| == |cs| && forall i | 0 <= i < |cs| :: e[i] == Ended(cs[i].request.key, outcome)
  {
    seq(|cs|, i requires 0 <= i < |cs| => Ended(cs[i].request.key, outcome))
  }

  function DiscardOutputs(l: Ledger, k: Place): Ledger {
    l.(held := Elsewhere(l.held, k), ended := l.ended + EndedAs(OutputsAt(l, k), CompletedDiscarded))
  }

  // ----------------------------------------------------------- cancel, abandon

  function CancelledLive(live: seq<Live>): (e: seq<Ended>)
    ensures |e| == |live| && forall i | 0 <= i < |live| :: e[i] == Ended(live[i].request.key, Cancelled)
  {
    seq(|live|, i requires 0 <= i < |live| => Ended(live[i].request.key, Cancelled))
  }

  function TakeLive(l: Ledger, k: Place): Ledger {
    var r := RecordAt(l, k);
    CloseAttempts(Put(l, k, r.(live := [], companions := map[])), r.live)
  }

  function CancelStrong(l: Ledger, k: Place): Ledger {
    var taken := RecordAt(l, k).live;
    var rest := TakeLive(DiscardOutputs(l, k), k);
    if taken == [] then rest.(cancelledCount := l.cancelledCount + |OutputsAt(l, k)|)
    else rest.(cancelledCount := l.cancelledCount + |taken|, ended := rest.ended + CancelledLive(taken))
  }

  function KeysOf(live: seq<Live>): set<nat> {
    set i | 0 <= i < |live| :: live[i].request.key
  }

  function AbandonStrong(l: Ledger, k: Place): Ledger {
    DiscardOutputs(l, k).(
      abandonedCount := l.abandonedCount + |OutputsAt(l, k)|,
      abandoned := l.abandoned + KeysOf(RecordAt(l, k).live))
  }

  // ------------------------------------------------------ service and batches

  function NotServedBy(live: seq<Live>, service: Service): (rest: seq<Live>)
    ensures |rest| <= |live|
  {
    if live == [] then []
    else (if live[0].service == service then [] else [live[0]]) + NotServedBy(live[1..], service)
  }

  function ServedRecord(r: Record, service: Service): Record {
    r.(live := NotServedBy(r.live, service))
  }

  /** The decode ended: its requests are no longer live anywhere. */
  function FinishService(l: Ledger, service: Service): (after: Ledger)
    ensures after == l.(records := after.records)
  {
    l.(records := map k | k in l.records &&
         !(NotServedBy(l.records[k].live, service) != l.records[k].live
           && ServedRecord(l.records[k], service).IsEmpty())
       :: ServedRecord(l.records[k], service))
  }

  predicate Serves(l: Ledger, service: Service, q: Request) {
    Live(q, service) in RecordAt(l, q.At()).live
  }

  function CompletionsOf(requests: seq<Request>, unit: nat): (cs: seq<Completion>)
    ensures |cs| == |requests| && forall i | 0 <= i < |cs| :: cs[i] == Completion(requests[i], unit)
  {
    seq(|requests|, i requires 0 <= i < |requests| => Completion(requests[i], unit))
  }

  /** The decode's end, with the requests it served in the ledger's order. A merged decode
      may carry no accuracy of its own unless it answers each member apart. */
  function DecodeDone(
    l: Ledger, service: Service, requests: seq<Request>, unit: nat, isMerged: bool, hasOwnAccuracy: bool): Attempted
  {
    if requests == [] then Raised(NothingServed)
    else if (|requests| > 1 || isMerged) && hasOwnAccuracy then Raised(MergedAccuracy)
    else CompleteAll(FinishService(l, service), CompletionsOf(requests, unit))
  }

  /** The request is its record's only live one, now served by the given decode. */
  function ServeBy(l: Ledger, requests: seq<Request>, service: Request -> Service): (after: Ledger)
    ensures after == l.(records := after.records)
    decreases |requests|
  {
    if requests == [] then l
    else
      var q := requests[0];
      ServeBy(Put(l, q.At(), RecordAt(l, q.At()).(live := [Live(q, service(q))])), requests[1..], service)
  }

  function RegisterBatch(l: Ledger, requests: seq<Request>, id: nat): (after: Ledger)
    ensures after == l.(records := after.records)
  {
    ServeBy(l, requests, (_: Request) => Batch(id))
  }

  function Reopen(l: Ledger, members: seq<Request>): (after: Ledger)
    ensures after == l.(records := after.records)
  {
    ServeBy(l, members, (q: Request) => Own(q.key))
  }
}
