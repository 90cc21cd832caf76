/** Every run of the strong requests' ledger. */
module StrongRuns {
  import opened Options
  import opened StrongLedgers
  import opened StrongAccounts
  import opened StrongAttempts
  import opened StrongCalls

  datatype Call =
    | Admit(request: Request)
    | OpenWeak(window: nat, pool: nat, key: nat)
    | Resolve(window: nat, pool: nat)
    | Ask(place: Place, lead: nat)
    | SelectionLanded(place: Place, lead: nat)
    | Ends(service: Service, requests: seq<Request>, unit: nat, isMerged: bool, hasOwnAccuracy: bool)
    | Cancel(window: nat, chain: seq<nat>)
    | Abandon(window: nat, chain: seq<nat>)
    | Merge(requests: seq<Request>, id: nat)
    | OpenBatch(members: seq<Request>)

  function Perform(l: Ledger, call: Call): Attempted {
    match call
    case Admit(q) => AdmitStrong(l, q)
    case OpenWeak(window, pool, key) => Done(AdmitWeak(l, window, pool, key))
    case Resolve(window, pool) => Done(ResolveWeak(l, window, pool))
    case Ask(k, lead) => Done(BeginSelection(l, k, lead))
    case SelectionLanded(k, lead) => AcceptSelection(l, k, lead)
    case Ends(service, requests, unit, isMerged, accuracy) => DecodeDone(l, service, requests, unit, isMerged, accuracy)
    case Cancel(window, chain) => Done(CancelChain(l, window, chain))
    case Abandon(window, chain) => Done(AbandonChain(l, window, chain))
    case Merge(requests, id) => Done(RegisterBatch(l, requests, id))
    case OpenBatch(members) => Done(Reopen(l, members))
  }

  // ------------------------------------------- nothing is dropped silently

  /** What the manager itself sees to: a request is admitted once, a decode's end names the
      requests it serves, a batch is made of requests each alone in its record. */
  ghost predicate WellFormed(l: Ledger, call: Call) {
    match call
    case Admit(q) => q.key !in l.admitted
    case Ends(service, requests, unit, _, _) => ServedExactly(l, service, requests) && unit < l.unitCount
    case Merge(requests, _) => AllLive(l, requests) && forall i | 0 <= i < |requests| :: IsAlone(l, requests[i])
    case OpenBatch(members) => AllLive(l, members) && forall i | 0 <= i < |members| :: IsAlone(l, members[i])
    case _ => true
  }

  /** Whatever the window side does, a call that does not raise keeps every request in one
      place: live, held, or ended once. */
  lemma CallAccounts(l: Ledger, call: Call)
    requires Accounted(l, []) && WellFormed(l, call) && Perform(l, call).Done?
    ensures Accounted(Perform(l, call).ledger, [])
  {
    match call {
      case Admit(q) => AdmitAccounts(l, q);
      case OpenWeak(window, pool, key) => AccountKept(l, AdmitWeak(l, window, pool, key), []);
      case Resolve(window, pool) => AccountKept(l, ResolveWeak(l, window, pool), []);
      case Ask(k, lead) => AccountKept(l, BeginSelection(l, k, lead), []);
      case SelectionLanded(k, lead) => SelectionAccounts(l, k, lead);
      case Ends(service, requests, unit, isMerged, accuracy) =>
        DecodeDoneAccounts(l, service, requests, unit, isMerged, accuracy);
      case Cancel(window, chain) => CancelChainAccounts(l, window, chain);
      case Abandon(window, chain) => AbandonChainAccounts(l, window, chain);
      case Merge(requests, id) => ServeAloneAccounts(l, requests, (_: Request) => Batch(id));
      case OpenBatch(members) => ServeAloneAccounts(l, members, (q: Request) => Own(q.key));
    }
  }

  lemma {:induction false} CancelChainAccounts(l: Ledger, window: nat, chain: seq<nat>)
    requires Accounted(l, [])
    ensures Accounted(CancelChain(l, window, chain), [])
    decreases |chain|
  {
    if chain != [] {
      CancelAccounts(l, Place(window, Some(chain[0])));
      CancelChainAccounts(CancelStrong(l, Place(window, Some(chain[0]))), window, chain[1..]);
    }
  }

  lemma {:induction false} AbandonChainAccounts(l: Ledger, window: nat, chain: seq<nat>)
    requires Accounted(l, [])
    ensures Accounted(AbandonChain(l, window, chain), [])
    decreases |chain|
  {
    if chain != [] {
      AbandonAccounts(l, Place(window, Some(chain[0])));
      AbandonChainAccounts(AbandonStrong(l, Place(window, Some(chain[0]))), window, chain[1..]);
    }
  }

  /** A request has ended exactly once, or its result has yet to reach its destination. */
  lemma OneOutcome(l: Ledger, key: nat)
    requires Accounted(l, []) && key in l.admitted
    ensures CountEnded(l.ended, key) == if IsOut(l, [], l.admitted[key].At(), l.admitted[key]) then 0 else 1
  {
    var q := l.admitted[key];
    var live := RecordAt(l, q.At()).live;
    assert Places(l, [], key) == 1 && q.key == key;
    CountLiveMember(live, key);
    CountHeldMember(l.held, key);
    LiveIsCounted(l, q);
    if CountLive(live, key) > 0 {
      var i :| 0 <= i < |live| && live[i].request.key == key;
      assert LiveKnown(l, q.At());
      assert Live(q, live[i].service) in live;
    }
  }

  // --------------------------------------------------- the whole protocol

  /** What the window side promises besides; a decode's end, which is no call of its, may come
      at any time. */
  ghost predicate May(l: Ledger, call: Call) {
    && WellFormed(l, call)
    && match call
       case Admit(q) => MayAdmit(l, q)
       case OpenWeak(_, _, key) => key !in l.admitted
       case Resolve(window, pool) => MayResolve(l, AttemptPlace(l, window, pool))
       case Ask(k, lead) => MayBegin(l, k, lead)
       case Cancel(window, chain) => MayEndChain(l, window, chain)
       case Abandon(window, chain) => MayEndChain(l, window, chain)
       case _ => true
  }

  /** The error a call answers with: none but a decode's end has one, which served nothing, or
      was merged and carries an accuracy of its own. */
  function ErrorOf(call: Call): Option<Error> {
    match call
    case Ends(_, requests, _, isMerged, accuracy) =>
      if requests == [] then Some(NothingServed)
      else if CarriesMergedAccuracy(requests, isMerged, accuracy) then Some(MergedAccuracy)
      else None
    case _ => None
  }

  /** No call finds a duplicate, a newer request or a result with no destination; what else it
      raises is read off the call itself. */
  lemma CallKeeps(l: Ledger, call: Call)
    requires Sound(l, []) && May(l, call)
    ensures if ErrorOf(call).Some? then Perform(l, call) == Raised(ErrorOf(call).value)
            else Perform(l, call).Done? && Sound(Perform(l, call).ledger, [])
  {
    match call {
      case Admit(q) => AdmitKeeps(l, q);
      case OpenWeak(window, pool, key) => OpenKeeps(l, AttemptPlace(l, window, pool), key);
      case Resolve(window, pool) => ResolveKeepsExactly(l, window, pool);
      case Ask(k, lead) => BeginKeeps(l, k, lead);
      case SelectionLanded(k, lead) => SelectionDelivers(l, k, lead);
      case Ends(service, requests, unit, isMerged, accuracy) =>
        if requests != [] {
          DecodeDoneKeeps(l, service, requests, unit, isMerged, accuracy);
        }
      case Cancel(window, chain) => ChainKeeps(l, window, chain);
      case Abandon(window, chain) => ChainKeeps(l, window, chain);
      case Merge(requests, id) => ServeKeeps(l, requests, (_: Request) => Batch(id));
      case OpenBatch(members) => ServeKeeps(l, members, (q: Request) => Own(q.key));
    }
  }

  function Empty(unitCount: nat, targets: map<nat, nat>): Ledger {
    Ledger(unitCount, targets, map[], {}, [], map[], [], 0, 0)
  }

  lemma EmptyIsSound(unitCount: nat, targets: map<nat, nat>)
    requires forall p | p in targets :: targets[p] != p
    ensures Sound(Empty(unitCount, targets), [])
  {
    var l := Empty(unitCount, targets);
    forall k
      ensures HasAttempt(l, [], k)
    {
      assert Attempt(l, [], k, 0);
    }
  }

  ghost predicate IsRun(l: Ledger, calls: seq<Call>)
    decreases |calls|
  {
    calls == [] ||
    (May(l, calls[0]) && (Perform(l, calls[0]).Done? ==> IsRun(Perform(l, calls[0]).ledger, calls[1..])))
  }

  function PerformAll(l: Ledger, calls: seq<Call>): Attempted
    decreases |calls|
  {
    if calls == [] then Done(l)
    else
      match Perform(l, calls[0])
      case Raised(e) => Raised(e)
      case Done(next) => PerformAll(next, calls[1..])
  }

  ghost predicate HasError(calls: seq<Call>, error: Error) {
    exists i :: 0 <= i < |calls| && ErrorOf(calls[i]) == Some(error)
  }

  lemma {:induction false} RunKeeps(l: Ledger, calls: seq<Call>)
    requires Sound(l, []) && IsRun(l, calls)
    ensures PerformAll(l, calls).Done? ==> Sound(PerformAll(l, calls).ledger, [])
    ensures PerformAll(l, calls).Raised? ==> HasError(calls, PerformAll(l, calls).error)
    decreases |calls|
  {
    if calls != [] {
      CallKeeps(l, calls[0]);
      if Perform(l, calls[0]).Done? {
        RunKeeps(Perform(l, calls[0]).ledger, calls[1..]);
        if PerformAll(l, calls).Raised? {
          var i :| 0 <= i < |calls[1..]| && ErrorOf(calls[1..][i]) == Some(PerformAll(l, calls).error);
          assert calls[i + 1] == calls[1..][i];
        }
      } else {
        assert ErrorOf(calls[0]) == Some(Perform(l, calls[0]).error);
      }
    }
  }

  /** From an empty ledger no run of calls finds a duplicate, a newer request or a result with no
      destination, and after it each request has its one outcome or is still owed to a place. */
  lemma NoRunRaises(unitCount: nat, targets: map<nat, nat>, calls: seq<Call>)
    requires (forall p | p in targets :: targets[p] != p) && IsRun(Empty(unitCount, targets), calls)
    ensures var result := PerformAll(Empty(unitCount, targets), calls);
            && (result.Done? ==> Sound(result.ledger, []))
            && (result.Raised? ==>
              HasError(calls, result.error) && (result.error.NothingServed? || result.error.MergedAccuracy?))
  {
    EmptyIsSound(unitCount, targets);
    RunKeeps(Empty(unitCount, targets), calls);
  }

  // --------------------------------------------------- how a wait ends

  /** While a destination waits, what it is owed is out or still to come, and what arrived
      and what it is owed make one lead and its companions. */
  lemma WaitIsOwed(l: Ledger, k: Place)
    requires Sound(l, []) && !RecordAt(l, k).phase.NothingAsked?
    ensures RecordAt(l, k).selected.Some?
    ensures var r := RecordAt(l, k);
      var lead := r.selected.value;
      && r.owed == |Out(l, [], k)| + (if lead in l.admitted then 0 else 1)
      && r.arrived + r.owed == 1 + r.CompanionsOf(lead)
      && (forall q | q in Out(l, [], k) :: q.lead == lead)
      && (r.phase.WaitingResult? ==> forall i | 0 <= i < |l.held| :: l.held[i].request.At() != k)
  {
    assert HasAttempt(l, [], k);
    forall i | 0 <= i < |l.held| && l.held[i].request.At() == k
      ensures l.held[i].request in Out(l, [], k) && InList(l.held, l.held[i].request)
    {
    }
  }

  /** A delivery ends the wait just when it is the last of the lead and its companions. */
  lemma LastResultEndsWait(l: Ledger, hand: seq<Completion>)
    requires hand != [] && Sound(l, hand) && hand[0].request.key !in l.abandoned && IsAwaited(l, hand[0].request)
    ensures Complete(l, hand[0]).Done?
    ensures var k := hand[0].request.At();
      var r := RecordAt(l, k);
      RecordAt(Complete(l, hand[0]).ledger, k).phase.NothingAsked? <==>
      r.arrived + 1 == 1 + r.CompanionsOf(hand[0].request.lead)
  {
    HandIsOut(l, hand, 0);
    assert HasAttempt(l, hand, hand[0].request.At());
  }

  // ---------------------------------------------------------- the counts

  /** A cancel's count is of every request it ended, just when it did not both discard a
      waiting result and cancel a live request. */
  lemma CancelCountsExactly(l: Ledger, k: Place)
    requires Accounted(l, [])
    ensures var r := CancelStrong(l, k);
      r.cancelledCount - l.cancelledCount == |r.ended| - |l.ended| <==>
      OutputsAt(l, k) == [] || RecordAt(l, k).live == []
  {
    TakenLive(DiscardOutputs(l, k), k);
  }

  // --------------------------------------------- two requests of one attempt

  const Lead: Request := Request(10, 7, 2, 10)
  const Companion: Request := Request(11, 7, 2, 10)

  /** A lead and its companion admitted beside an open weak attempt. */
  function BothAdmitted(): Ledger {
    Empty(1, map[1 := 2]).(
      records := map[Place(7, Some(2)) :=
        Record([Live(Lead, Own(10)), Live(Companion, Own(11))], NothingAsked, None, 0, map[10 := 1], {1}, 0)],
      admitted := map[10 := Lead, 11 := Companion])
  }

  lemma BothAreAdmitted()
    ensures PerformAll(Empty(1, map[1 := 2]), [OpenWeak(7, 1, 1), Admit(Lead), Admit(Companion)]) ==
      Done(BothAdmitted())
  {
    var l0 := Empty(1, map[1 := 2]);
    var k := Place(7, Some(2));
    var weakOpen := Record([], NothingAsked, None, 0, map[], {1}, 0);
    var l1 := AdmitWeak(l0, 7, 1, 1);
    assert AttemptPlace(l0, 7, 1) == k && RecordAt(l0, k) == NoRequests && {} + {1} == {1};
    assert RecordAt(l1, k) == weakOpen;
    assert l1 == l0.(records := map[k := weakOpen]);
    var led := weakOpen.(live := [Live(Lead, Own(10))]);
    var l2 := l1.(records := map[k := led], admitted := map[10 := Lead]);
    assert l1.admitted[10 := Lead] == l2.admitted && l1.records[k := led] == l2.records;
    assert weakOpen.live + [Live(Lead, Own(10))] == led.live;
    assert AdmitStrong(l1, Lead) == Done(l2);
    var counted := WithCompanion(led, 10);
    assert counted.companions == map[10 := 1];
    assert led.live + [Live(Companion, Own(11))] == BothAdmitted().records[k].live;
    assert l2.admitted[11 := Companion] == BothAdmitted().admitted;
    assert AdmitStrong(l2, Companion).ledger.records == BothAdmitted().records;
    assert AdmitStrong(l2, Companion) == Done(BothAdmitted());
    var calls := [OpenWeak(7, 1, 1), Admit(Lead), Admit(Companion)];
    assert calls[1..] == [Admit(Lead), Admit(Companion)] && calls[1..][1..] == [Admit(Companion)];
    assert calls[1..][1..][1..] == [];
    assert PerformAll(l2, [Admit(Companion)]) == Done(BothAdmitted()) by {
      assert [Admit(Companion)][1..] == [];
    }
    assert PerformAll(l1, calls[1..]) == Done(BothAdmitted());
  }

  /** A weak decode closed while its destination still wants what is out: the lead's decode then
      finds no destination. */
  lemma ClosedTooEarly()
    ensures !MayResolve(BothAdmitted(), Place(7, Some(2)))
    ensures Perform(ResolveWeak(BothAdmitted(), 7, 1), Ends(Own(10), [Lead], 0, false, false)) == Raised(NoDestination)
  {
    var l := BothAdmitted();
    var k := Place(7, Some(2));
    assert AttemptPlace(l, 7, 1) == k;
    assert l.admitted[10] == Lead && Live(Lead, Own(10)) in RecordAt(l, k).live && IsLive(l, Lead);
    assert Lead in l.admitted.Values && Lead in Out(l, [], k);
    var closed := ResolveWeak(l, 7, 1);
    var live := RecordAt(closed, k).live;
    assert live == [Live(Lead, Own(10)), Live(Companion, Own(11))];
    assert live[1..] == [Live(Companion, Own(11))] && live[1..][1..] == [];
    assert NotServedBy(live[1..], Own(10)) == live[1..];
    assert NotServedBy(live, Own(10)) == [] + live[1..] == live[1..];
    var finished := FinishService(closed, Own(10));
    assert RecordAt(finished, k).live == live[1..] && RecordAt(finished, k).openWeak == {};
    var cs := CompletionsOf([Lead], 0);
    assert cs == [Completion(Lead, 0)] && !HasNewer(finished, Lead) && !MayConsume(finished, k);
    assert Complete(finished, cs[0]) == Raised(NoDestination);
  }

  /** The lead's decode ended first: its result waits in its unit. */
  function LeadWaits(): Ledger {
    var k := Place(7, Some(2));
    BothAdmitted().(
      records := map[k := BothAdmitted().records[k].(live := [Live(Companion, Own(11))])],
      held := [Completion(Lead, 0)])
  }

  lemma LeadEndsFirst()
    ensures Perform(BothAdmitted(), Ends(Own(10), [Lead], 0, false, false)) == Done(LeadWaits())
  {
    var l := BothAdmitted();
    var k := Place(7, Some(2));
    var finished := FinishService(l, Own(10));
    assert l.records[k].live[1..] == [Live(Companion, Own(11))] && l.records[k].live[1..][1..] == [];
    assert NotServedBy([Live(Companion, Own(11))], Own(10)) == [Live(Companion, Own(11))];
    var live := l.records[k].live;
    assert NotServedBy(live, Own(10)) == [] + NotServedBy(live[1..], Own(10)) == [Live(Companion, Own(11))];
    assert ServedRecord(l.records[k], Own(10)) == LeadWaits().records[k];
    assert finished.records[k] == LeadWaits().records[k];
    assert finished.records == LeadWaits().records;
    var cs := CompletionsOf([Lead], 0);
    assert cs == [Completion(Lead, 0)] && cs[1..] == [];
    assert finished.held + cs == LeadWaits().held;
    assert RecordAt(finished, k) == LeadWaits().records[k];
    assert Complete(finished, cs[0]) == Done(LeadWaits());
    assert CompleteAll(LeadWaits(), cs[1..]) == Done(LeadWaits());
    assert CompleteAll(finished, cs) == Done(LeadWaits());
  }

  /** The lead's result waits in its unit, the companion is live, the weak result is kept: the
      cancel ends both and counts one. */
  lemma CancelUndercounts()
    ensures |CancelStrong(LeadWaits(), Place(7, Some(2))).ended| == 2
    ensures CancelStrong(LeadWaits(), Place(7, Some(2))).cancelledCount == 1
  {
    var l := LeadWaits();
    var k := Place(7, Some(2));
    assert l.held[1..] == [];
    assert AtUnit(l.held, k, 0) == [Completion(Lead, 0)];
    assert Outputs(l.held, k, 1, 1) == [];
    assert OutputsAt(l, k) == [Completion(Lead, 0)];
    TakenLive(DiscardOutputs(l, k), k);
  }

  /** Merged into one batch, the lead is live nowhere, though nothing ended it. */
  lemma MergeLosesLead()
    ensures var r := RegisterBatch(BothAdmitted(), [Lead, Companion], 5);
      Places(r, [], 10) == 0 && Places(r, [], 11) == 1
  {
    var l := BothAdmitted();
    var k := Place(7, Some(2));
    var one := Put(l, k, RecordAt(l, k).(live := [Live(Lead, Batch(5))]));
    var both := Put(one, k, RecordAt(one, k).(live := [Live(Companion, Batch(5))]));
    var serve := (_: Request) => Batch(5);
    assert [Lead, Companion][1..] == [Companion] && [Companion][1..] == [];
    assert ServeBy(both, [], serve) == both;
    assert ServeBy(one, [Companion], serve) == both;
    assert ServeBy(l, [Lead, Companion], serve) == both;
    assert both.admitted[10].At() == k && both.admitted[11].At() == k;
    assert RecordAt(both, k).live == [Live(Companion, Batch(5))] && RecordAt(both, k).live[1..] == [];
    var live := RecordAt(both, k).live;
    assert CountLive(live[1..], 10) == 0 && CountLive(live[1..], 11) == 0;
    assert CountLive(live, 10) == 0 && CountLive(live, 11) == 1;
    assert both.held == [] && both.ended == [] && CountHeld([], 10) == 0 && CountHeld([], 11) == 0;
  }
}
