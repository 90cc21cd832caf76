/** What the ledger keeps open and counts: which weak decodes a place still waits for, which
    admissions are refused, what is tallied as abandoned, and that no record waits on nothing.
 */
module StrongOpenings {
  import opened Options
  import opened StrongLedgers
  import opened StrongAccounts
  import opened StrongAttempts
  import opened StrongCalls
  import opened StrongRuns

  // ------------------------------------------------------- what stays open

  /** The request's decode is a weak one of the place: its pool escalates there. */
  ghost predicate IsWeakAt(l: Ledger, q: Request, k: Place) {
    q.pool in l.targets && k == Place(q.window, Some(l.targets[q.pool]))
  }

  ghost predicate IsOpen(l: Ledger, k: Place, key: nat) {
    key in RecordAt(l, k).openWeak
  }

  /** A lead is refused just when its place has a live request; nothing else is. */
  lemma AdmitRaisesExactly(l: Ledger, q: Request)
    ensures AdmitStrong(l, q).Raised? <==> q.lead == q.key && RecordAt(l, q.At()).live != []
    ensures AdmitStrong(l, q).Raised? ==> AdmitStrong(l, q).error == DuplicateRequest
  {
  }

  /** An admitted request of a pool that escalates opens a weak decode where it escalates, and
      no other decode is opened or closed. */
  lemma AdmitOpens(l: Ledger, q: Request, k: Place, key: nat)
    requires AdmitStrong(l, q).Done?
    ensures IsOpen(AdmitStrong(l, q).ledger, k, key) <==> IsOpen(l, k, key) || (key == q.key && IsWeakAt(l, q, k))
  {
    var r := RecordAt(l, q.At());
    var counted := if q.lead != q.key then WithCompanion(r, q.lead) else r;
    assert counted.openWeak == r.openWeak;
  }

  lemma CloseOne(l: Ledger, q: Request, k: Place, key: nat)
    ensures IsOpen(CloseAttempt(l, q), k, key) <==> IsOpen(l, k, key) && !(key == q.key && IsWeakAt(l, q, k))
  {
  }

  ghost predicate IsAmong(l: Ledger, live: seq<Live>, k: Place, key: nat) {
    exists i :: 0 <= i < |live| && live[i].request.key == key && IsWeakAt(l, live[i].request, k)
  }

  lemma {:induction false} CloseEach(l: Ledger, live: seq<Live>, k: Place, key: nat)
    ensures IsOpen(CloseAttempts(l, live), k, key) <==> IsOpen(l, k, key) && !IsAmong(l, live, k, key)
    decreases |live|
  {
    if live != [] {
      var next := CloseAttempt(l, live[0].request);
      CloseOne(l, live[0].request, k, key);
      CloseEach(next, live[1..], k, key);
      if IsAmong(next, live[1..], k, key) {
        var i :| 0 <= i < |live[1..]| && live[1..][i].request.key == key && IsWeakAt(next, live[1..][i].request, k);
        assert live[i + 1].request.key == key && IsWeakAt(l, live[i + 1].request, k);
      }
      if i :| 0 < i < |live| && live[i].request.key == key && IsWeakAt(l, live[i].request, k) {
        assert live[1..][i - 1].request.key == key && IsWeakAt(next, live[1..][i - 1].request, k);
      }
    }
  }

  /** A cancel closes the weak decodes of the requests it takes, and those alone. */
  lemma CancelCloses(l: Ledger, at: Place, k: Place, key: nat)
    ensures IsOpen(CancelStrong(l, at), k, key) <==>
      IsOpen(l, k, key) && !IsAmong(l, RecordAt(l, at).live, k, key)
  {
    var d := DiscardOutputs(l, at);
    var r := RecordAt(d, at);
    var taken := Put(d, at, r.(live := [], companions := map[]));
    assert IsOpen(taken, k, key) <==> IsOpen(l, k, key);
    CloseEach(taken, r.live, k, key);
    forall i | 0 <= i < |r.live|
      ensures IsWeakAt(taken, r.live[i].request, k) <==> IsWeakAt(l, r.live[i].request, k)
    {
    }
    assert IsAmong(taken, r.live, k, key) <==> IsAmong(l, r.live, k, key);
  }

  /** A finished result closes its weak decode only when it was abandoned: delivered or held, it
      leaves that to the verdict. */
  lemma CompleteCloses(l: Ledger, c: Completion, k: Place, key: nat)
    requires Complete(l, c).Done?
    ensures IsOpen(Complete(l, c).ledger, k, key) <==>
      IsOpen(l, k, key) && !(c.request.key in l.abandoned && key == c.request.key && IsWeakAt(l, c.request, k))
  {
    if c.request.key in l.abandoned {
      CloseOne(
        l.(abandoned := l.abandoned - {c.request.key}, abandonedCount := l.abandonedCount + 1,
           ended := l.ended + [Ended(c.request.key, CompletedDiscarded)]), c.request, k, key);
    }
  }

  ghost predicate NewerIsLive(l: Ledger, q: Request) {
    exists i :: 0 <= i < |RecordAt(l, q.At()).live| && RecordAt(l, q.At()).live[i].request.lead != q.lead
  }

  /** What becomes of a finished result: abandoned, it is dropped; its destination waiting for its
      attempt, it is delivered; with a live request of another attempt there, it is refused; with
      nothing asked and no weak decode open there, it is refused; and else it is held. */
  lemma CompletesExactly(l: Ledger, c: Completion)
    ensures var q := c.request;
      var r := RecordAt(l, q.At());
      var waits := r.phase == WaitingResult && r.selected == Some(q.lead);
      if q.key in l.abandoned || waits then
        Complete(l, c).Done? && Complete(l, c).ledger.ended ==
          l.ended + [Ended(q.key, if q.key in l.abandoned then CompletedDiscarded else Delivered)]
      else if NewerIsLive(l, q) then Complete(l, c) == Raised(NewerRequest)
      else if r.phase == NothingAsked && r.openWeak == {} then Complete(l, c) == Raised(NoDestination)
      else Complete(l, c) == Done(l.(held := l.held + [c]))
  {
    if c.request.key in l.abandoned {
      CloseOne(l, c.request, c.request.At(), 0);
    }
  }

  /** An abandon changes no record: the abandoned decodes run on. */
  lemma AbandonLeavesRecords(l: Ledger, at: Place)
    ensures AbandonStrong(l, at).records == l.records
    ensures forall i | 0 <= i < |RecordAt(l, at).live| ::
      RecordAt(l, at).live[i].request.key in AbandonStrong(l, at).abandoned
    ensures l.abandoned <= AbandonStrong(l, at).abandoned
  {
    forall i | 0 <= i < |RecordAt(l, at).live|
      ensures RecordAt(l, at).live[i].request.key in KeysOf(RecordAt(l, at).live)
    {
    }
  }

  /** The delivery that ends a wait leaves nothing of its attempt in the record. */
  lemma WaitEndsClean(l: Ledger, c: Completion)
    requires c.request.key !in l.abandoned && IsAwaited(l, c.request)
    ensures Complete(l, c).Done?
    ensures var r := RecordAt(Complete(l, c).ledger, c.request.At());
      if r.phase.NothingAsked? then r.selected.None? && c.request.lead !in r.companions
      else r.selected == Some(c.request.lead) && r.owed == RecordAt(l, c.request.At()).owed - 1 > 0
  {
  }

  // ------------------------------------------------------------- the tallies

  function CountAs(ended: seq<Ended>, outcome: Outcome): nat {
    if ended == [] then 0 else (if ended[0].outcome == outcome then 1 else 0) + CountAs(ended[1..], outcome)
  }

  lemma {:induction false} CountAsAppend(a: seq<Ended>, b: seq<Ended>, outcome: Outcome)
    ensures CountAs(a + b, outcome) == CountAs(a, outcome) + CountAs(b, outcome)
  {
    if a == [] {
      assert a + b == b;
    } else {
      CountAsAppend(a[1..], b, outcome);
      assert (a + b)[1..] == a[1..] + b;
    }
  }

  lemma {:induction false} AllAs(ended: seq<Ended>, outcome: Outcome, other: Outcome)
    requires forall i | 0 <= i < |ended| :: ended[i].outcome == outcome
    ensures CountAs(ended, other) == if other == outcome then |ended| else 0
  {
    if ended != [] {
      AllAs(ended[1..], outcome, other);
    }
  }

  /** As many more are tallied as abandoned as ended with their result discarded. */
  ghost predicate Tallies(l: Ledger, r: Ledger) {
    r.abandonedCount - l.abandonedCount ==
      CountAs(r.ended, CompletedDiscarded) - CountAs(l.ended, CompletedDiscarded)
  }

  lemma CompleteTallies(l: Ledger, c: Completion)
    requires Complete(l, c).Done?
    ensures Tallies(l, Complete(l, c).ledger)
  {
    var q := c.request;
    if q.key in l.abandoned {
      CountAsAppend(l.ended, [Ended(q.key, CompletedDiscarded)], CompletedDiscarded);
      AllAs([Ended(q.key, CompletedDiscarded)], CompletedDiscarded, CompletedDiscarded);
    } else if IsAwaited(l, q) {
      CountAsAppend(l.ended, [Ended(q.key, Delivered)], CompletedDiscarded);
      AllAs([Ended(q.key, Delivered)], Delivered, CompletedDiscarded);
    }
  }

  lemma {:induction false} CompleteAllTallies(l: Ledger, cs: seq<Completion>)
    requires CompleteAll(l, cs).Done?
    ensures Tallies(l, CompleteAll(l, cs).ledger)
    decreases |cs|
  {
    if cs != [] {
      CompleteTallies(l, cs[0]);
      CompleteAllTallies(Complete(l, cs[0]).ledger, cs[1..]);
    }
  }

  lemma {:induction false} AbandonChainTallies(l: Ledger, window: nat, chain: seq<nat>)
    ensures Tallies(l, AbandonChain(l, window, chain))
    decreases |chain|
  {
    if chain != [] {
      var k := Place(window, Some(chain[0]));
      var discarded := EndedAs(OutputsAt(l, k), CompletedDiscarded);
      CountAsAppend(l.ended, discarded, CompletedDiscarded);
      AllAs(discarded, CompletedDiscarded, CompletedDiscarded);
      AbandonChainTallies(AbandonStrong(l, k), window, chain[1..]);
    }
  }

  lemma CallTallies(l: Ledger, call: Call)
    requires Perform(l, call).Done? && !call.Cancel?
    ensures Tallies(l, Perform(l, call).ledger)
  {
    match call {
      case SelectionLanded(k, lead) =>
        if IsSelected(l, k, lead) {
          var landed := Put(l, k, RecordAt(l, k).(phase := WaitingResult));
          CompleteAllTallies(landed.(held := Elsewhere(l.held, k)), OutputsAt(l, k));
        }
      case Ends(service, requests, unit, _, _) =>
        CompleteAllTallies(FinishService(l, service), CompletionsOf(requests, unit));
      case Abandon(window, chain) => AbandonChainTallies(l, window, chain);
      case _ =>
    }
  }

  /** In every run without a cancel, the abandoned tally is the number of requests that ended with
      their result discarded. */
  lemma {:induction false} AbandonedCounted(l: Ledger, calls: seq<Call>)
    requires PerformAll(l, calls).Done? && forall i | 0 <= i < |calls| :: !calls[i].Cancel?
    ensures Tallies(l, PerformAll(l, calls).ledger)
    decreases |calls|
  {
    if calls != [] {
      CallTallies(l, calls[0]);
      AbandonedCounted(Perform(l, calls[0]).ledger, calls[1..]);
    }
  }

  // ------------------------------------------------ no record of nothing

  /** A record that waits on nothing is not kept. */
  ghost predicate IsTidy(l: Ledger) {
    forall k | k in l.records ::
      l.records[k].live != [] || !l.records[k].phase.NothingAsked? || l.records[k].openWeak != {}
  }

  lemma {:induction false} CloseTidies(l: Ledger, live: seq<Live>)
    requires IsTidy(l)
    ensures IsTidy(CloseAttempts(l, live))
    decreases |live|
  {
    if live != [] {
      CloseTidies(CloseAttempt(l, live[0].request), live[1..]);
    }
  }

  lemma {:induction false} ServeTidies(l: Ledger, requests: seq<Request>, service: Request -> Service)
    requires IsTidy(l)
    ensures IsTidy(ServeBy(l, requests, service))
    decreases |requests|
  {
    if requests != [] {
      var q := requests[0];
      ServeTidies(Put(l, q.At(), RecordAt(l, q.At()).(live := [Live(q, service(q))])), requests[1..], service);
    }
  }

  lemma {:induction false} CompleteAllTidies(l: Ledger, cs: seq<Completion>)
    requires IsTidy(l) && CompleteAll(l, cs).Done?
    ensures IsTidy(CompleteAll(l, cs).ledger)
    decreases |cs|
  {
    if cs != [] {
      CompleteAllTidies(Complete(l, cs[0]).ledger, cs[1..]);
    }
  }

  lemma FinishTidies(l: Ledger, service: Service)
    requires IsTidy(l)
    ensures IsTidy(FinishService(l, service))
  {
    var after := FinishService(l, service);
    forall k | k in after.records
      ensures !after.records[k].IsEmpty()
    {
      assert after.records[k] == ServedRecord(l.records[k], service);
    }
  }

  lemma {:induction false} CancelChainTidies(l: Ledger, window: nat, chain: seq<nat>)
    requires IsTidy(l)
    ensures IsTidy(CancelChain(l, window, chain))
    decreases |chain|
  {
    if chain != [] {
      var k := Place(window, Some(chain[0]));
      var d := DiscardOutputs(l, k);
      CloseTidies(Put(d, k, RecordAt(d, k).(live := [], companions := map[])), RecordAt(d, k).live);
      CancelChainTidies(CancelStrong(l, k), window, chain[1..]);
    }
  }

  lemma {:induction false} AbandonChainTidies(l: Ledger, window: nat, chain: seq<nat>)
    requires IsTidy(l)
    ensures IsTidy(AbandonChain(l, window, chain))
    decreases |chain|
  {
    if chain != [] {
      AbandonChainTidies(AbandonStrong(l, Place(window, Some(chain[0]))), window, chain[1..]);
    }
  }

  lemma CallTidies(l: Ledger, call: Call)
    requires IsTidy(l) && Perform(l, call).Done?
    ensures IsTidy(Perform(l, call).ledger)
  {
    match call {
      case SelectionLanded(k, lead) =>
        if IsSelected(l, k, lead) {
          var landed := Put(l, k, RecordAt(l, k).(phase := WaitingResult));
          CompleteAllTidies(landed.(held := Elsewhere(l.held, k)), OutputsAt(l, k));
        }
      case Ends(service, requests, unit, _, _) =>
        FinishTidies(l, service);
        CompleteAllTidies(FinishService(l, service), CompletionsOf(requests, unit));
      case Cancel(window, chain) => CancelChainTidies(l, window, chain);
      case Abandon(window, chain) => AbandonChainTidies(l, window, chain);
      case Merge(requests, id) => ServeTidies(l, requests, (_: Request) => Batch(id));
      case OpenBatch(members) => ServeTidies(l, members, (q: Request) => Own(q.key));
      case _ =>
    }
  }

  /** In every run from an empty ledger, each record kept waits on something. */
  lemma {:induction false} EveryRunTidies(l: Ledger, calls: seq<Call>)
    requires IsTidy(l) && PerformAll(l, calls).Done?
    ensures IsTidy(PerformAll(l, calls).ledger)
    decreases |calls|
  {
    if calls != [] {
      CallTidies(l, calls[0]);
      EveryRunTidies(Perform(l, calls[0]).ledger, calls[1..]);
    }
  }

  // ------------------------------------------- what each call brings about

  ghost predicate NoneHeldAt(l: Ledger, k: Place) {
    forall i | 0 <= i < |l.held| :: l.held[i].request.At() != k
  }

  ghost predicate AllAbandoned(l: Ledger, k: Place, abandoned: set<nat>) {
    forall i | 0 <= i < |RecordAt(l, k).live| :: RecordAt(l, k).live[i].request.key in abandoned
  }

  ghost predicate ServedAlone(r: Ledger, q: Request, service: Service) {
    RecordAt(r, q.At()).live == [Live(q, service)]
  }

  /** What a call leaves true of what it names. */
  ghost predicate Brings(l: Ledger, call: Call, r: Ledger) {
    match call
    case Admit(q) =>
      q.key in r.admitted && r.admitted[q.key] == q && Live(q, Own(q.key)) in RecordAt(r, q.At()).live
    case OpenWeak(window, pool, key) => IsOpen(r, AttemptPlace(l, window, pool), key)
    case Resolve(window, pool) => RecordAt(r, AttemptPlace(l, window, pool)).openWeak == {}
    case Ask(k, lead) =>
      var record := RecordAt(r, k);
      record.phase == WaitingSelection && record.selected == Some(lead) &&
      record.owed == 1 + RecordAt(l, k).CompanionsOf(lead)
    case SelectionLanded(k, lead) => IsSelected(l, k, lead) ==> NoneHeldAt(r, k)
    case Ends(service, _, _, _, _) => forall k, x | x in RecordAt(r, k).live :: x.service != service
    case Cancel(window, chain) => forall i | 0 <= i < |chain| ::
      RecordAt(r, Place(window, Some(chain[i]))).live == [] && NoneHeldAt(r, Place(window, Some(chain[i])))
    case Abandon(window, chain) => forall i | 0 <= i < |chain| ::
      AllAbandoned(l, Place(window, Some(chain[i])), r.abandoned) && NoneHeldAt(r, Place(window, Some(chain[i])))
    case Merge(requests, id) => forall i | 0 <= i < |requests| :: ServedAlone(r, requests[i], Batch(id))
    case OpenBatch(members) => forall i | 0 <= i < |members| :: ServedAlone(r, members[i], Own(members[i].key))
  }

  lemma NoneElsewhere(held: seq<Completion>, k: Place, j: Place)
    ensures forall i | 0 <= i < |Elsewhere(held, k)| :: Elsewhere(held, k)[i] in held
    ensures forall i | 0 <= i < |Elsewhere(held, k)| :: Elsewhere(held, k)[i].request.At() != k
  {
    ElsewhereMembers(held, k);
    forall i | 0 <= i < |Elsewhere(held, k)|
      ensures Elsewhere(held, k)[i] in Elsewhere(held, k)
    {
    }
  }

  lemma HeldElsewhere(l: Ledger, r: Ledger, k: Place, j: Place)
    requires r.held == Elsewhere(l.held, k)
    ensures NoneHeldAt(r, k) && (NoneHeldAt(l, j) ==> NoneHeldAt(r, j))
  {
    NoneElsewhere(l.held, k, j);
  }

  lemma {:induction false} CancelChainBrings(l: Ledger, window: nat, chain: seq<nat>, j: Place)
    ensures var r := CancelChain(l, window, chain);
      forall i | 0 <= i < |chain| ::
        RecordAt(r, Place(window, Some(chain[i]))).live == [] && NoneHeldAt(r, Place(window, Some(chain[i])))
    ensures RecordAt(l, j).live == [] ==> RecordAt(CancelChain(l, window, chain), j).live == []
    ensures NoneHeldAt(l, j) ==> NoneHeldAt(CancelChain(l, window, chain), j)
    decreases |chain|
  {
    if chain != [] {
      var k := Place(window, Some(chain[0]));
      var next := CancelStrong(l, k);
      var taken := TakeLive(DiscardOutputs(l, k), k);
      TakenLive(DiscardOutputs(l, k), k);
      assert forall x :: RecordAt(next, x) == RecordAt(taken, x);
      assert forall x :: RecordAt(DiscardOutputs(l, k), x) == RecordAt(l, x);
      HeldElsewhere(l, next, k, j);
      CancelChainBrings(next, window, chain[1..], j);
      CancelChainBrings(next, window, chain[1..], k);
      forall i | 0 < i < |chain|
        ensures chain[i] == chain[1..][i - 1]
      {
      }
    }
  }

  lemma {:induction false} AbandonChainBrings(l: Ledger, window: nat, chain: seq<nat>, j: Place)
    ensures var r := AbandonChain(l, window, chain);
      && r.records == l.records && l.abandoned <= r.abandoned
      && (forall i | 0 <= i < |chain| ::
        AllAbandoned(l, Place(window, Some(chain[i])), r.abandoned) && NoneHeldAt(r, Place(window, Some(chain[i]))))
    ensures NoneHeldAt(l, j) ==> NoneHeldAt(AbandonChain(l, window, chain), j)
    decreases |chain|
  {
    if chain != [] {
      var k := Place(window, Some(chain[0]));
      var next := AbandonStrong(l, k);
      AbandonLeavesRecords(l, k);
      HeldElsewhere(l, next, k, j);
      AbandonChainBrings(next, window, chain[1..], j);
      AbandonChainBrings(next, window, chain[1..], k);
      forall i | 0 < i < |chain|
        ensures chain[i] == chain[1..][i - 1]
        ensures RecordAt(next, Place(window, Some(chain[i]))) == RecordAt(l, Place(window, Some(chain[i])))
      {
      }
    }
  }

  lemma {:induction false} ServeBrings(
    l: Ledger, requests: seq<Request>, service: Request -> Service, q: Request)
    requires forall i | 0 <= i < |requests| :: requests[i].At() == q.At() ==> requests[i] == q
    ensures ServedAlone(l, q, service(q)) ==> ServedAlone(ServeBy(l, requests, service), q, service(q))
    ensures q in requests ==> ServedAlone(ServeBy(l, requests, service), q, service(q))
    decreases |requests|
  {
    if requests != [] {
      var first := requests[0];
      var next := Put(l, first.At(), RecordAt(l, first.At()).(live := [Live(first, service(first))]));
      ServeBrings(next, requests[1..], service, q);
    }
  }

  lemma ServeAllBrings(l: Ledger, requests: seq<Request>, service: Request -> Service)
    requires AllLive(l, requests) && forall i | 0 <= i < |requests| :: IsAlone(l, requests[i])
    ensures forall i | 0 <= i < |requests| ::
      ServedAlone(ServeBy(l, requests, service), requests[i], service(requests[i]))
  {
    forall i | 0 <= i < |requests|
      ensures ServedAlone(ServeBy(l, requests, service), requests[i], service(requests[i]))
    {
      forall j | 0 <= j < |requests| && requests[j].At() == requests[i].At()
        ensures requests[j] == requests[i]
      {
        OneLive(l, requests[i], requests[j]);
      }
      ServeBrings(l, requests, service, requests[i]);
    }
  }

  lemma OneLive(l: Ledger, a: Request, b: Request)
    requires IsLive(l, a) && IsLive(l, b) && IsAlone(l, a) && a.At() == b.At()
    ensures a == b
  {
    var live := RecordAt(l, a.At()).live;
    var s :| Live(a, s) in live;
    var t :| Live(b, t) in live;
    assert live == [live[0]];
  }

  lemma {:induction false} CompleteAllKeepsServices(l: Ledger, cs: seq<Completion>, service: Service)
    requires CompleteAll(l, cs).Done? && forall k, x | x in RecordAt(l, k).live :: x.service != service
    ensures forall k, x | x in RecordAt(CompleteAll(l, cs).ledger, k).live :: x.service != service
    decreases |cs|
  {
    if cs != [] {
      CompleteEffect(l, cs[0]);
      CompleteAllKeepsServices(Complete(l, cs[0]).ledger, cs[1..], service);
    }
  }

  lemma EndBrings(l: Ledger, service: Service, requests: seq<Request>, unit: nat)
    requires CompleteAll(FinishService(l, service), CompletionsOf(requests, unit)).Done?
    ensures var r := CompleteAll(FinishService(l, service), CompletionsOf(requests, unit)).ledger;
      forall k, x | x in RecordAt(r, k).live :: x.service != service
  {
    var finished := FinishService(l, service);
    FinishedRecords(l, service);
    forall k, x | x in RecordAt(finished, k).live
      ensures x.service != service
    {
      NotServedMembers(RecordAt(l, k).live, service);
    }
    CompleteAllKeepsServices(finished, CompletionsOf(requests, unit), service);
  }

  lemma AdmitBrings(l: Ledger, q: Request)
    requires AdmitStrong(l, q).Done?
    ensures Brings(l, Admit(q), AdmitStrong(l, q).ledger)
  {
    var r := RecordAt(l, q.At());
    var counted := if q.lead != q.key then WithCompanion(r, q.lead) else r;
    var live := counted.live + [Live(q, Own(q.key))];
    assert live[|counted.live|] == Live(q, Own(q.key));
    var admitted := Put(l, q.At(), counted.(live := live)).(admitted := l.admitted[q.key := q]);
    assert RecordAt(admitted, q.At()).live == live;
    assert q.pool in l.targets ==>
      RecordAt(OpenAttempt(admitted, AttemptPlace(l, q.window, q.pool), q.key), q.At()).live == live;
  }

  /** Each call brings about what it is for. */
  lemma CallBrings(l: Ledger, call: Call)
    requires Sound(l, []) && WellFormed(l, call) && Perform(l, call).Done?
    ensures Brings(l, call, Perform(l, call).ledger)
  {
    match call {
      case Admit(q) => AdmitBrings(l, q);
      case SelectionLanded(k, lead) =>
        SelectionDelivers(l, k, lead);
        if IsSelected(l, k, lead) {
          HeldElsewhere(l, Perform(l, call).ledger, k, k);
        }
      case Ends(service, requests, unit, _, _) => EndBrings(l, service, requests, unit);
      case Cancel(window, chain) => CancelChainBrings(l, window, chain, Place(window, None));
      case Abandon(window, chain) => AbandonChainBrings(l, window, chain, Place(window, None));
      case Merge(requests, id) => ServeAllBrings(l, requests, (_: Request) => Batch(id));
      case OpenBatch(members) => ServeAllBrings(l, members, (q: Request) => Own(q.key));
      case _ =>
    }
  }
}
