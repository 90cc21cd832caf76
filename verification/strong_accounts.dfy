/** Conservation: no strong request is dropped silently. Every call that does not raise keeps
    each admitted request live, held in an output slot, or ended, once.
 */
module StrongAccounts {
  import opened StrongLedgers

  // -------------------------------------------------------------- counting

  function CountLive(live: seq<Live>, key: nat): nat {
    if live == [] then 0 else (if live[0].request.key == key then 1 else 0) + CountLive(live[1..], key)
  }

  function CountHeld(cs: seq<Completion>, key: nat): nat {
    if cs == [] then 0 else (if cs[0].request.key == key then 1 else 0) + CountHeld(cs[1..], key)
  }

  function CountEnded(ended: seq<Ended>, key: nat): nat {
    if ended == [] then 0 else (if ended[0].key == key then 1 else 0) + CountEnded(ended[1..], key)
  }

  /** How often an admitted request is live, held, in hand at its decode's end, or ended. */
  function Places(l: Ledger, hand: seq<Completion>, key: nat): nat
    requires key in l.admitted
  {
    CountLive(RecordAt(l, l.admitted[key].At()).live, key) + CountHeld(l.held, key) + CountHeld(hand, key)
    + CountEnded(l.ended, key)
  }

  ghost predicate IsAdmitted(l: Ledger, q: Request) {
    q.key in l.admitted && l.admitted[q.key] == q
  }

  ghost predicate LiveKnown(l: Ledger, k: Place) {
    forall i | 0 <= i < |RecordAt(l, k).live| ::
      IsAdmitted(l, RecordAt(l, k).live[i].request) && RecordAt(l, k).live[i].request.At() == k
  }

  ghost predicate ResultsKnown(l: Ledger, cs: seq<Completion>) {
    forall i | 0 <= i < |cs| :: IsAdmitted(l, cs[i].request) && cs[i].unit < l.unitCount
  }

  ghost predicate Known(l: Ledger, hand: seq<Completion>) {
    && (forall k :: LiveKnown(l, k))
    && ResultsKnown(l, l.held) && ResultsKnown(l, hand)
    && (forall i | 0 <= i < |l.ended| :: l.ended[i].key in l.admitted)
    && (forall key | key in l.admitted :: l.admitted[key].key == key)
  }

  /** Every admitted request is in exactly one place; nothing else is in any. */
  ghost predicate Accounted(l: Ledger, hand: seq<Completion>) {
    Known(l, hand) && forall key | key in l.admitted :: Places(l, hand, key) == 1
  }

  lemma {:induction false} CountHeldAppend(a: seq<Completion>, b: seq<Completion>, key: nat)
    ensures CountHeld(a + b, key) == CountHeld(a, key) + CountHeld(b, key)
  {
    if a == [] {
      assert a + b == b;
    } else {
      CountHeldAppend(a[1..], b, key);
      assert (a + b)[1..] == a[1..] + b;
    }
  }

  lemma {:induction false} CountLiveAppend(a: seq<Live>, b: seq<Live>, key: nat)
    ensures CountLive(a + b, key) == CountLive(a, key) + CountLive(b, key)
  {
    if a == [] {
      assert a + b == b;
    } else {
      CountLiveAppend(a[1..], b, key);
      assert (a + b)[1..] == a[1..] + b;
    }
  }

  lemma {:induction false} CountEndedAppend(a: seq<Ended>, b: seq<Ended>, key: nat)
    ensures CountEnded(a + b, key) == CountEnded(a, key) + CountEnded(b, key)
  {
    if a == [] {
      assert a + b == b;
    } else {
      CountEndedAppend(a[1..], b, key);
      assert (a + b)[1..] == a[1..] + b;
    }
  }

  lemma {:induction false} CountLiveMember(live: seq<Live>, key: nat)
    ensures CountLive(live, key) > 0 <==> exists i :: 0 <= i < |live| && live[i].request.key == key
  {
    if live != [] {
      CountLiveMember(live[1..], key);
      if CountLive(live[1..], key) > 0 {
        var i :| 0 <= i < |live[1..]| && live[1..][i].request.key == key;
        assert live[i + 1].request.key == key;
      }
      if i :| 0 < i < |live| && live[i].request.key == key {
        assert live[1..][i - 1].request.key == key;
      }
    }
  }

  lemma {:induction false} CountHeldMember(cs: seq<Completion>, key: nat)
    ensures CountHeld(cs, key) > 0 <==> exists i :: 0 <= i < |cs| && cs[i].request.key == key
  {
    if cs != [] {
      CountHeldMember(cs[1..], key);
      if CountHeld(cs[1..], key) > 0 {
        var i :| 0 <= i < |cs[1..]| && cs[1..][i].request.key == key;
        assert cs[i + 1].request.key == key;
      }
      if i :| 0 < i < |cs| && cs[i].request.key == key {
        assert cs[1..][i - 1].request.key == key;
      }
    }
  }

  /** A list's results counted as ended are counted as often. */
  lemma {:induction false} CountEndedAs(cs: seq<Completion>, outcome: Outcome, key: nat)
    ensures CountEnded(EndedAs(cs, outcome), key) == CountHeld(cs, key)
  {
    if cs != [] {
      CountEndedAs(cs[1..], outcome, key);
      assert EndedAs(cs, outcome)[1..] == EndedAs(cs[1..], outcome);
    }
  }

  lemma {:induction false} CountCancelled(live: seq<Live>, key: nat)
    ensures CountEnded(CancelledLive(live), key) == CountLive(live, key)
  {
    if live != [] {
      CountCancelled(live[1..], key);
      assert CancelledLive(live)[1..] == CancelledLive(live[1..]);
    }
  }

  // ------------------------------------------------- what moves no request

  lemma SameLiveKnown(l: Ledger, r: Ledger)
    requires r.admitted == l.admitted && r.records == l.records
    requires forall k :: LiveKnown(l, k)
    ensures forall k :: LiveKnown(r, k)
    ensures forall k :: RecordAt(r, k) == RecordAt(l, k)
  {
    forall k
      ensures LiveKnown(r, k)
    {
      assert LiveKnown(l, k);
      assert RecordAt(r, k) == RecordAt(l, k);
    }
  }

  /** A change of phases, counts and weak attempts alone keeps the account. */
  lemma AccountKept(l: Ledger, r: Ledger, hand: seq<Completion>)
    requires Accounted(l, hand)
    requires r.admitted == l.admitted && r.held == l.held && r.ended == l.ended && r.unitCount == l.unitCount
    requires forall k :: RecordAt(r, k).live == RecordAt(l, k).live
    ensures Accounted(r, hand)
  {
    assert forall k :: LiveKnown(l, k) ==> LiveKnown(r, k);
  }

  lemma CloseKeepsLive(l: Ledger, q: Request)
    ensures forall k :: RecordAt(CloseAttempt(l, q), k).live == RecordAt(l, k).live
  {
  }

  lemma {:induction false} CloseAllKeepsLive(l: Ledger, live: seq<Live>)
    ensures forall k :: RecordAt(CloseAttempts(l, live), k).live == RecordAt(l, k).live
    decreases |live|
  {
    if live != [] {
      CloseAllKeepsLive(CloseAttempt(l, live[0].request), live[1..]);
    }
  }

  // ------------------------------------------------------------ the calls

  /** A request not admitted yet is nowhere. */
  lemma FreshIsNowhere(l: Ledger, q: Request)
    requires Known(l, []) && q.key !in l.admitted
    ensures CountLive(RecordAt(l, q.At()).live, q.key) == 0 && CountHeld(l.held, q.key) == 0
    ensures CountEnded(l.ended, q.key) == 0
  {
    CountLiveMember(RecordAt(l, q.At()).live, q.key);
    assert LiveKnown(l, q.At());
    CountHeldMember(l.held, q.key);
    CountEndedMember(l.ended, q.key);
  }

  /** The request added to its record's live ones. */
  ghost predicate IsAdded(l: Ledger, r: Ledger, q: Request, service: Service) {
    && r.admitted == l.admitted[q.key := q] && r.held == l.held && r.ended == l.ended && r.unitCount == l.unitCount
    && (forall k :: RecordAt(r, k).live ==
          if k == q.At() then RecordAt(l, k).live + [Live(q, service)] else RecordAt(l, k).live)
  }

  lemma AddedKnown(l: Ledger, r: Ledger, q: Request, service: Service)
    requires Known(l, []) && q.key !in l.admitted && IsAdded(l, r, q, service)
    ensures Known(r, [])
  {
    forall k
      ensures LiveKnown(r, k)
    {
      assert LiveKnown(l, k);
    }
  }

  lemma AddedAccounts(l: Ledger, r: Ledger, q: Request, service: Service)
    requires Accounted(l, []) && q.key !in l.admitted && IsAdded(l, r, q, service)
    ensures Accounted(r, [])
  {
    AddedKnown(l, r, q, service);
    FreshIsNowhere(l, q);
    forall key | key in r.admitted
      ensures Places(r, [], key) == 1
    {
      CountLiveAppend(RecordAt(l, q.At()).live, [Live(q, service)], key);
      assert [Live(q, service)][1..] == [];
      assert key != q.key ==> Places(l, [], key) == 1;
    }
  }

  lemma AdmitAccounts(l: Ledger, q: Request)
    requires Accounted(l, []) && q.key !in l.admitted && AdmitStrong(l, q).Done?
    ensures Accounted(AdmitStrong(l, q).ledger, [])
  {
    AddedAccounts(l, AdmitStrong(l, q).ledger, q, Own(q.key));
  }

  lemma {:induction false} CountEndedMember(ended: seq<Ended>, key: nat)
    ensures CountEnded(ended, key) > 0 ==> exists i :: 0 <= i < |ended| && ended[i].key == key
  {
    if ended != [] {
      CountEndedMember(ended[1..], key);
      if CountEnded(ended[1..], key) > 0 {
        var i :| 0 <= i < |ended[1..]| && ended[1..][i].key == key;
        assert ended[i + 1].key == key;
      }
    }
  }

  /** The first result in hand ends. */
  lemma EndsOne(l: Ledger, hand: seq<Completion>, outcome: Outcome)
    requires hand != [] && Accounted(l, hand)
    ensures Accounted(l.(ended := l.ended + [Ended(hand[0].request.key, outcome)]), hand[1..])
  {
    var r := l.(ended := l.ended + [Ended(hand[0].request.key, outcome)]);
    SameLiveKnown(l, r);
    forall key | key in l.admitted
      ensures Places(r, hand[1..], key) == Places(l, hand, key)
    {
      CountEndedAppend(l.ended, [Ended(hand[0].request.key, outcome)], key);
      assert [Ended(hand[0].request.key, outcome)][1..] == [];
    }
  }

  /** The first result in hand is held at its unit. */
  lemma HoldsOne(l: Ledger, hand: seq<Completion>)
    requires hand != [] && Accounted(l, hand)
    ensures Accounted(l.(held := l.held + [hand[0]]), hand[1..])
  {
    var r := l.(held := l.held + [hand[0]]);
    SameLiveKnown(l, r);
    forall key | key in l.admitted
      ensures Places(r, hand[1..], key) == Places(l, hand, key)
    {
      CountHeldAppend(l.held, [hand[0]], key);
      assert [hand[0]][1..] == [];
    }
  }

  ghost predicate SameLive(l: Ledger, r: Ledger) {
    forall k :: RecordAt(r, k).live == RecordAt(l, k).live
  }

  lemma CompleteEffect(l: Ledger, c: Completion)
    requires Complete(l, c).Done?
    ensures var r := Complete(l, c).ledger;
      SameLive(l, r) && r.admitted == l.admitted && r.unitCount == l.unitCount
    ensures var r := Complete(l, c).ledger;
      if c.request.key in l.abandoned || IsAwaited(l, c.request) then
        r.held == l.held &&
        r.ended == l.ended +
          [Ended(c.request.key, if c.request.key in l.abandoned then CompletedDiscarded else Delivered)]
      else r == l.(held := l.held + [c])
  {
    CloseKeepsLive(l, c.request);
  }

  /** A finished result is ended, held or refused loudly. */
  lemma CompleteAccounts(l: Ledger, hand: seq<Completion>)
    requires hand != [] && Accounted(l, hand) && Complete(l, hand[0]).Done?
    ensures Accounted(Complete(l, hand[0]).ledger, hand[1..])
  {
    var q := hand[0].request;
    CompleteEffect(l, hand[0]);
    if q.key in l.abandoned || IsAwaited(l, q) {
      var outcome := if q.key in l.abandoned then CompletedDiscarded else Delivered;
      EndsOne(l, hand, outcome);
      EndedAccounts(l.(ended := l.ended + [Ended(q.key, outcome)]), Complete(l, hand[0]).ledger, hand[1..], l);
    } else {
      HoldsOne(l, hand);
    }
  }

  lemma EndedAccounts(m: Ledger, r: Ledger, hand: seq<Completion>, l: Ledger)
    requires Accounted(m, hand) && m.records == l.records && SameLive(l, r)
    requires r.admitted == m.admitted && r.held == m.held && r.ended == m.ended && r.unitCount == m.unitCount
    ensures Accounted(r, hand)
  {
    assert forall k :: RecordAt(m, k) == RecordAt(l, k);
    AccountKept(m, r, hand);
  }

  lemma {:induction false} CompleteAllAccounts(l: Ledger, hand: seq<Completion>)
    requires Accounted(l, hand) && CompleteAll(l, hand).Done?
    ensures Accounted(CompleteAll(l, hand).ledger, [])
    decreases |hand|
  {
    if hand != [] {
      CompleteAccounts(l, hand);
      CompleteAllAccounts(Complete(l, hand[0]).ledger, hand[1..]);
    }
  }

  // --------------------------------------------------- the output slots

  lemma {:induction false} CountOutputs(held: seq<Completion>, k: Place, unit: nat, unitCount: nat, key: nat)
    ensures CountHeld(Outputs(held, k, unit, unitCount), key) == CountWithin(held, k, unit, unitCount, key)
    decreases unitCount - unit
  {
    if unit >= unitCount {
      NoneWithin(held, k, unit, unitCount, key);
    } else {
      CountOutputs(held, k, unit + 1, unitCount, key);
      CountHeldAppend(AtUnit(held, k, unit), Outputs(held, k, unit + 1, unitCount), key);
      SplitWithin(held, k, unit, unitCount, key);
    }
  }

  /** The key's results at the place whose unit is in the range. */
  function CountWithin(held: seq<Completion>, k: Place, low: nat, high: nat, key: nat): nat {
    if held == [] then 0
    else
      (if held[0].request.key == key && held[0].request.At() == k && low <= held[0].unit < high then 1 else 0)
      + CountWithin(held[1..], k, low, high, key)
  }

  lemma {:induction false} NoneWithin(held: seq<Completion>, k: Place, low: nat, high: nat, key: nat)
    requires low >= high
    ensures CountWithin(held, k, low, high, key) == 0
  {
    if held != [] {
      NoneWithin(held[1..], k, low, high, key);
    }
  }

  lemma {:induction false} SplitWithin(held: seq<Completion>, k: Place, unit: nat, unitCount: nat, key: nat)
    requires unit < unitCount
    ensures CountWithin(held, k, unit, unitCount, key) ==
      CountHeld(AtUnit(held, k, unit), key) + CountWithin(held, k, unit + 1, unitCount, key)
  {
    if held != [] {
      SplitWithin(held[1..], k, unit, unitCount, key);
      var first := if held[0].request.At() == k && held[0].unit == unit then [held[0]] else [];
      CountHeldAppend(first, AtUnit(held[1..], k, unit), key);
      assert [held[0]][1..] == [];
    }
  }

  lemma {:induction false} CountElsewhere(held: seq<Completion>, k: Place, unitCount: nat, key: nat)
    requires forall i | 0 <= i < |held| :: held[i].unit < unitCount
    ensures CountHeld(Elsewhere(held, k), key) + CountWithin(held, k, 0, unitCount, key) == CountHeld(held, key)
  {
    if held != [] {
      CountElsewhere(held[1..], k, unitCount, key);
      CountHeldAppend(if held[0].request.At() == k then [] else [held[0]], Elsewhere(held[1..], k), key);
      assert [held[0]][1..] == [];
    }
  }

  lemma {:induction false} AtUnitMembers(held: seq<Completion>, k: Place, unit: nat)
    ensures forall c :: c in AtUnit(held, k, unit) <==> c in held && c.request.At() == k && c.unit == unit
  {
    if held != [] {
      AtUnitMembers(held[1..], k, unit);
    }
  }

  lemma {:induction false} OutputsMembers(held: seq<Completion>, k: Place, unit: nat, unitCount: nat)
    ensures forall c :: c in Outputs(held, k, unit, unitCount) <==>
      c in held && c.request.At() == k && unit <= c.unit < unitCount
    decreases unitCount - unit
  {
    if unit < unitCount {
      AtUnitMembers(held, k, unit);
      OutputsMembers(held, k, unit + 1, unitCount);
    }
  }

  lemma {:induction false} ElsewhereMembers(held: seq<Completion>, k: Place)
    ensures forall c :: c in Elsewhere(held, k) <==> c in held && c.request.At() != k
  {
    if held != [] {
      ElsewhereMembers(held[1..], k);
    }
  }

  /** The results waiting for a place taken in hand. */
  lemma TakeOutputsAccounts(l: Ledger, k: Place)
    requires Accounted(l, [])
    ensures Accounted(l.(held := Elsewhere(l.held, k)), OutputsAt(l, k))
  {
    var r := l.(held := Elsewhere(l.held, k));
    var hand := OutputsAt(l, k);
    OutputsMembers(l.held, k, 0, l.unitCount);
    ElsewhereMembers(l.held, k);
    forall i | 0 <= i < |hand|
      ensures IsAdmitted(r, hand[i].request) && hand[i].unit < r.unitCount
    {
      assert hand[i] in hand;
    }
    forall i | 0 <= i < |r.held|
      ensures IsAdmitted(r, r.held[i].request) && r.held[i].unit < r.unitCount
    {
      assert r.held[i] in r.held;
    }
    SameLiveKnown(l, r);
    forall key | key in l.admitted
      ensures Places(r, hand, key) == Places(l, [], key)
    {
      CountOutputs(l.held, k, 0, l.unitCount, key);
      CountElsewhere(l.held, k, l.unitCount, key);
    }
  }

  /** Results in hand discarded. */
  lemma DiscardHandAccounts(l: Ledger, hand: seq<Completion>)
    requires Accounted(l, hand)
    ensures Accounted(l.(ended := l.ended + EndedAs(hand, CompletedDiscarded)), [])
  {
    var r := l.(ended := l.ended + EndedAs(hand, CompletedDiscarded));
    SameLiveKnown(l, r);
    forall key | key in l.admitted
      ensures Places(r, [], key) == Places(l, hand, key)
    {
      CountEndedAppend(l.ended, EndedAs(hand, CompletedDiscarded), key);
      CountEndedAs(hand, CompletedDiscarded, key);
    }
  }

  lemma DiscardAccounts(l: Ledger, k: Place)
    requires Accounted(l, [])
    ensures Accounted(DiscardOutputs(l, k), [])
  {
    TakeOutputsAccounts(l, k);
    DiscardHandAccounts(l.(held := Elsewhere(l.held, k)), OutputsAt(l, k));
  }

  lemma SelectionAccounts(l: Ledger, k: Place, lead: nat)
    requires Accounted(l, []) && AcceptSelection(l, k, lead).Done?
    ensures Accounted(AcceptSelection(l, k, lead).ledger, [])
  {
    if IsSelected(l, k, lead) {
      TakeOutputsAccounts(l, k);
      var landed := Put(l, k, RecordAt(l, k).(phase := WaitingResult)).(held := Elsewhere(l.held, k));
      AccountKept(l.(held := Elsewhere(l.held, k)), landed, OutputsAt(l, k));
      CompleteAllAccounts(landed, OutputsAt(l, k));
    }
  }

  // ------------------------------------------------------- cancel, abandon

  lemma TakenLive(l: Ledger, k: Place)
    ensures TakeLive(l, k) == l.(records := TakeLive(l, k).records)
    ensures forall j :: RecordAt(TakeLive(l, k), j).live == if j == k then [] else RecordAt(l, j).live
  {
    CloseAllKeepsLive(Put(l, k, RecordAt(l, k).(live := [], companions := map[])), RecordAt(l, k).live);
  }

  /** The place's live requests end cancelled. */
  lemma TakeLiveAccounts(l: Ledger, r: Ledger, k: Place)
    requires Accounted(l, [])
    requires r.admitted == l.admitted && r.held == l.held && r.unitCount == l.unitCount
    requires r.ended == l.ended + CancelledLive(RecordAt(l, k).live)
    requires forall j :: RecordAt(r, j).live == if j == k then [] else RecordAt(l, j).live
    ensures Accounted(r, [])
  {
    var taken := RecordAt(l, k).live;
    forall j
      ensures LiveKnown(r, j)
    {
      assert LiveKnown(l, j);
    }
    forall i | 0 <= i < |r.ended|
      ensures r.ended[i].key in r.admitted
    {
      assert LiveKnown(l, k);
      assert i < |l.ended| ==> r.ended[i] == l.ended[i];
      assert i >= |l.ended| ==> r.ended[i] == CancelledLive(taken)[i - |l.ended|];
    }
    forall key | key in l.admitted
      ensures Places(r, [], key) == Places(l, [], key)
    {
      CountCancelled(taken, key);
      CountEndedAppend(l.ended, CancelledLive(taken), key);
      if l.admitted[key].At() != k {
        assert LiveKnown(l, k);
        CountLiveMember(taken, key);
      }
    }
  }

  lemma CancelAccounts(l: Ledger, k: Place)
    requires Accounted(l, [])
    ensures Accounted(CancelStrong(l, k), [])
  {
    var d := DiscardOutputs(l, k);
    DiscardAccounts(l, k);
    TakenLive(d, k);
    assert d.ended + CancelledLive([]) == d.ended;
    TakeLiveAccounts(d, CancelStrong(l, k), k);
  }

  lemma AbandonAccounts(l: Ledger, k: Place)
    requires Accounted(l, [])
    ensures Accounted(AbandonStrong(l, k), [])
  {
    DiscardAccounts(l, k);
    AccountKept(DiscardOutputs(l, k), AbandonStrong(l, k), []);
  }

  // ------------------------------------------------------ service, batches

  /** The requests are those the decode serves, each once. */
  ghost predicate ServedExactly(l: Ledger, service: Service, requests: seq<Request>) {
    && (forall q :: q in requests <==> Serves(l, service, q))
    && (forall i, j | 0 <= i < j < |requests| :: requests[i] != requests[j])
  }

  lemma {:induction false} NotServedMembers(live: seq<Live>, service: Service)
    ensures forall x :: x in NotServedBy(live, service) <==> x in live && x.service != service
  {
    if live != [] {
      NotServedMembers(live[1..], service);
    }
  }

  lemma FinishedRecords(l: Ledger, service: Service)
    ensures forall k :: RecordAt(FinishService(l, service), k).live == NotServedBy(RecordAt(l, k).live, service)
  {
  }

  /** What the decode no longer serves is counted once less, if it was served. */
  lemma {:induction false} CountNotServed(live: seq<Live>, service: Service, key: nat)
    ensures CountLive(NotServedBy(live, service), key) <= CountLive(live, key)
    ensures (forall x | x in live && x.request.key == key :: x.service != service) ==>
      CountLive(NotServedBy(live, service), key) == CountLive(live, key)
    ensures (exists x :: x in live && x.request.key == key && x.service == service) ==>
      CountLive(NotServedBy(live, service), key) < CountLive(live, key)
  {
    if live != [] {
      CountNotServed(live[1..], service, key);
      CountLiveAppend(if live[0].service == service then [] else [live[0]], NotServedBy(live[1..], service), key);
      assert [live[0]][1..] == [];
      assert forall x :: x in live <==> x == live[0] || x in live[1..];
    }
  }

  lemma {:induction false} CountDistinct(cs: seq<Completion>, key: nat)
    requires forall i, j | 0 <= i < j < |cs| :: cs[i].request.key != cs[j].request.key
    ensures CountHeld(cs, key) <= 1
  {
    if cs != [] {
      CountDistinct(cs[1..], key);
      CountHeldMember(cs[1..], key);
    }
  }

  /** The decode's end takes its requests in hand. */
  lemma FinishAccounts(l: Ledger, service: Service, requests: seq<Request>, unit: nat)
    requires Accounted(l, []) && ServedExactly(l, service, requests) && unit < l.unitCount
    ensures Accounted(FinishService(l, service), CompletionsOf(requests, unit))
  {
    var r := FinishService(l, service);
    var hand := CompletionsOf(requests, unit);
    FinishedRecords(l, service);
    forall k
      ensures LiveKnown(r, k)
    {
      assert LiveKnown(l, k);
      NotServedMembers(RecordAt(l, k).live, service);
      forall i | 0 <= i < |RecordAt(r, k).live|
        ensures IsAdmitted(r, RecordAt(r, k).live[i].request) && RecordAt(r, k).live[i].request.At() == k
      {
        assert RecordAt(r, k).live[i] in RecordAt(l, k).live;
      }
    }
    forall i | 0 <= i < |hand|
      ensures IsAdmitted(r, hand[i].request) && hand[i].unit < r.unitCount
    {
      ServedIsAdmitted(l, service, requests, i);
    }
    forall key | key in l.admitted
      ensures Places(r, hand, key) == 1
    {
      assert Places(l, [], key) == 1;
      ServedCounts(l, service, requests, unit, key);
    }
  }

  lemma ServedIsAdmitted(l: Ledger, service: Service, requests: seq<Request>, i: nat)
    requires Known(l, []) && ServedExactly(l, service, requests) && i < |requests|
    ensures IsAdmitted(l, requests[i])
  {
    assert requests[i] in requests;
    assert Serves(l, service, requests[i]);
    assert LiveKnown(l, requests[i].At());
  }

  lemma ServedCounts(l: Ledger, service: Service, requests: seq<Request>, unit: nat, key: nat)
    requires Accounted(l, []) && ServedExactly(l, service, requests) && key in l.admitted
    ensures var live := RecordAt(l, l.admitted[key].At()).live;
      CountLive(NotServedBy(live, service), key) + CountHeld(CompletionsOf(requests, unit), key) == CountLive(live, key)
  {
    var q := l.admitted[key];
    var live := RecordAt(l, q.At()).live;
    var hand := CompletionsOf(requests, unit);
    assert Places(l, [], key) == 1;
    assert LiveKnown(l, q.At());
    CountNotServed(live, service, key);
    CountHeldMember(hand, key);
    forall i | 0 <= i < |hand|
      ensures IsAdmitted(l, hand[i].request)
    {
      ServedIsAdmitted(l, service, requests, i);
    }
    CountDistinct(hand, key);
    if Serves(l, service, q) {
      assert q in requests;
      var i :| 0 <= i < |requests| && requests[i] == q;
      assert hand[i].request.key == key;
    } else {
      forall x | x in live && x.request.key == key
        ensures x.service != service
      {
        assert x == Live(q, x.service);
      }
      forall i | 0 <= i < |hand|
        ensures hand[i].request != q
      {
        assert requests[i] in requests;
      }
    }
  }

  lemma DecodeDoneAccounts(
    l: Ledger, service: Service, requests: seq<Request>, unit: nat, isMerged: bool, hasOwnAccuracy: bool)
    requires Accounted(l, []) && ServedExactly(l, service, requests) && unit < l.unitCount
    requires DecodeDone(l, service, requests, unit, isMerged, hasOwnAccuracy).Done?
    ensures Accounted(DecodeDone(l, service, requests, unit, isMerged, hasOwnAccuracy).ledger, [])
  {
    FinishAccounts(l, service, requests, unit);
    CompleteAllAccounts(FinishService(l, service), CompletionsOf(requests, unit));
  }

  /** Every request stands live in its record. */
  ghost predicate AllLive(l: Ledger, requests: seq<Request>) {
    forall i | 0 <= i < |requests| :: IsLive(l, requests[i])
  }

  ghost predicate IsLive(l: Ledger, q: Request) {
    exists service :: Live(q, service) in RecordAt(l, q.At()).live
  }

  ghost predicate IsAlone(l: Ledger, q: Request) {
    |RecordAt(l, q.At()).live| == 1
  }

  lemma ServeOneAlone(l: Ledger, q: Request, service: Service)
    requires Accounted(l, []) && IsLive(l, q) && IsAlone(l, q)
    ensures var r := Put(l, q.At(), RecordAt(l, q.At()).(live := [Live(q, service)]));
      && Accounted(r, [])
      && forall p :: (IsLive(r, p) <==> IsLive(l, p)) && (IsAlone(r, p) <==> IsAlone(l, p))
  {
    var r := Put(l, q.At(), RecordAt(l, q.At()).(live := [Live(q, service)]));
    var live := RecordAt(l, q.At()).live;
    var s0 :| Live(q, s0) in live;
    assert live == [Live(q, s0)];
    forall k
      ensures LiveKnown(r, k)
    {
      assert LiveKnown(l, k);
    }
    forall key | key in l.admitted
      ensures Places(r, [], key) == Places(l, [], key)
    {
      assert live[1..] == [] && [Live(q, service)][1..] == [];
    }
    forall p
      ensures IsLive(r, p) <==> IsLive(l, p)
    {
      if p.At() == q.At() {
        assert RecordAt(r, p.At()).live == [Live(q, service)];
        assert p == q ==> Live(p, service) in RecordAt(r, p.At()).live && Live(p, s0) in live;
      }
    }
  }

  lemma {:induction false} ServeAloneAccounts(l: Ledger, requests: seq<Request>, service: Request -> Service)
    requires Accounted(l, []) && AllLive(l, requests)
    requires forall i | 0 <= i < |requests| :: IsAlone(l, requests[i])
    ensures Accounted(ServeBy(l, requests, service), [])
    decreases |requests|
  {
    if requests != [] {
      var q := requests[0];
      ServeOneAlone(l, q, service(q));
      ServeAloneAccounts(Put(l, q.At(), RecordAt(l, q.At()).(live := [Live(q, service(q))])), requests[1..], service);
    }
  }

  /** What a rewrite of the records leaves: the same results and ends, one request live where
      it wrote. */
  lemma {:induction false} ServeByEffect(l: Ledger, requests: seq<Request>, service: Request -> Service)
    ensures var r := ServeBy(l, requests, service);
      && r.held == l.held && r.ended == l.ended && r.admitted == l.admitted
      && (forall i | 0 <= i < |requests| :: IsAlone(r, requests[i]))
    ensures forall q | IsAlone(l, q) :: IsAlone(ServeBy(l, requests, service), q)
    decreases |requests|
  {
    if requests != [] {
      var q := requests[0];
      var next := Put(l, q.At(), RecordAt(l, q.At()).(live := [Live(q, service(q))]));
      assert IsAlone(next, q);
      ServeByEffect(next, requests[1..], service);
    }
  }

  /** Forming or reopening a batch keeps the account just when each member is the only live
      request of its record: a record that held a companion beside it would lose one. */
  lemma BatchAccountsExactly(l: Ledger, requests: seq<Request>, service: Request -> Service)
    requires Accounted(l, []) && AllLive(l, requests)
    ensures Accounted(ServeBy(l, requests, service), []) <==> forall i | 0 <= i < |requests| :: IsAlone(l, requests[i])
  {
    var r := ServeBy(l, requests, service);
    if forall i | 0 <= i < |requests| :: IsAlone(l, requests[i]) {
      ServeAloneAccounts(l, requests, service);
    } else {
      var i :| 0 <= i < |requests| && !IsAlone(l, requests[i]);
      ServeByEffect(l, requests, service);
      LostBesideAnother(l, r, requests[i]);
    }
  }

  lemma LostBesideAnother(l: Ledger, r: Ledger, q: Request)
    requires Accounted(l, []) && IsLive(l, q) && !IsAlone(l, q) && IsAlone(r, q)
    requires r.held == l.held && r.ended == l.ended && r.admitted == l.admitted
    ensures !Accounted(r, [])
  {
    var live := RecordAt(l, q.At()).live;
    var service :| Live(q, service) in live;
    var a, b := live[0].request, live[1].request;
    assert LiveKnown(l, q.At());
    assert Places(l, [], a.key) == 1 && Places(l, [], b.key) == 1;
    assert CountLive(live[1..], b.key) >= 1;
    var after := RecordAt(r, q.At()).live;
    assert after[1..] == [];
    assert a.key != b.key ==> CountLive(after, a.key) + CountLive(after, b.key) <= 1;
    assert a.key != b.key ==> Places(r, [], a.key) + Places(r, [], b.key) <= 1;
  }
}
