/** What a destination that asked is owed: while it waits, the results it still owes for are
    those outstanding, so each of its attempt's results reaches it and the last ends the wait.
 */
module StrongAttempts {
  import opened Options
  import opened StrongLedgers
  import opened StrongAccounts

  ghost predicate InList(cs: seq<Completion>, q: Request) {
    exists i :: 0 <= i < |cs| && cs[i].request == q
  }

  /** The request's result has yet to reach its destination: live, held or in hand. */
  ghost predicate IsOut(l: Ledger, hand: seq<Completion>, k: Place, q: Request) {
    q.At() == k && (IsLive(l, q) || InList(l.held, q) || InList(hand, q))
  }

  ghost function Out(l: Ledger, hand: seq<Completion>, k: Place): set<Request> {
    set q | q in l.admitted.Values && IsOut(l, hand, k, q)
  }

  /** A destination that asked for an attempt is owed what is out, or the lead still to come;
      with what arrived that makes the lead and its companions. */
  ghost predicate IsOwed(l: Ledger, r: Record, lead: nat, out: set<Request>) {
    && r.selected == Some(lead)
    && r.owed == |out| + (if lead in l.admitted then 0 else 1) && r.owed >= 1
    && r.CompanionsOf(lead) + 1 == r.owed + r.arrived
    && (lead !in l.admitted ==> out == {})
    && (forall q | q in out :: q.key !in l.abandoned)
    && (r.phase.WaitingResult? ==> forall q | q in out :: !InList(l.held, q))
  }

  /** A weak decode of the place that is wanted is still without its verdict. */
  ghost predicate MayYetAsk(l: Ledger, r: Record) {
    exists key :: key in r.openWeak && key !in l.abandoned
  }

  /** A destination that asked for nothing had every request still out abandoned; or none of
      its attempt ended yet, none is abandoned, and its weak decode may still ask. */
  ghost predicate IsUnasked(l: Ledger, r: Record, lead: nat, out: set<Request>) {
    && r.selected.None?
    && (|| (forall q | q in out :: q.key in l.abandoned && !InList(l.held, q))
        || ((forall q | q in out :: q.key !in l.abandoned) && MayYetAsk(l, r) && r.CompanionsOf(lead) + 1 == |out|))
  }

  ghost predicate Attempt(l: Ledger, hand: seq<Completion>, k: Place, lead: nat) {
    var r := RecordAt(l, k);
    var out := Out(l, hand, k);
    && (forall q | q in out :: q.lead == lead)
    && (if r.phase.NothingAsked? then IsUnasked(l, r, lead, out) else IsOwed(l, r, lead, out))
  }

  ghost predicate HasAttempt(l: Ledger, hand: seq<Completion>, k: Place) {
    exists lead :: Attempt(l, hand, k, lead)
  }

  ghost predicate CompanionsKnown(l: Ledger, k: Place) {
    forall lead | lead in RecordAt(l, k).companions :: lead in l.admitted
  }

  /** The weak decodes a record keeps open that are requests themselves are those of the pool
      that escalates there; what escalates nowhere is never asked for. */
  ghost predicate OpenKnown(l: Ledger, k: Place) {
    && (k.target.None? ==> RecordAt(l, k).phase.NothingAsked?)
    && forall key | key in RecordAt(l, k).openWeak && key in l.admitted ::
      AttemptPlace(l, l.admitted[key].window, l.admitted[key].pool) == k
  }

  ghost predicate RecordsKnown(l: Ledger) {
    && (forall p | p in l.targets :: l.targets[p] != p)
    && (forall key | key in l.abandoned :: key in l.admitted)
    && (forall k :: CompanionsKnown(l, k))
    && (forall k :: OpenKnown(l, k))
  }

  ghost predicate Promised(l: Ledger, hand: seq<Completion>) {
    RecordsKnown(l) && forall k :: HasAttempt(l, hand, k)
  }

  ghost predicate Sound(l: Ledger, hand: seq<Completion>) {
    Accounted(l, hand) && Promised(l, hand)
  }

  // -------------------------------------------------------- small facts

  lemma LiveIsCounted(l: Ledger, q: Request)
    ensures IsLive(l, q) ==> CountLive(RecordAt(l, q.At()).live, q.key) > 0
  {
    var live := RecordAt(l, q.At()).live;
    CountLiveMember(live, q.key);
    forall service | Live(q, service) in live
      ensures exists i :: 0 <= i < |live| && live[i].request.key == q.key
    {
      var i :| 0 <= i < |live| && live[i] == Live(q, service);
      assert live[i].request.key == q.key;
    }
  }

  lemma EndedIsNotOut(l: Ledger, hand: seq<Completion>, q: Request)
    requires Accounted(l, hand) && IsAdmitted(l, q) && CountEnded(l.ended, q.key) >= 1
    ensures !IsOut(l, hand, q.At(), q)
  {
    assert Places(l, hand, q.key) == 1;
    LiveIsCounted(l, q);
    CountHeldMember(l.held, q.key);
    CountHeldMember(hand, q.key);
  }

  lemma LiveIsOut(l: Ledger, hand: seq<Completion>, k: Place, i: nat)
    requires Accounted(l, hand) && i < |RecordAt(l, k).live|
    ensures RecordAt(l, k).live[i].request in Out(l, hand, k)
  {
    var x := RecordAt(l, k).live[i];
    assert LiveKnown(l, k);
    assert Live(x.request, x.service) in RecordAt(l, k).live;
  }

  lemma HandIsOut(l: Ledger, hand: seq<Completion>, i: nat)
    requires Accounted(l, hand) && i < |hand|
    ensures hand[i].request in Out(l, hand, hand[i].request.At())
  {
  }

  /** A place whose record, results and abandoned requests did not change. */
  lemma AttemptKept(l: Ledger, hand: seq<Completion>, r: Ledger, after: seq<Completion>, k: Place)
    requires HasAttempt(l, hand, k) && Out(r, after, k) == Out(l, hand, k) && RecordAt(r, k) == RecordAt(l, k)
    requires forall q | q in Out(l, hand, k) :: InList(r.held, q) <==> InList(l.held, q)
    requires r.admitted == l.admitted && r.abandoned == l.abandoned
    ensures HasAttempt(r, after, k)
  {
    var lead :| Attempt(l, hand, k, lead);
    assert Attempt(r, after, k, lead);
  }

  // ------------------------------------------------- one finished result

  ghost predicate SameResults(l: Ledger, r: Ledger) {
    SameLive(l, r) && r.admitted == l.admitted && r.held == l.held
  }

  /** The result in hand ended: it alone is no longer out. */
  lemma OutAfterEnd(l: Ledger, hand: seq<Completion>, r: Ledger, k: Place)
    requires hand != [] && Accounted(l, hand) && Accounted(r, hand[1..])
    requires SameResults(l, r) && CountEnded(r.ended, hand[0].request.key) >= 1
    ensures Out(r, hand[1..], k) == Out(l, hand, k) - {hand[0].request}
  {
    var q := hand[0].request;
    EndedIsNotOut(r, hand[1..], q);
    forall x: Request
      ensures InList(hand, x) <==> x == q || InList(hand[1..], x)
    {
      if i :| 1 <= i < |hand| && hand[i].request == x {
        assert hand[1..][i - 1].request == x;
      }
    }
    assert forall x: Request :: IsLive(r, x) <==> IsLive(l, x);
  }

  lemma {:induction false} EndedCounts(ended: seq<Ended>, key: nat, outcome: Outcome)
    ensures CountEnded(ended + [Ended(key, outcome)], key) >= 1
  {
    CountEndedAppend(ended, [Ended(key, outcome)], key);
  }

  /** The record as it was, or without the key's weak decode, or gone with it. */
  ghost predicate ClosesKey(was: Record, now: Record, key: nat) {
    || now == was
    || (var closed := was.(openWeak := was.openWeak - {key}); now == if closed.IsEmpty() then NoRequests else closed)
  }

  lemma ClosedRecords(l: Ledger, q: Request)
    ensures forall k :: ClosesKey(RecordAt(l, k), RecordAt(CloseAttempt(l, q), k), q.key)
  {
  }

  /** An abandoned result is dropped; the attempt it opened further on closes. */
  lemma DropKeeps(l: Ledger, hand: seq<Completion>)
    requires hand != [] && Sound(l, hand) && hand[0].request.key in l.abandoned
    ensures Complete(l, hand[0]).Done?
    ensures Sound(Complete(l, hand[0]).ledger, hand[1..])
  {
    var q := hand[0].request;
    var r := Complete(l, hand[0]).ledger;
    CompleteAccounts(l, hand);
    CompleteEffect(l, hand[0]);
    EndedCounts(l.ended, q.key, CompletedDiscarded);
    HandIsOut(l, hand, 0);
    var dropped := l.(abandoned := r.abandoned, abandonedCount := r.abandonedCount, ended := r.ended);
    assert r == CloseAttempt(dropped, q);
    ClosedRecords(dropped, q);
    forall k
      ensures HasAttempt(r, hand[1..], k) && CompanionsKnown(r, k) && OpenKnown(r, k)
    {
      OutAfterEnd(l, hand, r, k);
      assert RecordAt(dropped, k) == RecordAt(l, k) && ClosesKey(RecordAt(dropped, k), RecordAt(r, k), q.key);
      assert HasAttempt(l, hand, k) && CompanionsKnown(l, k) && OpenKnown(l, k);
      DroppedAttempt(l, hand, r, k);
    }
  }

  lemma DroppedAttempt(l: Ledger, hand: seq<Completion>, r: Ledger, k: Place)
    requires hand != [] && Accounted(l, hand) && HasAttempt(l, hand, k) && hand[0].request.key in l.abandoned
    requires hand[0].request in Out(l, hand, hand[0].request.At())
    requires Out(r, hand[1..], k) == Out(l, hand, k) - {hand[0].request}
    requires SameResults(l, r) && r.abandoned == l.abandoned - {hand[0].request.key}
    requires ClosesKey(RecordAt(l, k), RecordAt(r, k), hand[0].request.key)
    ensures HasAttempt(r, hand[1..], k)
  {
    var lead :| Attempt(l, hand, k, lead);
    var q := hand[0].request;
    assert forall x | x in Out(l, hand, k) && x != q :: x.key != q.key;
    if MayYetAsk(l, RecordAt(l, k)) {
      var key :| key in RecordAt(l, k).openWeak && key !in l.abandoned;
      assert key != q.key && key in RecordAt(r, k).openWeak;
    }
    assert Attempt(r, hand[1..], k, lead);
  }

  /** An awaited result is delivered: one less is owed, one less is out. */
  lemma DeliverKeeps(l: Ledger, hand: seq<Completion>)
    requires hand != [] && Sound(l, hand) && hand[0].request.key !in l.abandoned && IsAwaited(l, hand[0].request)
    ensures Complete(l, hand[0]).Done?
    ensures Sound(Complete(l, hand[0]).ledger, hand[1..])
  {
    var q := hand[0].request;
    var r := Complete(l, hand[0]).ledger;
    CompleteAccounts(l, hand);
    CompleteEffect(l, hand[0]);
    EndedCounts(l.ended, q.key, Delivered);
    HandIsOut(l, hand, 0);
    forall k
      ensures HasAttempt(r, hand[1..], k) && CompanionsKnown(r, k) && OpenKnown(r, k)
    {
      OutAfterEnd(l, hand, r, k);
      assert HasAttempt(l, hand, k) && CompanionsKnown(l, k) && OpenKnown(l, k);
      DeliveredPlace(l, hand, r, k);
    }
  }

  lemma DeliveredPlace(l: Ledger, hand: seq<Completion>, r: Ledger, k: Place)
    requires hand != [] && HasAttempt(l, hand, k) && CompanionsKnown(l, k) && OpenKnown(l, k)
    requires IsAwaited(l, hand[0].request)
    requires hand[0].request in Out(l, hand, hand[0].request.At())
    requires Out(r, hand[1..], k) == Out(l, hand, k) - {hand[0].request}
    requires SameResults(l, r) && r.abandoned == l.abandoned && r.targets == l.targets
    requires r.records ==
      Put(l, hand[0].request.At(), OneArrived(RecordAt(l, hand[0].request.At()), hand[0].request.lead)).records
    ensures HasAttempt(r, hand[1..], k) && CompanionsKnown(r, k) && OpenKnown(r, k)
  {
    var q := hand[0].request;
    if k != q.At() {
      AttemptKept(l, hand, r, hand[1..], k);
    } else {
      DeliveredAttempt(l, hand, r);
    }
  }

  lemma DeliveredAttempt(l: Ledger, hand: seq<Completion>, r: Ledger)
    requires hand != [] && HasAttempt(l, hand, hand[0].request.At()) && IsAwaited(l, hand[0].request)
    requires hand[0].request in Out(l, hand, hand[0].request.At())
    requires Out(r, hand[1..], hand[0].request.At()) == Out(l, hand, hand[0].request.At()) - {hand[0].request}
    requires SameResults(l, r) && r.abandoned == l.abandoned
    requires r.records ==
      Put(l, hand[0].request.At(), OneArrived(RecordAt(l, hand[0].request.At()), hand[0].request.lead)).records
    ensures HasAttempt(r, hand[1..], hand[0].request.At())
  {
    var k := hand[0].request.At();
    var lead :| Attempt(l, hand, k, lead);
    assert |Out(r, hand[1..], k)| == |Out(l, hand, k)| - 1;
    var after := OneArrived(RecordAt(l, k), lead);
    assert RecordAt(r, k) == if after.IsEmpty() then NoRequests else after;
    assert Attempt(r, hand[1..], k, lead);
  }

  /** A request still out and wanted has a destination that waits for it or may yet ask. */
  lemma OutMayBeTaken(l: Ledger, hand: seq<Completion>, q: Request)
    requires Promised(l, hand) && q in Out(l, hand, q.At()) && q.key !in l.abandoned
    ensures MayConsume(l, q.At())
  {
    assert HasAttempt(l, hand, q.At());
  }

  /** Any other result waits at its unit: no newer request, and the place may still consume. */
  lemma HoldKeeps(l: Ledger, hand: seq<Completion>)
    requires hand != [] && Sound(l, hand) && hand[0].request.key !in l.abandoned && !IsAwaited(l, hand[0].request)
    ensures Complete(l, hand[0]).Done?
    ensures Sound(Complete(l, hand[0]).ledger, hand[1..])
  {
    var q := hand[0].request;
    assert HasAttempt(l, hand, q.At());
    var lead :| Attempt(l, hand, q.At(), lead);
    HandIsOut(l, hand, 0);
    OutMayBeTaken(l, hand, q);
    forall i | 0 <= i < |RecordAt(l, q.At()).live|
      ensures RecordAt(l, q.At()).live[i].request.lead == q.lead
    {
      LiveIsOut(l, hand, q.At(), i);
    }
    var r := Complete(l, hand[0]).ledger;
    CompleteAccounts(l, hand);
    forall k
      ensures HasAttempt(r, hand[1..], k) && CompanionsKnown(r, k) && OpenKnown(r, k)
    {
      assert HasAttempt(l, hand, k) && CompanionsKnown(l, k) && OpenKnown(l, k);
      OutAfterHold(l, hand, k);
      HeldAttempt(l, hand, r, k);
    }
  }

  lemma OutAfterHold(l: Ledger, hand: seq<Completion>, k: Place)
    requires hand != []
    ensures Out(l.(held := l.held + [hand[0]]), hand[1..], k) == Out(l, hand, k)
    ensures forall x :: InList(l.held + [hand[0]], x) <==> InList(l.held, x) || x == hand[0].request
  {
    var r := l.(held := l.held + [hand[0]]);
    forall x: Request
      ensures InList(r.held, x) <==> InList(l.held, x) || x == hand[0].request
      ensures InList(hand, x) <==> x == hand[0].request || InList(hand[1..], x)
    {
      if i :| 0 <= i < |l.held| && l.held[i].request == x {
        assert r.held[i].request == x;
      }
      assert r.held[|l.held|].request == hand[0].request;
      if i :| 1 <= i < |hand| && hand[i].request == x {
        assert hand[1..][i - 1].request == x;
      }
    }
    assert forall j :: RecordAt(r, j) == RecordAt(l, j);
  }

  lemma HeldAttempt(l: Ledger, hand: seq<Completion>, r: Ledger, k: Place)
    requires hand != [] && HasAttempt(l, hand, k) && r == l.(held := l.held + [hand[0]])
    requires Out(r, hand[1..], k) == Out(l, hand, k)
    requires forall x :: InList(r.held, x) <==> InList(l.held, x) || x == hand[0].request
    requires hand[0].request.key !in l.abandoned && !IsAwaited(l, hand[0].request)
    ensures HasAttempt(r, hand[1..], k)
  {
    var lead :| Attempt(l, hand, k, lead);
    assert RecordAt(r, k) == RecordAt(l, k);
    assert Attempt(r, hand[1..], k, lead);
  }

  /** A finished result in hand never raises. */
  lemma CompleteKeeps(l: Ledger, hand: seq<Completion>)
    requires hand != [] && Sound(l, hand)
    ensures Complete(l, hand[0]).Done?
    ensures Sound(Complete(l, hand[0]).ledger, hand[1..])
  {
    if hand[0].request.key in l.abandoned {
      DropKeeps(l, hand);
    } else if IsAwaited(l, hand[0].request) {
      DeliverKeeps(l, hand);
    } else {
      HoldKeeps(l, hand);
    }
  }

  lemma {:induction false} CompleteAllKeeps(l: Ledger, hand: seq<Completion>)
    requires Sound(l, hand)
    ensures CompleteAll(l, hand).Done? && Sound(CompleteAll(l, hand).ledger, [])
    decreases |hand|
  {
    if hand != [] {
      CompleteKeeps(l, hand);
      CompleteAllKeeps(Complete(l, hand[0]).ledger, hand[1..]);
    }
  }
}
