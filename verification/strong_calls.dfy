/** The calls of the manager on the ledger, under what the window side promises: none raises,
    each keeps the account and the promises, and a selection takes every waiting result.
 */
module StrongCalls {
  import opened Options
  import opened StrongLedgers
  import opened StrongAccounts
  import opened StrongAttempts

  // ------------------------------------------------------------ selection

  lemma TakenOut(l: Ledger, r: Ledger, k: Place)
    requires Accounted(l, []) && SameLive(l, r) && r.admitted == l.admitted && r.held == Elsewhere(l.held, k)
    ensures forall j :: Out(r, OutputsAt(l, k), j) == Out(l, [], j)
    ensures forall q :: InList(r.held, q) ==> InList(l.held, q) && q.At() != k
    ensures forall q :: InList(l.held, q) && q.At() != k ==> InList(r.held, q)
    ensures forall i | 0 <= i < |OutputsAt(l, k)| :: OutputsAt(l, k)[i].request.At() == k
  {
    var hand := OutputsAt(l, k);
    OutputsMembers(l.held, k, 0, l.unitCount);
    ElsewhereMembers(l.held, k);
    forall i | 0 <= i < |hand|
      ensures hand[i].request.At() == k && InList(l.held, hand[i].request)
    {
      assert hand[i] in hand;
    }
    forall q: Request
      ensures InList(l.held, q) <==> InList(r.held, q) || InList(hand, q)
      ensures InList(r.held, q) ==> q.At() != k
    {
      if i :| 0 <= i < |l.held| && l.held[i].request == q {
        var c := l.held[i];
        assert c in l.held;
        if q.At() == k {
          assert c in hand;
          var j :| 0 <= j < |hand| && hand[j] == c;
          assert hand[j].request == q;
        } else {
          assert c in r.held;
          var j :| 0 <= j < |r.held| && r.held[j] == c;
          assert r.held[j].request == q;
        }
      }
      if i :| 0 <= i < |r.held| && r.held[i].request == q {
        assert r.held[i] in r.held;
        assert r.held[i] in l.held;
        var j :| 0 <= j < |l.held| && l.held[j] == r.held[i];
        assert l.held[j].request == q;
      }
    }
    assert forall q: Request :: IsLive(r, q) <==> IsLive(l, q);
  }

  lemma LandedIsSound(l: Ledger, k: Place, lead: nat)
    requires Sound(l, []) && IsSelected(l, k, lead)
    ensures var landed := Put(l, k, RecordAt(l, k).(phase := WaitingResult)).(held := Elsewhere(l.held, k));
      Sound(landed, OutputsAt(l, k)) && RecordAt(landed, k).phase.WaitingResult?
    ensures AllAt(OutputsAt(l, k), k)
  {
    var landed := Put(l, k, RecordAt(l, k).(phase := WaitingResult)).(held := Elsewhere(l.held, k));
    var hand := OutputsAt(l, k);
    LandedAccounts(l, k);
    TakenOut(l, landed, k);
    forall j
      ensures HasAttempt(landed, hand, j) && CompanionsKnown(landed, j) && OpenKnown(landed, j)
    {
      assert HasAttempt(l, [], j) && CompanionsKnown(l, j) && OpenKnown(l, j);
      LandedAttempt(l, landed, hand, k, j);
    }
    LandedRecords(l, landed);
  }

  lemma LandedRecords(l: Ledger, landed: Ledger)
    requires RecordsKnown(l) && landed.targets == l.targets && landed.abandoned == l.abandoned
    requires landed.admitted == l.admitted
    requires forall j :: CompanionsKnown(landed, j) && OpenKnown(landed, j)
    ensures RecordsKnown(landed)
  {
  }

  lemma LandedAccounts(l: Ledger, k: Place)
    requires Accounted(l, [])
    ensures Accounted(Put(l, k, RecordAt(l, k).(phase := WaitingResult)).(held := Elsewhere(l.held, k)),
      OutputsAt(l, k))
  {
    TakeOutputsAccounts(l, k);
    AccountKept(
      l.(held := Elsewhere(l.held, k)),
      Put(l, k, RecordAt(l, k).(phase := WaitingResult)).(held := Elsewhere(l.held, k)), OutputsAt(l, k));
  }

  lemma LandedAttempt(l: Ledger, landed: Ledger, hand: seq<Completion>, k: Place, j: Place)
    requires HasAttempt(l, [], j) && RecordAt(l, k).phase.WaitingSelection?
    requires landed.admitted == l.admitted && landed.abandoned == l.abandoned
    requires RecordAt(landed, j) == if j == k then RecordAt(l, k).(phase := WaitingResult) else RecordAt(l, j)
    requires Out(landed, hand, j) == Out(l, [], j)
    requires forall q :: InList(landed.held, q) ==> InList(l.held, q) && q.At() != k
    requires forall q :: InList(l.held, q) && q.At() != k ==> InList(landed.held, q)
    ensures HasAttempt(landed, hand, j)
    ensures CompanionsKnown(l, j) ==> CompanionsKnown(landed, j)
  {
    var some :| Attempt(l, [], j, some);
    assert forall q | q in Out(l, [], j) :: q.At() == j;
    assert Attempt(landed, hand, j, some);
  }

  ghost predicate AllAt(hand: seq<Completion>, k: Place) {
    forall i | 0 <= i < |hand| :: hand[i].request.At() == k
  }

  /** The first result in hand of a place that waits is delivered, and the place waits on if
      another is in hand. */
  lemma FirstDelivered(l: Ledger, hand: seq<Completion>, k: Place)
    requires Sound(l, hand) && hand != [] && hand[0].request.At() == k && RecordAt(l, k).phase.WaitingResult?
    ensures Complete(l, hand[0]).Done?
    ensures var next := Complete(l, hand[0]).ledger;
      && Sound(next, hand[1..]) && next.held == l.held
      && next.ended == l.ended + [Ended(hand[0].request.key, Delivered)]
  {
    HandIsOut(l, hand, 0);
    assert HasAttempt(l, hand, k);
    DeliverKeeps(l, hand);
    CompleteEffect(l, hand[0]);
  }

  lemma WaitsForMore(l: Ledger, hand: seq<Completion>, k: Place)
    requires Sound(l, hand) && |hand| > 1 && AllAt(hand, k) && RecordAt(l, k).phase.WaitingResult?
    requires Complete(l, hand[0]).Done? && Sound(Complete(l, hand[0]).ledger, hand[1..])
    ensures RecordAt(Complete(l, hand[0]).ledger, k).phase.WaitingResult?
  {
    var next := Complete(l, hand[0]).ledger;
    HandIsOut(l, hand, 0);
    assert HasAttempt(l, hand, k);
    CompleteEffect(l, hand[0]);
    EndedCounts(l.ended, hand[0].request.key, Delivered);
    OutAfterEnd(l, hand, next, k);
    assert hand[1..][0] == hand[1];
    HandIsOut(next, hand[1..], 0);
    assert |Out(next, hand[1..], k)| >= 1;
  }

  /** The results in hand of a place that waits are all delivered. */
  lemma {:induction false} AllDelivered(l: Ledger, hand: seq<Completion>, k: Place)
    requires Sound(l, hand) && AllAt(hand, k)
    requires hand != [] ==> RecordAt(l, k).phase.WaitingResult?
    ensures CompleteAll(l, hand).Done?
    ensures var r := CompleteAll(l, hand).ledger;
      r.held == l.held && r.ended == l.ended + EndedAs(hand, Delivered) && Sound(r, [])
    decreases |hand|
  {
    if hand != [] {
      FirstDelivered(l, hand, k);
      if |hand| > 1 {
        WaitsForMore(l, hand, k);
      }
      assert forall i | 0 <= i < |hand[1..]| :: hand[1..][i] == hand[i + 1];
      AllDelivered(Complete(l, hand[0]).ledger, hand[1..], k);
      EndedFirst(l.ended, hand);
    }
  }

  lemma EndedFirst(ended: seq<Ended>, hand: seq<Completion>)
    requires hand != []
    ensures ended + [Ended(hand[0].request.key, Delivered)] + EndedAs(hand[1..], Delivered) ==
      ended + EndedAs(hand, Delivered)
  {
    assert [Ended(hand[0].request.key, Delivered)] + EndedAs(hand[1..], Delivered) == EndedAs(hand, Delivered);
  }

  /** A landed selection takes every result waiting for its place, and delivers each. */
  lemma SelectionDelivers(l: Ledger, k: Place, lead: nat)
    requires Sound(l, [])
    ensures AcceptSelection(l, k, lead).Done? && Sound(AcceptSelection(l, k, lead).ledger, [])
    ensures var r := AcceptSelection(l, k, lead).ledger;
      if !IsSelected(l, k, lead) then r == l
      else r.held == Elsewhere(l.held, k) && r.ended == l.ended + EndedAs(OutputsAt(l, k), Delivered)
  {
    if IsSelected(l, k, lead) {
      LandedIsSound(l, k, lead);
      AllDelivered(
        Put(l, k, RecordAt(l, k).(phase := WaitingResult)).(held := Elsewhere(l.held, k)), OutputsAt(l, k), k);
    }
  }

  // --------------------------------------------------------- a decode's end

  lemma FinishIsSound(l: Ledger, service: Service, requests: seq<Request>, unit: nat)
    requires Sound(l, []) && ServedExactly(l, service, requests) && unit < l.unitCount
    ensures Sound(FinishService(l, service), CompletionsOf(requests, unit))
  {
    var r := FinishService(l, service);
    var hand := CompletionsOf(requests, unit);
    FinishAccounts(l, service, requests, unit);
    FinishedRecords(l, service);
    forall k
      ensures HasAttempt(r, hand, k) && CompanionsKnown(r, k) && OpenKnown(r, k)
    {
      assert HasAttempt(l, [], k) && CompanionsKnown(l, k) && OpenKnown(l, k);
      FinishedOut(l, service, requests, unit, k);
      FinishedAttempt(l, service, hand, k);
    }
  }

  lemma FinishedAttempt(l: Ledger, service: Service, hand: seq<Completion>, k: Place)
    requires HasAttempt(l, [], k) && CompanionsKnown(l, k) && OpenKnown(l, k)
    requires Out(FinishService(l, service), hand, k) == Out(l, [], k)
    ensures HasAttempt(FinishService(l, service), hand, k)
    ensures CompanionsKnown(FinishService(l, service), k) && OpenKnown(FinishService(l, service), k)
  {
    var r := FinishService(l, service);
    var lead :| Attempt(l, [], k, lead);
    assert RecordAt(r, k) == ServedRecord(RecordAt(l, k), service) ||
      (RecordAt(r, k) == NoRequests && RecordAt(l, k).phase.NothingAsked? && RecordAt(l, k).openWeak == {});
    assert Attempt(r, hand, k, lead);
  }

  lemma FinishedOut(l: Ledger, service: Service, requests: seq<Request>, unit: nat, k: Place)
    requires Accounted(l, []) && ServedExactly(l, service, requests)
    ensures Out(FinishService(l, service), CompletionsOf(requests, unit), k) == Out(l, [], k)
  {
    var r := FinishService(l, service);
    var hand := CompletionsOf(requests, unit);
    FinishedRecords(l, service);
    forall q: Request
      ensures IsLive(l, q) <==> IsLive(r, q) || InList(hand, q)
    {
      NotServedMembers(RecordAt(l, q.At()).live, service);
      if IsLive(l, q) {
        var s :| Live(q, s) in RecordAt(l, q.At()).live;
        if s == service {
          assert Serves(l, service, q);
          var i :| 0 <= i < |requests| && requests[i] == q;
          assert hand[i].request == q;
        } else {
          assert Live(q, s) in RecordAt(r, q.At()).live;
        }
      }
      if i :| 0 <= i < |hand| && hand[i].request == q {
        assert requests[i] in requests;
        assert Serves(l, service, q);
      }
    }
  }

  /** What a merged decode may not carry. */
  predicate CarriesMergedAccuracy(requests: seq<Request>, isMerged: bool, hasOwnAccuracy: bool) {
    (|requests| > 1 || isMerged) && hasOwnAccuracy
  }

  /** The end of a decode that serves a request raises just when it is a merged one that carries
      an accuracy of its own; whatever closed meanwhile, no request it answers raises. */
  lemma DecodeDoneKeeps(
    l: Ledger, service: Service, requests: seq<Request>, unit: nat, isMerged: bool, hasOwnAccuracy: bool)
    requires Sound(l, []) && ServedExactly(l, service, requests) && requests != [] && unit < l.unitCount
    ensures var done := DecodeDone(l, service, requests, unit, isMerged, hasOwnAccuracy);
      if CarriesMergedAccuracy(requests, isMerged, hasOwnAccuracy) then done == Raised(MergedAccuracy)
      else done.Done? && Sound(done.ledger, [])
  {
    FinishIsSound(l, service, requests, unit);
    CompleteAllKeeps(FinishService(l, service), CompletionsOf(requests, unit));
  }

  // --------------------------------------------- admission and the weak side

  /** A record that only opens weak decodes keeps its attempt. */
  lemma WeakOpened(l: Ledger, r: Ledger, k: Place, key: nat)
    requires HasAttempt(l, [], k) && Out(r, [], k) == Out(l, [], k)
    requires r.admitted == l.admitted && r.held == l.held && r.abandoned == l.abandoned
    requires RecordAt(r, k) == RecordAt(l, k).(openWeak := RecordAt(l, k).openWeak + {key})
    ensures HasAttempt(r, [], k)
  {
    var lead :| Attempt(l, [], k, lead);
    if MayYetAsk(l, RecordAt(l, k)) {
      var other :| other in RecordAt(l, k).openWeak && other !in l.abandoned;
      assert other in RecordAt(r, k).openWeak;
    }
    assert Attempt(r, [], k, lead);
  }

  lemma OpenKeeps(l: Ledger, k: Place, key: nat)
    requires Sound(l, [])
    requires key in l.admitted ==> AttemptPlace(l, l.admitted[key].window, l.admitted[key].pool) == k
    ensures Sound(OpenAttempt(l, k, key), [])
  {
    var r := OpenAttempt(l, k, key);
    AccountKept(l, r, []);
    forall j
      ensures HasAttempt(r, [], j) && CompanionsKnown(r, j) && OpenKnown(r, j)
    {
      assert HasAttempt(l, [], j) && CompanionsKnown(l, j) && OpenKnown(l, j);
      SameOut(l, r, j);
      if j == k {
        WeakOpened(l, r, k, key);
      } else {
        AttemptKept(l, [], r, [], j);
      }
    }
  }

  lemma SameOut(l: Ledger, r: Ledger, k: Place)
    requires SameLive(l, r) && r.admitted == l.admitted && r.held == l.held
    ensures Out(r, [], k) == Out(l, [], k)
  {
    assert forall q: Request :: IsLive(r, q) <==> IsLive(l, q);
  }

  /** A weak decode has its directive once the destination asked, or once every request still
      out was abandoned. */
  ghost predicate MayResolve(l: Ledger, k: Place) {
    !RecordAt(l, k).phase.NothingAsked? || forall q | q in Out(l, [], k) :: q.key in l.abandoned
  }

  /** Closing the weak decodes keeps the promises just when that is so. */
  lemma ResolveKeepsExactly(l: Ledger, window: nat, pool: nat)
    requires Sound(l, [])
    ensures Sound(ResolveWeak(l, window, pool), []) <==> MayResolve(l, AttemptPlace(l, window, pool))
  {
    var k := AttemptPlace(l, window, pool);
    var r := ResolveWeak(l, window, pool);
    AccountKept(l, r, []);
    SameOut(l, r, k);
    assert HasAttempt(l, [], k);
    if MayResolve(l, k) {
      forall j
        ensures HasAttempt(r, [], j) && CompanionsKnown(r, j) && OpenKnown(r, j)
      {
        assert HasAttempt(l, [], j) && CompanionsKnown(l, j) && OpenKnown(l, j);
        SameOut(l, r, j);
        if j == k {
          WeakClosed(l, r, k);
        } else {
          AttemptKept(l, [], r, [], j);
        }
      }
    } else {
      assert RecordAt(r, k).openWeak == {};
      assert !HasAttempt(r, [], k);
    }
  }

  lemma WeakClosed(l: Ledger, r: Ledger, k: Place)
    requires HasAttempt(l, [], k) && MayResolve(l, k) && Out(r, [], k) == Out(l, [], k)
    requires r.admitted == l.admitted && r.held == l.held && r.abandoned == l.abandoned
    requires var closed := RecordAt(l, k).(openWeak := {});
      RecordAt(r, k) == if closed.IsEmpty() then NoRequests else closed
    ensures HasAttempt(r, [], k)
  {
    var lead :| Attempt(l, [], k, lead);
    assert Attempt(r, [], k, lead);
  }

  /** A request's key is new. A lead comes when nothing of its place is out, while its weak decode
      may yet ask or as the attempt already asked for; a companion's lead is the attempt that is
      out or asked for. */
  ghost predicate MayAdmit(l: Ledger, q: Request) {
    var k := q.At();
    var r := RecordAt(l, k);
    && q.key !in l.admitted
    && (forall j :: q.key !in RecordAt(l, j).openWeak)
    && (forall j :: j != k ==> RecordAt(l, j).selected != Some(q.key))
    && (if q.lead == q.key then
          && Out(l, [], k) == {}
          && (if r.phase.NothingAsked? then MayYetAsk(l, r) else r.selected == Some(q.key))
        else
          && q.lead in l.admitted
          && (if r.phase.NothingAsked? then
                Out(l, [], k) != {} && forall x | x in Out(l, [], k) :: x.lead == q.lead && x.key !in l.abandoned
              else r.selected == Some(q.lead)))
  }

  function Added(l: Ledger, q: Request): Ledger {
    var r := RecordAt(l, q.At());
    var counted := if q.lead != q.key then WithCompanion(r, q.lead) else r;
    Put(l, q.At(), counted.(live := counted.live + [Live(q, Own(q.key))])).(admitted := l.admitted[q.key := q])
  }

  lemma AddedLive(l: Ledger, q: Request, x: Request)
    ensures IsLive(Added(l, q), x) <==> IsLive(l, x) || x == q
  {
    var r := Added(l, q);
    var live := RecordAt(l, q.At()).live;
    assert RecordAt(r, q.At()).live == live + [Live(q, Own(q.key))];
    forall s
      ensures Live(x, s) in RecordAt(r, x.At()).live <==>
        Live(x, s) in RecordAt(l, x.At()).live || (x == q && s == Own(q.key))
    {
    }
    if IsLive(r, x) {
      var s :| Live(x, s) in RecordAt(r, x.At()).live;
      assert x == q || Live(x, s) in RecordAt(l, x.At()).live;
    }
    if IsLive(l, x) {
      var s :| Live(x, s) in RecordAt(l, x.At()).live;
      assert Live(x, s) in RecordAt(r, x.At()).live;
    }
    if x == q {
      assert Live(q, Own(q.key)) in RecordAt(r, q.At()).live;
    }
  }

  lemma AddedValues(l: Ledger, q: Request, x: Request)
    requires q.key !in l.admitted
    ensures x in Added(l, q).admitted.Values <==> x in l.admitted.Values || x == q
  {
    var r := Added(l, q);
    assert r.admitted[q.key] == q;
    if x in l.admitted.Values {
      var key :| key in l.admitted && l.admitted[key] == x;
      assert r.admitted[key] == x;
    }
  }

  lemma AddedOut(l: Ledger, q: Request, k: Place)
    requires Accounted(l, []) && q.key !in l.admitted
    ensures Out(Added(l, q), [], k) == if k == q.At() then Out(l, [], k) + {q} else Out(l, [], k)
    ensures q !in Out(l, [], k)
  {
    ValuesAreKeyed(l);
    forall x: Request
      ensures x in Out(Added(l, q), [], k) <==> x in Out(l, [], k) || (x == q && k == q.At())
    {
      AddedLive(l, q, x);
      AddedValues(l, q, x);
    }
  }

  lemma ValuesAreKeyed(l: Ledger)
    requires Accounted(l, [])
    ensures forall x | x in l.admitted.Values :: IsAdmitted(l, x)
  {
  }

  lemma AddedIsSound(l: Ledger, q: Request)
    requires Sound(l, []) && MayAdmit(l, q)
    ensures Sound(Added(l, q), [])
  {
    var r := Added(l, q);
    AddedAccounts(l, r, q, Own(q.key));
    forall k
      ensures HasAttempt(r, [], k) && CompanionsKnown(r, k) && OpenKnown(r, k)
    {
      assert HasAttempt(l, [], k) && CompanionsKnown(l, k) && OpenKnown(l, k);
      AddedOut(l, q, k);
      AddedAttempt(l, q, k);
      AddedRecord(l, q, k);
    }
  }

  lemma AddedRecord(l: Ledger, q: Request, k: Place)
    requires MayAdmit(l, q) && CompanionsKnown(l, k) && OpenKnown(l, k)
    ensures CompanionsKnown(Added(l, q), k) && OpenKnown(Added(l, q), k)
  {
    var r := Added(l, q);
    assert RecordAt(r, k).openWeak == RecordAt(l, k).openWeak && q.key !in RecordAt(l, k).openWeak;
  }

  lemma AddedAttempt(l: Ledger, q: Request, k: Place)
    requires Promised(l, []) && Accounted(l, []) && MayAdmit(l, q)
    requires HasAttempt(l, [], k) && CompanionsKnown(l, k)
    requires Out(Added(l, q), [], k) == if k == q.At() then Out(l, [], k) + {q} else Out(l, [], k)
    requires q !in Out(l, [], k)
    ensures HasAttempt(Added(l, q), [], k)
  {
    var r := Added(l, q);
    var lead :| Attempt(l, [], k, lead);
    if k == q.At() {
      AddedHere(l, q, lead);
    } else {
      assert RecordAt(r, k) == RecordAt(l, k);
      assert Attempt(r, [], k, lead);
    }
  }

  lemma AddedHere(l: Ledger, q: Request, lead: nat)
    requires Promised(l, []) && Accounted(l, []) && MayAdmit(l, q)
    requires Attempt(l, [], q.At(), lead) && CompanionsKnown(l, q.At())
    requires Out(Added(l, q), [], q.At()) == Out(l, [], q.At()) + {q} && q !in Out(l, [], q.At())
    ensures Attempt(Added(l, q), [], q.At(), q.lead)
  {
    EndedFresh(l, q);
    if q.lead == q.key {
      AddedLead(l, q, lead);
    } else {
      AddedCompanion(l, q, lead);
    }
  }

  lemma AddedLead(l: Ledger, q: Request, lead: nat)
    requires Promised(l, []) && MayAdmit(l, q) && q.lead == q.key && !InList(l.held, q)
    requires Attempt(l, [], q.At(), lead) && CompanionsKnown(l, q.At())
    requires Out(Added(l, q), [], q.At()) == {q}
    ensures Attempt(Added(l, q), [], q.At(), q.lead)
  {
    assert |{q}| == 1;
  }

  lemma AddedCompanion(l: Ledger, q: Request, lead: nat)
    requires Promised(l, []) && MayAdmit(l, q) && q.lead != q.key && !InList(l.held, q)
    requires Attempt(l, [], q.At(), lead) && CompanionsKnown(l, q.At())
    requires Out(Added(l, q), [], q.At()) == Out(l, [], q.At()) + {q} && q !in Out(l, [], q.At())
    ensures Attempt(Added(l, q), [], q.At(), q.lead)
  {
    var out := Out(l, [], q.At());
    assert |out + {q}| == |out| + 1;
    if RecordAt(l, q.At()).phase.NothingAsked? {
      var x :| x in out;
      assert x.lead == lead == q.lead;
    }
  }

  lemma EndedFresh(l: Ledger, q: Request)
    requires Accounted(l, []) && q.key !in l.admitted
    ensures !InList(l.held, q)
  {
  }

  lemma AdmitKeeps(l: Ledger, q: Request)
    requires Sound(l, []) && MayAdmit(l, q)
    ensures AdmitStrong(l, q).Done? && Sound(AdmitStrong(l, q).ledger, [])
  {
    if q.lead == q.key {
      NothingLive(l, q.At());
    }
    AddedIsSound(l, q);
    if q.pool in l.targets {
      var k := AttemptPlace(l, q.window, q.pool);
      OpenKeeps(Added(l, q), k, q.key);
    }
  }

  lemma NothingLive(l: Ledger, k: Place)
    requires Accounted(l, []) && Out(l, [], k) == {}
    ensures RecordAt(l, k).live == []
  {
    if RecordAt(l, k).live != [] {
      LiveIsOut(l, [], k, 0);
    }
  }

  // --------------------------------------------------- the window side asks

  /** A destination asks once: for an attempt that is out and wanted, or for one whose lead is
      still to come. */
  ghost predicate MayBegin(l: Ledger, k: Place, lead: nat) {
    var out := Out(l, [], k);
    && k.target.Some? && RecordAt(l, k).phase.NothingAsked?
    && (if lead in l.admitted then
          && out != {}
          && forall q | q in out :: q.lead == lead && q.key !in l.abandoned
        else out == {})
  }

  lemma BeginKeeps(l: Ledger, k: Place, lead: nat)
    requires Sound(l, []) && MayBegin(l, k, lead)
    ensures Sound(BeginSelection(l, k, lead), [])
  {
    var r := BeginSelection(l, k, lead);
    AccountKept(l, r, []);
    forall j
      ensures HasAttempt(r, [], j) && CompanionsKnown(r, j) && OpenKnown(r, j)
    {
      assert HasAttempt(l, [], j) && CompanionsKnown(l, j) && OpenKnown(l, j);
      SameOut(l, r, j);
      BegunPlace(l, r, k, lead, j);
    }
  }

  lemma BegunPlace(l: Ledger, r: Ledger, k: Place, lead: nat, j: Place)
    requires HasAttempt(l, [], j) && CompanionsKnown(l, j) && OpenKnown(l, j) && CompanionsKnown(l, k)
    requires MayBegin(l, k, lead) && r == BeginSelection(l, k, lead) && Out(r, [], j) == Out(l, [], j)
    ensures HasAttempt(r, [], j) && CompanionsKnown(r, j) && OpenKnown(r, j)
  {
    var some :| Attempt(l, [], j, some);
    if j == k {
      assert forall q | q in Out(l, [], k) :: some == lead;
      assert Attempt(r, [], k, lead);
    } else {
      assert Attempt(r, [], j, some);
    }
  }

  // ---------------------------------------------------- cancel and abandon

  /** The place whose weak decodes are the requests of this one. */
  function Below(l: Ledger, k: Place): Place {
    match k.target
    case Some(pool) => AttemptPlace(l, k.window, pool)
    case None => k
  }

  ghost predicate OfOneAttempt(l: Ledger, k: Place, lead: nat) {
    forall q | q in Out(l, [], k) :: q.lead == lead
  }

  /** A place that asked for nothing and whose requests are of one attempt. */
  ghost predicate Unsettled(l: Ledger, k: Place) {
    && RecordAt(l, k).phase.NothingAsked? && RecordAt(l, k).selected.None?
    && exists lead :: OfOneAttempt(l, k, lead)
  }

  /** Sound but for one place, whose requests the window side is ending. */
  ghost predicate SoundBut(l: Ledger, x: Place) {
    && Accounted(l, []) && RecordsKnown(l) && Unsettled(l, x)
    && forall k | k != x :: HasAttempt(l, [], k)
  }

  lemma SoundIsSoundBut(l: Ledger, x: Place)
    requires Sound(l, []) && RecordAt(l, x).phase.NothingAsked?
    ensures SoundBut(l, x)
  {
    assert HasAttempt(l, [], x);
    var lead :| Attempt(l, [], x, lead);
    assert OfOneAttempt(l, x, lead);
  }

  /** Nothing is out at a place of no pool. */
  lemma SoundAtLast(l: Ledger, window: nat)
    requires SoundBut(l, Place(window, None))
    ensures Sound(l, [])
  {
    assert Attempt(l, [], Place(window, None), 0);
    forall k
      ensures HasAttempt(l, [], k)
    {
    }
  }

  /** A record that lost weak decodes, and went if nothing else keeps it. */
  ghost predicate OnlyCloses(was: Record, now: Record) {
    && (was.phase.NothingAsked? && was.selected.None? ==> now.phase.NothingAsked? && now.selected.None?)
    && (forall lead | lead in now.companions :: lead in was.companions)
    && now.openWeak <= was.openWeak
  }

  /** Closing the attempts of a place's requests touches the record below it alone. */
  lemma {:induction false} ClosesBelow(l: Ledger, k: Place, live: seq<Live>)
    requires forall i | 0 <= i < |live| :: live[i].request.At() == k
    ensures forall j | j != Below(l, k) :: RecordAt(CloseAttempts(l, live), j) == RecordAt(l, j)
    ensures OnlyCloses(RecordAt(l, Below(l, k)), RecordAt(CloseAttempts(l, live), Below(l, k)))
    decreases |live|
  {
    if live != [] {
      var next := CloseAttempt(l, live[0].request);
      assert OnlyCloses(RecordAt(l, Below(l, k)), RecordAt(next, Below(l, k)));
      ClosesBelow(next, k, live[1..]);
    }
  }

  lemma CancelledOut(l: Ledger, r: Ledger, k: Place, j: Place)
    requires Accounted(l, []) && Accounted(r, [])
    requires r.admitted == l.admitted && r.held == Elsewhere(l.held, k)
    requires forall i :: RecordAt(r, i).live == if i == k then [] else RecordAt(l, i).live
    ensures Out(r, [], j) == if j == k then {} else Out(l, [], j)
    ensures forall q: Request | q.At() != k :: InList(r.held, q) <==> InList(l.held, q)
  {
    TakenOut(l, l.(held := r.held), k);
    forall q: Request
      ensures IsLive(r, q) <==> IsLive(l, q) && q.At() != k
    {
    }
  }

  function Emptied(r: Record): Record {
    r.(live := [], companions := map[])
  }

  ghost predicate SameButRecords(l: Ledger, r: Ledger) {
    r.admitted == l.admitted && r.targets == l.targets
  }

  lemma CancelledRecords(l: Ledger, k: Place)
    requires Known(l, []) && (forall p | p in l.targets :: l.targets[p] != p) && RecordAt(l, k).phase.NothingAsked?
    ensures var r := CancelStrong(l, k);
      SameButRecords(l, r) && r.abandoned == l.abandoned && r.held == Elsewhere(l.held, k)
    ensures forall j :: RecordAt(CancelStrong(l, k), j).live == if j == k then [] else RecordAt(l, j).live
    ensures forall j | j != k && j != Below(l, k) :: RecordAt(CancelStrong(l, k), j) == RecordAt(l, j)
    ensures OnlyCloses(RecordAt(l, k), RecordAt(CancelStrong(l, k), k))
    ensures OnlyCloses(RecordAt(l, Below(l, k)), RecordAt(CancelStrong(l, k), Below(l, k)))
  {
    var d := DiscardOutputs(l, k);
    TakenLive(d, k);
    assert forall i ::
      RecordAt(d, i) == RecordAt(l, i) && RecordAt(CancelStrong(l, k), i) == RecordAt(TakeLive(d, k), i);
    var bare := Put(d, k, Emptied(RecordAt(d, k)));
    assert LiveKnown(l, k);
    ClosesBelow(bare, k, RecordAt(d, k).live);
    assert Below(bare, k) == Below(l, k);
  }

  /** One place's cancel ends all that is out there and leaves the place below to be ended. */
  lemma CancelOneKeeps(l: Ledger, k: Place)
    requires SoundBut(l, k) && RecordAt(l, Below(l, k)).phase.NothingAsked?
    ensures SoundBut(CancelStrong(l, k), Below(l, k))
    ensures Out(CancelStrong(l, k), [], k) == {} && SameButRecords(l, CancelStrong(l, k))
    ensures forall j :: RecordAt(l, j).phase.NothingAsked? ==> RecordAt(CancelStrong(l, k), j).phase.NothingAsked?
  {
    var r := CancelStrong(l, k);
    CancelAccounts(l, k);
    CancelledRecords(l, k);
    CancelledOut(l, r, k, k);
    forall j
      ensures CompanionsKnown(r, j) && OpenKnown(r, j)
      ensures RecordAt(l, j).phase.NothingAsked? ==> RecordAt(r, j).phase.NothingAsked?
      ensures j != Below(l, k) ==> HasAttempt(r, [], j)
    {
      assert CompanionsKnown(l, j) && OpenKnown(l, j);
      CancelledOut(l, r, k, j);
      CancelledPlace(l, r, k, j);
    }
    CancelledBelow(l, r, k);
  }

  lemma CancelledPlace(l: Ledger, r: Ledger, k: Place, j: Place)
    requires SoundBut(l, k) && CompanionsKnown(l, j) && OpenKnown(l, j)
    requires SameButRecords(l, r) && r.abandoned == l.abandoned
    requires Out(r, [], j) == if j == k then {} else Out(l, [], j)
    requires forall q: Request | q.At() != k :: InList(r.held, q) <==> InList(l.held, q)
    requires j != k && j != Below(l, k) ==> RecordAt(r, j) == RecordAt(l, j)
    requires j == k || j == Below(l, k) ==> OnlyCloses(RecordAt(l, j), RecordAt(r, j))
    requires RecordAt(l, Below(l, k)).phase.NothingAsked?
    ensures CompanionsKnown(r, j) && OpenKnown(r, j)
    ensures RecordAt(l, j).phase.NothingAsked? ==> RecordAt(r, j).phase.NothingAsked?
    ensures j != Below(l, k) ==> HasAttempt(r, [], j)
  {
    if j == k {
      assert Attempt(r, [], j, 0) || j == Below(l, k);
    } else {
      assert HasAttempt(l, [], j);
      var lead :| Attempt(l, [], j, lead);
      assert j != Below(l, k) ==> Attempt(r, [], j, lead);
    }
  }

  lemma CancelledBelow(l: Ledger, r: Ledger, k: Place)
    requires SoundBut(l, k) && RecordAt(l, Below(l, k)).phase.NothingAsked?
    requires Accounted(l, []) && Accounted(r, [])
    requires r.admitted == l.admitted && r.held == Elsewhere(l.held, k)
    requires forall i :: RecordAt(r, i).live == if i == k then [] else RecordAt(l, i).live
    requires OnlyCloses(RecordAt(l, Below(l, k)), RecordAt(r, Below(l, k)))
    ensures Unsettled(r, Below(l, k))
  {
    var b := Below(l, k);
    CancelledOut(l, r, k, b);
    if b != k {
      assert HasAttempt(l, [], b);
      var lead :| Attempt(l, [], b, lead);
      assert OfOneAttempt(r, b, lead);
    } else {
      assert OfOneAttempt(r, b, 0);
    }
  }

  lemma AbandonedOut(l: Ledger, r: Ledger, k: Place, j: Place)
    requires Accounted(l, []) && r.records == l.records && r.admitted == l.admitted && r.held == Elsewhere(l.held, k)
    ensures Out(r, [], j) <= Out(l, [], j)
    ensures j != k ==> Out(r, [], j) == Out(l, [], j)
    ensures forall q | q in Out(r, [], k) :: q.key in KeysOf(RecordAt(l, k).live) && !InList(r.held, q)
    ensures forall q: Request | q.At() != k :: InList(r.held, q) <==> InList(l.held, q)
  {
    TakenOut(l, l.(held := r.held), k);
    assert forall i :: RecordAt(r, i) == RecordAt(l, i);
    forall q | q in Out(r, [], k)
      ensures q.key in KeysOf(RecordAt(l, k).live)
    {
      assert IsLive(l, q);
      var s :| Live(q, s) in RecordAt(l, k).live;
      var i :| 0 <= i < |RecordAt(l, k).live| && RecordAt(l, k).live[i] == Live(q, s);
      assert RecordAt(l, k).live[i].request.key == q.key;
    }
  }

  /** One place's abandon marks all that is live there and leaves the place below to be ended. */
  lemma AbandonOneKeeps(l: Ledger, k: Place)
    requires SoundBut(l, k) && RecordAt(l, Below(l, k)).phase.NothingAsked?
    ensures SoundBut(AbandonStrong(l, k), Below(l, k)) && SameButRecords(l, AbandonStrong(l, k))
    ensures forall j :: RecordAt(AbandonStrong(l, k), j) == RecordAt(l, j)
  {
    var r := AbandonStrong(l, k);
    AbandonAccounts(l, k);
    assert LiveKnown(l, k);
    forall j
      ensures CompanionsKnown(r, j) && OpenKnown(r, j)
      ensures j != Below(l, k) ==> HasAttempt(r, [], j)
      ensures j == Below(l, k) ==> Unsettled(r, j)
    {
      assert CompanionsKnown(l, j) && OpenKnown(l, j);
      assert RecordAt(r, j) == RecordAt(l, j);
      AbandonedOut(l, r, k, j);
      AbandonedPlace(l, r, k, j);
    }
  }

  lemma AbandonedPlace(l: Ledger, r: Ledger, k: Place, j: Place)
    requires SoundBut(l, k) && RecordAt(l, Below(l, k)).phase.NothingAsked?
    requires OpenKnown(l, j) && LiveKnown(l, k)
    requires r.records == l.records && r.admitted == l.admitted && r.targets == l.targets
    requires r.abandoned == l.abandoned + KeysOf(RecordAt(l, k).live)
    requires Out(r, [], j) <= Out(l, [], j)
    requires j != k ==> Out(r, [], j) == Out(l, [], j)
    requires forall q | q in Out(r, [], k) :: q.key in KeysOf(RecordAt(l, k).live) && !InList(r.held, q)
    requires forall q: Request | q.At() != k :: InList(r.held, q) <==> InList(l.held, q)
    ensures j != Below(l, k) ==> HasAttempt(r, [], j)
    ensures j == Below(l, k) ==> Unsettled(r, j)
  {
    assert RecordAt(r, j) == RecordAt(l, j);
    if j == k {
      var lead :| OfOneAttempt(l, k, lead);
      assert OfOneAttempt(r, k, lead) && Attempt(r, [], k, lead);
    } else {
      assert HasAttempt(l, [], j);
      var lead :| Attempt(l, [], j, lead);
      assert OfOneAttempt(r, j, lead);
      if j != Below(l, k) {
        AbandonedElsewhere(l, r, k, j, lead);
      }
    }
  }

  lemma AbandonedElsewhere(l: Ledger, r: Ledger, k: Place, j: Place, lead: nat)
    requires Accounted(l, []) && Attempt(l, [], j, lead) && j != k && j != Below(l, k)
    requires OpenKnown(l, j) && LiveKnown(l, k)
    requires r.records == l.records && r.admitted == l.admitted
    requires r.abandoned == l.abandoned + KeysOf(RecordAt(l, k).live)
    requires Out(r, [], j) == Out(l, [], j)
    requires forall q: Request | q.At() != k :: InList(r.held, q) <==> InList(l.held, q)
    ensures Attempt(r, [], j, lead)
  {
    assert RecordAt(r, j) == RecordAt(l, j);
    forall q | q in Out(l, [], j)
      ensures q.key in r.abandoned <==> q.key in l.abandoned
    {
      var key :| key in l.admitted && l.admitted[key] == q;
      assert l.admitted[q.key] == q;
    }
    if MayYetAsk(l, RecordAt(l, j)) {
      var key :| key in RecordAt(l, j).openWeak && key !in l.abandoned;
      assert key !in KeysOf(RecordAt(l, k).live);
    }
  }

  /** The pools a window climbs from one target on, to the one that escalates nowhere. */
  ghost predicate IsChain(targets: map<nat, nat>, chain: seq<nat>) {
    && chain != [] && chain[|chain| - 1] !in targets
    && forall i | 0 <= i < |chain| - 1 :: chain[i] in targets && targets[chain[i]] == chain[i + 1]
  }

  function CancelChain(l: Ledger, window: nat, chain: seq<nat>): Ledger
    decreases |chain|
  {
    if chain == [] then l else CancelChain(CancelStrong(l, Place(window, Some(chain[0]))), window, chain[1..])
  }

  function AbandonChain(l: Ledger, window: nat, chain: seq<nat>): Ledger
    decreases |chain|
  {
    if chain == [] then l else AbandonChain(AbandonStrong(l, Place(window, Some(chain[0]))), window, chain[1..])
  }

  /** A kept result ends the window's requests from one pool on, none of which it asked for. */
  ghost predicate MayEndChain(l: Ledger, window: nat, chain: seq<nat>) {
    && IsChain(l.targets, chain)
    && forall i | 0 <= i < |chain| :: RecordAt(l, Place(window, Some(chain[i]))).phase.NothingAsked?
  }

  lemma ChainTail(l: Ledger, window: nat, chain: seq<nat>)
    requires IsChain(l.targets, chain)
    ensures Below(l, Place(window, Some(chain[0]))) == Place(window, if |chain| > 1 then Some(chain[1]) else None)
    ensures |chain| > 1 ==> IsChain(l.targets, chain[1..])
  {
    if |chain| > 1 {
      assert forall i | 0 <= i < |chain[1..]| :: chain[1..][i] == chain[i + 1];
      assert chain[0] in l.targets && l.targets[chain[0]] == chain[1];
    }
  }

  lemma {:induction false} CancelChainKeeps(l: Ledger, window: nat, chain: seq<nat>)
    requires MayEndChain(l, window, chain) && SoundBut(l, Place(window, Some(chain[0])))
    requires RecordAt(l, Place(window, None)).phase.NothingAsked?
    ensures Sound(CancelChain(l, window, chain), [])
    decreases |chain|
  {
    var k := Place(window, Some(chain[0]));
    var next := CancelStrong(l, k);
    ChainTail(l, window, chain);
    if |chain| > 1 {
      assert chain[1..][0] == chain[1];
    }
    CancelOneKeeps(l, k);
    if |chain| > 1 {
      assert forall i | 0 <= i < |chain[1..]| :: chain[1..][i] == chain[i + 1];
      CancelChainKeeps(next, window, chain[1..]);
    } else {
      assert chain[1..] == [];
      SoundAtLast(next, window);
    }
  }

  lemma {:induction false} AbandonChainKeeps(l: Ledger, window: nat, chain: seq<nat>)
    requires MayEndChain(l, window, chain) && SoundBut(l, Place(window, Some(chain[0])))
    requires RecordAt(l, Place(window, None)).phase.NothingAsked?
    ensures Sound(AbandonChain(l, window, chain), [])
    decreases |chain|
  {
    var k := Place(window, Some(chain[0]));
    var next := AbandonStrong(l, k);
    ChainTail(l, window, chain);
    AbandonOneKeeps(l, k);
    if |chain| > 1 {
      assert forall i | 0 <= i < |chain[1..]| :: chain[1..][i] == chain[i + 1];
      AbandonChainKeeps(next, window, chain[1..]);
    } else {
      assert chain[1..] == [];
      SoundAtLast(next, window);
    }
  }

  /** A cancel or an abandon of what a window did not ask for, down its chain of pools, keeps
      every other place's promises. */
  lemma ChainKeeps(l: Ledger, window: nat, chain: seq<nat>)
    requires Sound(l, []) && MayEndChain(l, window, chain)
    ensures Sound(CancelChain(l, window, chain), []) && Sound(AbandonChain(l, window, chain), [])
  {
    SoundIsSoundBut(l, Place(window, Some(chain[0])));
    assert OpenKnown(l, Place(window, None));
    CancelChainKeeps(l, window, chain);
    AbandonChainKeeps(l, window, chain);
  }

  // ------------------------------------------------------------- batches

  lemma ServedPlace(l: Ledger, r: Ledger, q: Request, service: Service, k: Place)
    requires HasAttempt(l, [], k) && CompanionsKnown(l, k) && OpenKnown(l, k)
    requires r == Put(l, q.At(), RecordAt(l, q.At()).(live := [Live(q, service)]))
    requires forall p :: IsLive(r, p) <==> IsLive(l, p)
    ensures HasAttempt(r, [], k) && CompanionsKnown(r, k) && OpenKnown(r, k)
  {
    var lead :| Attempt(l, [], k, lead);
    assert Out(r, [], k) == Out(l, [], k);
    assert RecordAt(r, k) == RecordAt(l, k).(live := RecordAt(r, k).live);
    assert Attempt(r, [], k, lead);
  }

  lemma ServeOneKeeps(l: Ledger, q: Request, service: Service)
    requires Sound(l, []) && IsLive(l, q) && IsAlone(l, q)
    ensures var r := Put(l, q.At(), RecordAt(l, q.At()).(live := [Live(q, service)]));
      && Sound(r, [])
      && forall p :: (IsLive(r, p) <==> IsLive(l, p)) && (IsAlone(r, p) <==> IsAlone(l, p))
  {
    var r := Put(l, q.At(), RecordAt(l, q.At()).(live := [Live(q, service)]));
    ServeOneAlone(l, q, service);
    forall k
      ensures HasAttempt(r, [], k) && CompanionsKnown(r, k) && OpenKnown(r, k)
    {
      assert HasAttempt(l, [], k) && CompanionsKnown(l, k) && OpenKnown(l, k);
      ServedPlace(l, r, q, service, k);
    }
  }

  lemma {:induction false} ServeKeeps(l: Ledger, requests: seq<Request>, service: Request -> Service)
    requires Sound(l, []) && AllLive(l, requests) && forall i | 0 <= i < |requests| :: IsAlone(l, requests[i])
    ensures Sound(ServeBy(l, requests, service), [])
    decreases |requests|
  {
    if requests != [] {
      var q := requests[0];
      ServeOneKeeps(l, q, service(q));
      ServeKeeps(Put(l, q.At(), RecordAt(l, q.At()).(live := [Live(q, service(q))])), requests[1..], service);
    }
  }
}
