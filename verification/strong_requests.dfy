/** The ledger as the source keeps it: one object whose records, output slots and counts are
    updated in place by loops. Each method leaves the state the ledger's function gives, or
    reports the error the source raises.
 */
module StrongRequestObjects {
  import opened Options
  import opened StrongLedgers
  import opened StrongAccounts

  ghost predicate SameAt(a: seq<Completion>, b: seq<Completion>, k: Place, unit: nat) {
    AtUnit(a, k, unit) == AtUnit(b, k, unit)
  }

  /** The first result of the place on the unit leaves the slots. */
  lemma {:induction false} WithoutFirst(held: seq<Completion>, rest: seq<Completion>, k: Place, unit: nat, p: nat)
    requires p < |held| && rest == held[..p] + held[p + 1..] && held[p].request.At() == k && held[p].unit == unit
    requires forall q | 0 <= q < p :: !(held[q].request.At() == k && held[q].unit == unit)
    ensures AtUnit(held, k, unit) == [held[p]] + AtUnit(rest, k, unit)
    ensures forall v: nat | v != unit :: SameAt(held, rest, k, v)
    ensures Elsewhere(held, k) == Elsewhere(rest, k)
  {
    if p == 0 {
      assert rest == held[1..];
    } else {
      assert rest[1..] == held[1..][..p - 1] + held[1..][p - 1 + 1..];
      assert rest[0] == held[0];
      WithoutFirst(held[1..], rest[1..], k, unit, p - 1);
      forall v: nat | v != unit
        ensures SameAt(held, rest, k, v)
      {
        assert SameAt(held[1..], rest[1..], k, v);
      }
    }
  }

  lemma {:induction false} NoneAtUnit(held: seq<Completion>, k: Place, unit: nat)
    requires forall q | 0 <= q < |held| :: !(held[q].request.At() == k && held[q].unit == unit)
    ensures AtUnit(held, k, unit) == []
  {
    if held != [] {
      NoneAtUnit(held[1..], k, unit);
    }
  }

  /** Taking the first of the first unit that holds one takes the first output. */
  lemma TakesFirst(held: seq<Completion>, k: Place, unit: nat, unitCount: nat, p: nat)
    requires unit < unitCount
    requires p < |held| && held[p].request.At() == k && held[p].unit == unit
    requires forall q | 0 <= q < p :: !(held[q].request.At() == k && held[q].unit == unit)
    requires forall v | 0 <= v < unit :: AtUnit(held, k, v) == []
    ensures Outputs(held, k, 0, unitCount) == [held[p]] + Outputs(held[..p] + held[p + 1..], k, 0, unitCount)
  {
    WithoutFirst(held, held[..p] + held[p + 1..], k, unit, p);
    FirstOfUnit(held, held[..p] + held[p + 1..], k, 0, unit, unitCount, held[p]);
  }

  lemma {:induction false} FirstOfUnit(
    a: seq<Completion>, b: seq<Completion>, k: Place, from: nat, unit: nat, unitCount: nat, c: Completion)
    requires from <= unit < unitCount && AtUnit(a, k, unit) == [c] + AtUnit(b, k, unit)
    requires forall v: nat | v != unit :: SameAt(a, b, k, v)
    requires forall v | from <= v < unit :: AtUnit(a, k, v) == []
    ensures Outputs(a, k, from, unitCount) == [c] + Outputs(b, k, from, unitCount)
    decreases unitCount - from
  {
    if from == unit {
      assert forall v: nat | v >= unit + 1 :: SameAt(a, b, k, v);
      LaterSame(a, b, k, unit + 1, unitCount);
      Associates([c], AtUnit(b, k, unit), Outputs(b, k, unit + 1, unitCount));
    } else {
      FirstOfUnit(a, b, k, from + 1, unit, unitCount, c);
      assert SameAt(a, b, k, from);
      NothingFirst(a, k, from, unitCount);
      NothingFirst(b, k, from, unitCount);
    }
  }

  lemma Associates(a: seq<Completion>, b: seq<Completion>, c: seq<Completion>)
    ensures (a + b) + c == a + (b + c)
  {
  }

  lemma NothingFirst(held: seq<Completion>, k: Place, from: nat, unitCount: nat)
    requires from < unitCount && AtUnit(held, k, from) == []
    ensures Outputs(held, k, from, unitCount) == Outputs(held, k, from + 1, unitCount)
  {
  }

  lemma {:induction false} LaterSame(a: seq<Completion>, b: seq<Completion>, k: Place, from: nat, unitCount: nat)
    requires forall v: nat | v >= from :: SameAt(a, b, k, v)
    ensures Outputs(a, k, from, unitCount) == Outputs(b, k, from, unitCount)
    decreases unitCount - from
  {
    if from < unitCount {
      assert SameAt(a, b, k, from);
      LaterSame(a, b, k, from + 1, unitCount);
    }
  }

  lemma {:induction false} NoOutputs(held: seq<Completion>, k: Place, from: nat, unitCount: nat)
    requires forall v | from <= v < unitCount :: AtUnit(held, k, v) == []
    ensures Outputs(held, k, from, unitCount) == []
    decreases unitCount - from
  {
    if from < unitCount {
      NoOutputs(held, k, from + 1, unitCount);
    }
  }

  lemma {:induction false} NothingHere(held: seq<Completion>, k: Place)
    requires forall q | 0 <= q < |held| :: held[q].request.At() != k
    ensures Elsewhere(held, k) == held
  {
    if held != [] {
      NothingHere(held[1..], k);
    }
  }

  /** The record once the decode no longer serves its requests: gone if nothing else keeps it. */
  ghost predicate IsFinished(was: Record, records: map<Place, Record>, k: Place, service: Service) {
    var drops := NotServedBy(was.live, service) != was.live && ServedRecord(was, service).IsEmpty();
    (k in records <==> !drops) && (k in records ==> records[k] == ServedRecord(was, service))
  }

  class StrongRequests {
    const unitCount: nat
    const targets: map<nat, nat>
    var records: map<Place, Record>
    var abandoned: set<nat>
    var held: seq<Completion>
    var admitted: map<nat, Request>
    var ended: seq<Ended>
    var cancelledCount: nat
    var abandonedCount: nat

    constructor (unitCount: nat, targets: map<nat, nat>)
      ensures State() == Ledger(unitCount, targets, map[], {}, [], map[], [], 0, 0)
    {
      this.unitCount, this.targets := unitCount, targets;
      records, abandoned, held, admitted, ended, cancelledCount, abandonedCount := map[], {}, [], map[], [], 0, 0;
    }

    function State(): Ledger
      reads this
    {
      Ledger(unitCount, targets, records, abandoned, held, admitted, ended, cancelledCount, abandonedCount)
    }

    ghost predicate Answers(was: Attempted, error: Option<Error>)
      reads this
    {
      match was
      case Done(l) => error.None? && State() == l
      case Raised(e) => error == Some(e)
    }

    method Keep(k: Place, r: Record)
      modifies this`records
      ensures State() == Put(old(State()), k, r)
    {
      records := if r.IsEmpty() then records - {k} else records[k := r];
    }

    function Get(k: Place): Record
      reads this
    {
      if k in records then records[k] else NoRequests
    }

    // ------------------------------------------------------- completion

    /** One finished result: dropped, delivered, held at its unit, or an error. */
    method CompleteStrong(c: Completion) returns (error: Option<Error>)
      modifies this
      ensures Answers(Complete(old(State()), c), error)
    {
      var q := c.request;
      var r := Get(q.At());
      if q.key in abandoned {
        abandoned := abandoned - {q.key};
        abandonedCount := abandonedCount + 1;
        ended := ended + [Ended(q.key, CompletedDiscarded)];
        CloseAttemptOf(q);
        return None;
      }
      if r.phase.WaitingResult? && r.selected == Some(q.lead) {
        Keep(q.At(), OneArrived(r, q.lead));
        ended := ended + [Ended(q.key, Delivered)];
        return None;
      }
      var newer := HasNewerRequest(q);
      if newer {
        return Some(NewerRequest);
      }
      if r.phase.NothingAsked? && r.openWeak == {} {
        return Some(NoDestination);
      }
      held := held + [c];
      return None;
    }

    method HasNewerRequest(q: Request) returns (newer: bool)
      ensures newer == HasNewer(State(), q)
    {
      var live := Get(q.At()).live;
      var i := 0;
      while i < |live|
        invariant i <= |live| && forall j | 0 <= j < i :: live[j].request.lead == q.lead
      {
        if live[i].request.lead != q.lead {
          assert RecordAt(State(), q.At()).live[i].request.lead != q.lead;
          return true;
        }
        i := i + 1;
      }
      return false;
    }

    method CloseAttemptOf(q: Request)
      modifies this`records
      ensures State() == CloseAttempt(old(State()), q)
    {
      if q.pool in targets {
        var k := Place(q.window, Some(targets[q.pool]));
        var r := Get(k);
        Keep(k, r.(openWeak := r.openWeak - {q.key}));
      }
    }

    /** Each result in turn, up to the first error. */
    method CompleteEach(cs: seq<Completion>) returns (error: Option<Error>)
      modifies this
      ensures Answers(CompleteAll(old(State()), cs), error)
    {
      var i := 0;
      while i < |cs|
        invariant i <= |cs|
        invariant CompleteAll(State(), cs[i..]) == CompleteAll(old(State()), cs)
      {
        assert cs[i..][0] == cs[i] && cs[i..][1..] == cs[i + 1..];
        error := CompleteStrong(cs[i]);
        if error.Some? {
          return;
        }
        i := i + 1;
      }
      return None;
    }

    // ---------------------------------------------------- the output slots

    /** The oldest result waiting for the place in the first unit that holds one. */
    method TakeOutput(k: Place) returns (taken: Option<Completion>)
      modifies this`held
      ensures match taken
        case None =>
          held == old(held) && Outputs(held, k, 0, unitCount) == []
        case Some(c) =>
          && |held| < |old(held)|
          && Outputs(old(held), k, 0, unitCount) == [c] + Outputs(held, k, 0, unitCount)
          && Elsewhere(old(held), k) == Elsewhere(held, k)
          && (forall x | x in held :: x in old(held))
    {
      var unit := 0;
      while unit < unitCount
        invariant unit <= unitCount && held == old(held)
        invariant forall v | 0 <= v < unit :: AtUnit(held, k, v) == []
      {
        var p := 0;
        while p < |held|
          invariant p <= |held| && held == old(held)
          invariant forall q | 0 <= q < p :: !(held[q].request.At() == k && held[q].unit == unit)
        {
          if held[p].request.At() == k && held[p].unit == unit {
            TakesFirst(held, k, unit, unitCount, p);
            WithoutFirst(held, held[..p] + held[p + 1..], k, unit, p);
            taken := Some(held[p]);
            held := held[..p] + held[p + 1..];
            return;
          }
          p := p + 1;
        }
        NoneAtUnit(held, k, unit);
        unit := unit + 1;
      }
      NoOutputs(held, k, 0, unitCount);
      return None;
    }

    /** Every result the units hold for the place, in the order they give them. */
    method TakeOutputs(k: Place) returns (waiting: seq<Completion>)
      requires forall c | c in held :: c.unit < unitCount
      modifies this`held
      ensures waiting == OutputsAt(old(State()), k)
      ensures held == Elsewhere(old(held), k)
    {
      waiting := [];
      var next := TakeOutput(k);
      while next.Some?
        invariant match next
          case Some(c) => waiting + [c] + Outputs(held, k, 0, unitCount) == Outputs(old(held), k, 0, unitCount)
          case None => waiting == Outputs(old(held), k, 0, unitCount) && Outputs(held, k, 0, unitCount) == []
        invariant Elsewhere(held, k) == Elsewhere(old(held), k)
        invariant forall c | c in held :: c.unit < unitCount
        decreases next.Some?, |held|
      {
        waiting := waiting + [next.value];
        next := TakeOutput(k);
      }
      NoneLeft(held, k, unitCount);
    }

    method AcceptTheSelection(k: Place, lead: nat) returns (error: Option<Error>)
      requires forall c | c in held :: c.unit < unitCount
      modifies this
      ensures Answers(AcceptSelection(old(State()), k, lead), error)
    {
      var r := Get(k);
      if !(r.phase.WaitingSelection? && r.selected == Some(lead)) {
        return None;
      }
      Keep(k, r.(phase := WaitingResult));
      var waiting := TakeOutputs(k);
      error := CompleteEach(waiting);
    }

    method DiscardTheOutputs(k: Place) returns (count: nat)
      requires forall c | c in held :: c.unit < unitCount
      modifies this`held, this`ended
      ensures State() == DiscardOutputs(old(State()), k) && count == |OutputsAt(old(State()), k)|
    {
      var waiting := TakeOutputs(k);
      ghost var was := ended;
      var i := 0;
      while i < |waiting|
        invariant i <= |waiting| && ended == was + EndedAs(waiting, CompletedDiscarded)[..i]
        invariant held == Elsewhere(old(held), k)
      {
        ended := ended + [Ended(waiting[i].request.key, CompletedDiscarded)];
        i := i + 1;
      }
      count := |waiting|;
    }

    method CancelTheStrong(k: Place)
      requires forall c | c in held :: c.unit < unitCount
      modifies this
      ensures State() == CancelStrong(old(State()), k)
    {
      var discarded := DiscardTheOutputs(k);
      ghost var l := State();
      var taken := Get(k).live;
      Keep(k, Get(k).(live := [], companions := map[]));
      CloseTheAttempts(taken);
      assert State() == TakeLive(l, k);
      if taken == [] {
        cancelledCount := cancelledCount + discarded;
        return;
      }
      EndTheTaken(taken);
    }

    method CloseTheAttempts(taken: seq<Live>)
      modifies this`records
      ensures State() == CloseAttempts(old(State()), taken)
    {
      var i := 0;
      while i < |taken|
        invariant i <= |taken| && CloseAttempts(State(), taken[i..]) == CloseAttempts(old(State()), taken)
      {
        assert taken[i..][0] == taken[i] && taken[i..][1..] == taken[i + 1..];
        CloseAttemptOf(taken[i].request);
        i := i + 1;
      }
    }

    /** Each of the requests taken ends cancelled, and is counted. */
    method EndTheTaken(taken: seq<Live>)
      modifies this`ended, this`cancelledCount
      ensures ended == old(ended) + CancelledLive(taken) && cancelledCount == old(cancelledCount) + |taken|
    {
      var i := 0;
      while i < |taken|
        invariant i <= |taken| && ended == old(ended) + CancelledLive(taken)[..i]
        invariant cancelledCount == old(cancelledCount) + i
      {
        ended := ended + [Ended(taken[i].request.key, Cancelled)];
        cancelledCount := cancelledCount + 1;
        i := i + 1;
      }
    }

    method AbandonTheStrong(k: Place)
      requires forall c | c in held :: c.unit < unitCount
      modifies this
      ensures State() == AbandonStrong(old(State()), k)
    {
      var discarded := DiscardTheOutputs(k);
      abandonedCount := abandonedCount + discarded;
      var live := Get(k).live;
      ghost var was := State();
      var i := 0;
      while i < |live|
        invariant i <= |live| && State() == was.(abandoned := was.abandoned + KeysOf(live[..i]))
      {
        assert live[..i + 1] == live[..i] + [live[i]];
        KeysGrow(live[..i], live[i]);
        abandoned := abandoned + {live[i].request.key};
        i := i + 1;
      }
      assert live[..|live|] == live;
    }

    // ------------------------------------------------------ a decode's end

    /** The requests one decode serves, record by record. */
    method MembersOf(service: Service) returns (members: seq<Request>)
      requires Accounted(State(), [])
      ensures ServedExactly(State(), service, members)
    {
      members := [];
      var left := records.Keys;
      while left != {}
        invariant left <= records.Keys
        invariant forall q | q in members :: Serves(State(), service, q) && q.At() !in left
        invariant forall q | Serves(State(), service, q) && q.At() !in left :: q in members
        invariant forall i, j | 0 <= i < j < |members| :: members[i] != members[j]
        decreases left
      {
        var k :| k in left;
        left := left - {k};
        var here := MembersAt(k, service);
        forall i, j | 0 <= i < j < |members + here|
          ensures (members + here)[i] != (members + here)[j]
        {
          if i < |members| <= j {
            assert members[i] in members && here[j - |members|] in here;
          }
        }
        members := members + here;
      }
    }

    method MembersAt(k: Place, service: Service) returns (members: seq<Request>)
      requires Accounted(State(), []) && k in records
      ensures forall q :: q in members <==> q.At() == k && Serves(State(), service, q)
      ensures forall i, j | 0 <= i < j < |members| :: members[i] != members[j]
    {
      var live := records[k].live;
      assert live == RecordAt(State(), k).live && LiveKnown(State(), k);
      members := [];
      var i := 0;
      while i < |live|
        invariant i <= |live|
        invariant forall q :: q in members <==> exists j :: 0 <= j < i && live[j] == Live(q, service)
        invariant forall a, b | 0 <= a < b < |members| :: members[a] != members[b]
      {
        if live[i].service == service {
          OnceLive(State(), k, i);
          members := members + [live[i].request];
        }
        i := i + 1;
      }
    }

    /** The decode's requests are no longer live: record by record. */
    method FinishTheService(service: Service)
      modifies this`records
      ensures State() == FinishService(old(State()), service)
    {
      var left := records.Keys;
      ghost var was := records;
      while left != {}
        invariant left <= was.Keys && records.Keys <= was.Keys
        invariant forall k | k in left :: k in records && records[k] == was[k]
        invariant forall k | k in was && k !in left :: IsFinished(was[k], records, k, service)
        decreases left
      {
        var k :| k in left;
        left := left - {k};
        var rest := NotServedBy(records[k].live, service);
        if rest != records[k].live {
          var r := records[k].(live := rest);
          records := if r.IsEmpty() then records - {k} else records[k := r];
        }
      }
      assert forall k | k in was :: IsFinished(was[k], records, k, service);
      assert records == FinishService(old(State()), service).records;
    }

    /** A strong decode ended: its requests are looked up before they stop being live, and
        each one's result goes where it belongs. */
    method StrongDecodeDone(service: Service, unit: nat, isMerged: bool, hasOwnAccuracy: bool)
      returns (error: Option<Error>, ghost requests: seq<Request>)
      requires Accounted(State(), [])
      modifies this
      ensures ServedExactly(old(State()), service, requests)
      ensures Answers(DecodeDone(old(State()), service, requests, unit, isMerged, hasOwnAccuracy), error)
    {
      var members := MembersOf(service);
      requests := members;
      if members == [] {
        return Some(NothingServed), requests;
      }
      if (|members| > 1 || isMerged) && hasOwnAccuracy {
        return Some(MergedAccuracy), requests;
      }
      FinishTheService(service);
      error := CompleteEach(CompletionsOf(members, unit));
    }

    /** Each request of the list now served by the batch. */
    method RegisterTheBatch(requests: seq<Request>, id: nat)
      modifies this`records
      ensures State() == RegisterBatch(old(State()), requests, id)
    {
      ghost var serve := (_: Request) => Batch(id);
      var i := 0;
      while i < |requests|
        invariant i <= |requests| && ServeBy(State(), requests[i..], serve) == ServeBy(old(State()), requests, serve)
      {
        assert requests[i..][0] == requests[i] && requests[i..][1..] == requests[i + 1..];
        Keep(requests[i].At(), Get(requests[i].At()).(live := [Live(requests[i], Batch(id))]));
        i := i + 1;
      }
    }
  }

  /** No two live entries of a record are one request. */
  lemma OnceLive(l: Ledger, k: Place, i: nat)
    requires Accounted(l, []) && i < |RecordAt(l, k).live|
    ensures forall j | 0 <= j < i :: RecordAt(l, k).live[j].request != RecordAt(l, k).live[i].request
  {
    var live := RecordAt(l, k).live;
    assert LiveKnown(l, k);
    var key := live[i].request.key;
    assert Places(l, [], key) == 1;
    forall j | 0 <= j < i
      ensures live[j].request != live[i].request
    {
      assert live == live[..i] + live[i..];
      CountLiveAppend(live[..i], live[i..], key);
      CountLiveMember(live[..i], key);
      CountLiveMember(live[i..], key);
      assert live[..i][j] == live[j] && live[i..][0] == live[i];
    }
  }

  lemma KeysGrow(live: seq<Live>, x: Live)
    ensures KeysOf(live + [x]) == KeysOf(live) + {x.request.key}
  {
    var all := live + [x];
    assert all[|live|] == x;
    forall key | key in KeysOf(live)
      ensures key in KeysOf(all)
    {
      var i :| 0 <= i < |live| && live[i].request.key == key;
      assert all[i].request.key == key;
    }
  }

  /** With no output left of the place, what is held is held elsewhere. */
  lemma NoneLeft(held: seq<Completion>, k: Place, unitCount: nat)
    requires Outputs(held, k, 0, unitCount) == [] && forall c | c in held :: c.unit < unitCount
    ensures Elsewhere(held, k) == held
  {
    OutputsMembers(held, k, 0, unitCount);
    forall q | 0 <= q < |held|
      ensures held[q].request.At() != k
    {
      assert held[q] in held;
    }
    NothingHere(held, k);
  }
}
