/** What any order of landings, joins, cancels, folds and releases keeps. */
module MemoryInvariant {
  import opened Options
  import opened Lists
  import opened DecoderMemories

  // ---------------------------------------------------------- what is kept

  /** Each input is here once, read by someone, and masked at most once. */
  ghost predicate InputsOk(memory: seq<Resident>) {
    && (forall i, j | 0 <= i < j < |memory| :: memory[i].input.key != memory[j].input.key)
    && (forall i | 0 <= i < |memory| :: ResidentOk(memory[i]))
  }

  ghost predicate ResidentOk(r: Resident) {
    r.readers != [] && Distinct(r.readers) && |r.input.masks| == if r.rewritten then 1 else 0
  }

  ghost predicate IsReaderOf(s: Staging, id: nat, r: Resident) {
    id in s.jobs && s.jobs[id].isReader && s.jobs[id].key == r.input.key
  }

  /** A job reads just when it is among its input's readers, and what it read is the input,
      masked once it has folded. */
  ghost predicate ReadersOk(s: Staging) {
    && (forall i, id | 0 <= i < |s.memory| && id in s.memory[i].readers :: IsReaderOf(s, id, s.memory[i]))
    && (forall id | id in s.jobs && s.jobs[id].isReader :: ReaderOk(s, id))
  }

  ghost predicate ReaderOk(s: Staging, id: nat)
    requires id in s.jobs
  {
    var job := s.jobs[id];
    var p := PlaceOf(s.memory, job.key);
    && p < |s.memory| && id in s.memory[p].readers && job.input.Some?
    && (job.folded ==> s.memory[p].rewritten && job.input == Some(s.memory[p].input))
  }

  ghost predicate WithinCapacity(s: Staging) {
    s.capacity.None? || Occupied(s.memory) <= s.capacity.value
  }

  /** The store's hold of a job ends once: at its landing, cancel or release. */
  ghost predicate HoldsOk(s: Staging) {
    forall id | id in s.jobs ::
      && s.jobs[id].released == (if s.jobs[id].holds then 0 else 1)
      && (s.jobs[id].isReader || s.jobs[id].cancelled ==> !s.jobs[id].holds)
  }

  ghost predicate InEntry(s: Staging, id: nat) {
    id in s.jobs && s.jobs[id].key in s.awaited &&
    (s.awaited[s.jobs[id].key].sender == id || id in s.awaited[s.jobs[id].key].joined)
  }

  ghost predicate Waits(s: Staging, id: nat, key: nat) {
    id in s.jobs && s.jobs[id].key == key && s.jobs[id].waits
  }

  ghost predicate EntryOk(s: Staging, key: nat)
    requires key in s.awaited
  {
    var a := s.awaited[key];
    && a.sender in s.inFlight && Waits(s, a.sender, key)
    && (forall id | id in a.joined :: Waits(s, id, key))
    && Distinct(a.joined) && a.sender !in a.joined
    && !HasInput(s.memory, key)
  }

  /** Every job that waits is in the entry of a transfer in flight, but for those about to be
      served; every transfer in flight has its entry. */
  ghost predicate LandingsOk(s: Staging, pending: seq<nat>) {
    && (forall key | key in s.awaited :: EntryOk(s, key))
    && (forall id | id in s.inFlight ::
      id in s.jobs && s.jobs[id].key in s.awaited && s.awaited[s.jobs[id].key].sender == id)
    && (forall id | id in s.jobs && s.jobs[id].waits :: InEntry(s, id) || id in pending)
    && (forall id | id in s.jobs && s.jobs[id].waits ::
      !s.jobs[id].isReader && !s.jobs[id].cancelled && !s.jobs[id].folded)
    && Distinct(pending)
    && (forall id | id in pending :: id in s.jobs && s.jobs[id].waits && !InEntry(s, id))
  }

  ghost predicate Kept(s: Staging) {
    InputsOk(s.memory) && ReadersOk(s) && WithinCapacity(s) && HoldsOk(s)
  }

  ghost predicate Sound(s: Staging) {
    Kept(s) && LandingsOk(s, [])
  }

  // ------------------------------------------------------------- the memory

  lemma {:induction false} OccupiedSame(a: seq<Resident>, b: seq<Resident>)
    requires |a| == |b| && forall i | 0 <= i < |a| :: a[i].input.bits == b[i].input.bits
    ensures Occupied(a) == Occupied(b)
  {
    if a != [] {
      OccupiedSame(a[1..], b[1..]);
    }
  }

  lemma {:induction false} OccupiedAppend(a: seq<Resident>, b: seq<Resident>)
    ensures Occupied(a + b) == Occupied(a) + Occupied(b)
  {
    if a == [] {
      assert a + b == b;
    } else {
      OccupiedAppend(a[1..], b);
      assert (a + b)[1..] == a[1..] + b;
    }
  }

  lemma {:induction false} OccupiedWithout(memory: seq<Resident>, p: nat)
    requires p < |memory|
    ensures Occupied(memory) == Occupied(memory[..p] + memory[p + 1..]) + memory[p].input.bits
  {
    if p == 0 {
      assert memory[..0] + memory[1..] == memory[1..];
    } else {
      OccupiedWithout(memory[1..], p - 1);
      WithoutTail(memory, p);
    }
  }

  lemma WithoutTail(memory: seq<Resident>, p: nat)
    requires 0 < p < |memory|
    ensures var rest := memory[..p] + memory[p + 1..];
      rest[0] == memory[0] && rest[1..] == memory[1..][..p - 1] + memory[1..][p..]
  {
  }

  /** With each input here once, its place is the only one of its key. */
  lemma PlaceIsOnly(memory: seq<Resident>, i: nat)
    requires InputsOk(memory) && i < |memory|
    ensures PlaceOf(memory, memory[i].input.key) == i
  {
    var p := PlaceOf(memory, memory[i].input.key);
    assert p <= i;
  }

  // --------------------------------------------------------- one more reader

  lemma ReadKeeps(s: Staging, id: nat)
    requires Kept(s) && id in s.jobs && HasInput(s.memory, s.jobs[id].key) && !s.jobs[id].isReader && !s.jobs[id].folded
    ensures Kept(ReadResident(s, id))
  {
    var key := s.jobs[id].key;
    var p := PlaceOf(s.memory, key);
    var r := ReadResident(s, id);
    assert id !in s.memory[p].readers by {
      assert id in s.memory[p].readers ==> IsReaderOf(s, id, s.memory[p]);
    }
    DistinctGrows(s.memory[p].readers, id);
    OccupiedSame(s.memory, r.memory);
    forall x | x in r.jobs && r.jobs[x].isReader
      ensures ReaderOk(r, x)
    {
      assert x != id ==> ReaderOk(s, x);
    }
    forall i, x | 0 <= i < |r.memory| && x in r.memory[i].readers
      ensures IsReaderOf(r, x, r.memory[i])
    {
      assert x in s.memory[i].readers || (i == p && x == id);
      assert x in s.memory[i].readers ==> IsReaderOf(s, x, s.memory[i]);
    }
  }

  lemma ReadLands(s: Staging, id: nat, rest: seq<nat>)
    requires LandingsOk(s, [id] + rest) && id in s.jobs && HasInput(s.memory, s.jobs[id].key)
    ensures LandingsOk(ReadResident(s, id), rest)
  {
    var r := ReadResident(s, id);
    var all := [id] + rest;
    assert all[0] == id && forall i | 0 <= i < |rest| :: all[i + 1] == rest[i];
    assert id in all;
    forall x | x in rest
      ensures x in all && x != id
    {
      var i :| 0 <= i < |rest| && rest[i] == x;
      assert all[i + 1] == x;
    }
    assert Distinct(rest) by {
      forall i, j | 0 <= i < j < |rest|
        ensures rest[i] != rest[j]
      {
        assert all[i + 1] != all[j + 1];
      }
    }
    assert forall x :: InEntry(r, x) <==> InEntry(s, x);
    forall key | key in r.awaited
      ensures EntryOk(r, key)
    {
      assert EntryOk(s, key);
    }
  }

  /** Each of the jobs has its input here. */
  ghost predicate AllHere(s: Staging, ids: seq<nat>) {
    forall i | 0 <= i < |ids| :: ids[i] in s.jobs && HasInput(s.memory, s.jobs[ids[i]].key)
  }

  lemma HereStays(s: Staging, ids: seq<nat>)
    requires AllHere(s, ids) && ids != []
    ensures AllHere(ReadResident(s, ids[0]), ids[1..])
  {
    var next := ReadResident(s, ids[0]);
    forall i | 0 <= i < |ids[1..]|
      ensures ids[1..][i] in next.jobs && HasInput(next.memory, next.jobs[ids[1..][i]].key)
    {
      assert ids[1..][i] == ids[i + 1];
      assert HasInput(s.memory, s.jobs[ids[i + 1]].key);
    }
  }

  /** The first of the jobs reads; the rest are left to be served. */
  lemma ReadFirst(s: Staging, ids: seq<nat>)
    requires Kept(s) && LandingsOk(s, ids) && AllHere(s, ids) && ids != []
    ensures ids[0] in s.jobs && HasInput(s.memory, s.jobs[ids[0]].key)
    ensures Kept(ReadResident(s, ids[0]))
    ensures LandingsOk(ReadResident(s, ids[0]), ids[1..]) && AllHere(ReadResident(s, ids[0]), ids[1..])
  {
    assert ids == [ids[0]] + ids[1..] && ids[0] in ids;
    ReadKeeps(s, ids[0]);
    ReadLands(s, ids[0], ids[1..]);
    HereStays(s, ids);
  }

  lemma {:induction false} ReadAllKeeps(s: Staging, ids: seq<nat>)
    requires Kept(s) && LandingsOk(s, ids) && AllHere(s, ids)
    ensures Sound(ReadAll(s, ids))
    decreases |ids|
  {
    if ids != [] {
      ReadFirst(s, ids);
      ReadAllKeeps(ReadResident(s, ids[0]), ids[1..]);
    }
  }

  /** A step that changes no job's waiting, no entry and no flight, and brings no awaited
      input, keeps the landings. */
  ghost predicate SameWait(s: Staging, r: Staging, id: nat) {
    && (id in r.jobs <==> id in s.jobs)
    && (id in s.jobs ==>
          && r.jobs[id].key == s.jobs[id].key && r.jobs[id].waits == s.jobs[id].waits
          && (s.jobs[id].waits ==> r.jobs[id] == s.jobs[id]))
  }

  lemma SameLandings(s: Staging, r: Staging)
    requires LandingsOk(s, []) && r.awaited == s.awaited && r.inFlight == s.inFlight
    requires forall id :: SameWait(s, r, id)
    requires forall key | key in s.awaited :: !HasInput(r.memory, key)
    ensures LandingsOk(r, [])
  {
    forall key | key in r.awaited
      ensures EntryOk(r, key)
    {
      assert EntryOk(s, key);
      assert SameWait(s, r, s.awaited[key].sender);
      forall id | id in s.awaited[key].joined
        ensures Waits(r, id, key)
      {
        assert Waits(s, id, key) && SameWait(s, r, id);
      }
    }
    forall id | id in r.inFlight
      ensures id in r.jobs && r.jobs[id].key in r.awaited && r.awaited[r.jobs[id].key].sender == id
    {
      assert SameWait(s, r, id);
    }
    forall id | id in r.jobs && r.jobs[id].waits
      ensures InEntry(r, id) && r.jobs[id] == s.jobs[id] && id in s.jobs
    {
      assert SameWait(s, r, id) && InEntry(s, id);
    }
  }

  // --------------------------------------------------------------- a landing

  ghost predicate Fits(s: Staging, bits: nat) {
    s.capacity.Some? ==> Occupied(s.memory) + bits <= s.capacity.value
  }

  lemma LandedKeeps(s: Staging, id: nat)
    requires Kept(s) && id in s.jobs && !HasInput(s.memory, s.jobs[id].key) && !s.jobs[id].isReader
    requires !s.jobs[id].folded
    requires Fits(s, s.jobs[id].bits)
    ensures Kept(Landed(s, id, Input(s.jobs[id].key, s.jobs[id].bits, [])))
  {
    var input := Input(s.jobs[id].key, s.jobs[id].bits, []);
    var resident := Resident(input, [id], false);
    var r := Landed(s, id, input);
    NewPlace(s.memory, resident);
    OccupiedAppend(s.memory, [resident]);
    assert Occupied([resident]) == input.bits by {
      assert [resident][1..] == [];
    }
    forall x | x in r.jobs && r.jobs[x].isReader
      ensures ReaderOk(r, x)
    {
      assert x != id ==> ReaderOk(s, x);
    }
    forall i, x | 0 <= i < |r.memory| && x in r.memory[i].readers
      ensures IsReaderOf(r, x, r.memory[i])
    {
      assert i < |s.memory| ==> r.memory[i] == s.memory[i] && IsReaderOf(s, x, s.memory[i]);
    }
  }

  /** The sender landed; those that joined its transfer are left to be served. */
  lemma LandedLands(s: Staging, id: nat)
    requires LandingsOk(s, []) && id in s.inFlight
    ensures var key := s.jobs[id].key;
      LandingsOk(Landed(s, id, Input(key, s.jobs[id].bits, [])), s.awaited[key].joined)
  {
    var key := s.jobs[id].key;
    var joined := s.awaited[key].joined;
    var input := Input(key, s.jobs[id].bits, []);
    var r := Landed(s, id, input);
    NewPlace(s.memory, Resident(input, [id], false));
    assert EntryOk(s, key);
    forall k | k in r.awaited
      ensures EntryOk(r, k)
    {
      assert EntryOk(s, k);
    }
    forall x | x in joined
      ensures x in r.jobs && r.jobs[x].waits && !InEntry(r, x)
    {
      assert Waits(s, x, key);
    }
    forall x | x in r.jobs && r.jobs[x].waits
      ensures InEntry(r, x) || x in joined
    {
      assert InEntry(s, x);
    }
  }

  lemma DeliverIsReady(s: Staging, id: nat)
    requires LandingsOk(s, []) && id in s.jobs
    ensures id in s.inFlight ==> s.jobs[id].key in s.awaited && !HasInput(s.memory, s.jobs[id].key)
    ensures id in s.inFlight ==> forall i | 0 <= i < |s.awaited[s.jobs[id].key].joined| ::
      s.awaited[s.jobs[id].key].joined[i] in s.jobs && s.jobs[s.awaited[s.jobs[id].key].joined[i]].key == s.jobs[id].key
  {
    if id in s.inFlight {
      var key := s.jobs[id].key;
      assert EntryOk(s, key);
      forall i | 0 <= i < |s.awaited[key].joined|
        ensures s.awaited[key].joined[i] in s.jobs && s.jobs[s.awaited[key].joined[i]].key == key
      {
        assert Waits(s, s.awaited[key].joined[i], key);
      }
    }
  }

  lemma DeliverKeeps(s: Staging, id: nat)
    requires Sound(s) && id in s.jobs
    ensures id in s.inFlight ==> s.jobs[id].key in s.awaited && !HasInput(s.memory, s.jobs[id].key)
    ensures id in s.inFlight ==> forall i | 0 <= i < |s.awaited[s.jobs[id].key].joined| ::
      s.awaited[s.jobs[id].key].joined[i] in s.jobs && s.jobs[s.awaited[s.jobs[id].key].joined[i]].key == s.jobs[id].key
    ensures match Deliver(s, id)
      case Done(r) => Sound(r)
      case CapacityExceeded => id in s.inFlight && !Fits(s, s.jobs[id].bits)
  {
    DeliverIsReady(s, id);
    if id in s.inFlight && Fits(s, s.jobs[id].bits) {
      var key := s.jobs[id].key;
      var input := Input(key, s.jobs[id].bits, []);
      var landed := Landed(s, id, input);
      LandedKeeps(s, id);
      LandedLands(s, id);
      NewPlace(s.memory, Resident(input, [id], false));
      assert HasInput(landed.memory, key);
      assert forall i | 0 <= i < |s.awaited[key].joined| :: landed.jobs[s.awaited[key].joined[i]].key == key;
      assert AllHere(landed, s.awaited[key].joined);
      ReadAllKeeps(landed, s.awaited[key].joined);
    }
  }

  // ---------------------------------------------------------------- release

  lemma {:induction false} PlaceWithout(memory: seq<Resident>, p: nat, key: nat)
    requires p < |memory| && memory[p].input.key != key
    ensures PlaceOf(memory[..p] + memory[p + 1..], key) ==
      if PlaceOf(memory, key) < p then PlaceOf(memory, key) else PlaceOf(memory, key) - 1
  {
    if p == 0 {
      assert memory[..0] + memory[1..] == memory[1..];
    } else {
      PlaceWithout(memory[1..], p - 1, key);
      WithoutTail(memory, p);
      assert memory[1..][p - 1 + 1..] == memory[1..][p..];
    }
  }

  /** What is left of the memory once a job's read ended: every other input, and this one while
      others read it. */
  lemma TakeKeeps(s: Staging, id: nat)
    requires Kept(s) && id in s.jobs && s.jobs[id].isReader
    ensures var memory := Take(s.memory, s.jobs[id].key, id);
      InputsOk(memory) && Occupied(memory) <= Occupied(s.memory)
    ensures var memory := Take(s.memory, s.jobs[id].key, id);
      forall i, x | 0 <= i < |memory| && x in memory[i].readers :: x != id && IsReaderOf(s, x, memory[i])
    ensures var after := s.(memory := Take(s.memory, s.jobs[id].key, id));
      forall x | x in s.jobs && x != id && s.jobs[x].isReader :: ReaderOk(after, x)
  {
    var p := PlaceOf(s.memory, s.jobs[id].key);
    assert ReaderOk(s, id);
    if Without(s.memory[p].readers, id) == [] {
      LastTake(s, id);
    } else {
      SharedTake(s, id);
    }
  }

  lemma EntryRemoved(memory: seq<Resident>, p: nat)
    requires InputsOk(memory) && p < |memory|
    ensures InputsOk(memory[..p] + memory[p + 1..]) && Occupied(memory[..p] + memory[p + 1..]) <= Occupied(memory)
  {
    OccupiedWithout(memory, p);
    var rest := memory[..p] + memory[p + 1..];
    assert forall i | 0 <= i < |rest| :: rest[i] == memory[if i < p then i else i + 1];
  }

  lemma LastTakeReader(s: Staging, id: nat, x: nat)
    requires Kept(s) && id in s.jobs && s.jobs[id].isReader && HasInput(s.memory, s.jobs[id].key)
    requires Without(s.memory[PlaceOf(s.memory, s.jobs[id].key)].readers, id) == []
    requires x in s.jobs && x != id && s.jobs[x].isReader
    ensures ReaderOk(s.(memory := Take(s.memory, s.jobs[id].key, id)), x)
  {
    var p := PlaceOf(s.memory, s.jobs[id].key);
    assert ReaderOk(s, x);
    assert forall y | y in s.memory[p].readers :: y == id;
    assert s.jobs[x].key != s.jobs[id].key;
    PlaceWithout(s.memory, p, s.jobs[x].key);
  }

  lemma LastTake(s: Staging, id: nat)
    requires Kept(s) && id in s.jobs && s.jobs[id].isReader
    requires HasInput(s.memory, s.jobs[id].key)
    requires Without(s.memory[PlaceOf(s.memory, s.jobs[id].key)].readers, id) == []
    ensures var memory := Take(s.memory, s.jobs[id].key, id);
      InputsOk(memory) && Occupied(memory) <= Occupied(s.memory)
    ensures var memory := Take(s.memory, s.jobs[id].key, id);
      forall i, x | 0 <= i < |memory| && x in memory[i].readers :: x != id && IsReaderOf(s, x, memory[i])
    ensures var after := s.(memory := Take(s.memory, s.jobs[id].key, id));
      forall x | x in s.jobs && x != id && s.jobs[x].isReader :: ReaderOk(after, x)
  {
    var p := PlaceOf(s.memory, s.jobs[id].key);
    var memory := Take(s.memory, s.jobs[id].key, id);
    EntryRemoved(s.memory, p);
    assert forall i | 0 <= i < |memory| :: memory[i] == s.memory[if i < p then i else i + 1];
    forall x | x in s.jobs && x != id && s.jobs[x].isReader
      ensures ReaderOk(s.(memory := memory), x)
    {
      LastTakeReader(s, id, x);
    }
    forall i, x | 0 <= i < |memory| && x in memory[i].readers
      ensures x != id && IsReaderOf(s, x, memory[i])
    {
      var j := if i < p then i else i + 1;
      assert IsReaderOf(s, x, s.memory[j]);
      PlaceIsOnly(s.memory, j);
    }
  }

  lemma SharedTake(s: Staging, id: nat)
    requires Kept(s) && id in s.jobs && s.jobs[id].isReader
    requires HasInput(s.memory, s.jobs[id].key)
    requires Without(s.memory[PlaceOf(s.memory, s.jobs[id].key)].readers, id) != []
    ensures var memory := Take(s.memory, s.jobs[id].key, id);
      InputsOk(memory) && Occupied(memory) == Occupied(s.memory)
    ensures var memory := Take(s.memory, s.jobs[id].key, id);
      forall i, x | 0 <= i < |memory| && x in memory[i].readers :: x != id && IsReaderOf(s, x, memory[i])
    ensures var after := s.(memory := Take(s.memory, s.jobs[id].key, id));
      forall x | x in s.jobs && x != id && s.jobs[x].isReader :: ReaderOk(after, x)
  {
    var key := s.jobs[id].key;
    var p := PlaceOf(s.memory, key);
    var after := s.(memory := Take(s.memory, key, id));
    assert ReaderOk(s, id) && ResidentOk(s.memory[p]);
    SamePlaces(s.memory, p, after.memory);
    OccupiedSame(s.memory, after.memory);
    forall x | x in s.jobs && x != id && s.jobs[x].isReader
      ensures ReaderOk(after, x)
    {
      assert ReaderOk(s, x);
    }
    forall i, x | 0 <= i < |after.memory| && x in after.memory[i].readers
      ensures x != id && IsReaderOf(s, x, after.memory[i])
    {
      assert x in s.memory[i].readers && IsReaderOf(s, x, s.memory[i]);
      PlaceIsOnly(s.memory, i);
    }
  }

  lemma ReleaseKeeps(s: Staging, id: nat)
    requires Kept(s) && id in s.jobs
    ensures Kept(Release(s, id))
  {
    var r := Release(s, id);
    if s.jobs[id].isReader {
      TakeKeeps(s, id);
    }
    forall x | x in r.jobs && r.jobs[x].isReader
      ensures ReaderOk(r, x)
    {
      assert x != id && s.jobs[x].isReader && ReaderOk(s, x);
      assert s.jobs[id].isReader ==> ReaderOk(s.(memory := r.memory), x);
    }
    forall i, x | 0 <= i < |r.memory| && x in r.memory[i].readers
      ensures IsReaderOf(r, x, r.memory[i])
    {
      assert IsReaderOf(s, x, r.memory[i]);
    }
  }

  lemma {:induction false} PlaceFound(memory: seq<Resident>, key: nat)
    ensures HasInput(memory, key) <==> exists i :: 0 <= i < |memory| && memory[i].input.key == key
  {
    var p := PlaceOf(memory, key);
    assert p < |memory| ==> memory[p].input.key == key;
  }

  /** A release brings no input into the memory. */
  lemma ReleaseBringsNone(s: Staging, id: nat, key: nat)
    requires id in s.jobs && !HasInput(s.memory, key)
    ensures !HasInput(Release(s, id).memory, key)
  {
    PlaceFound(s.memory, key);
    var r := Release(s, id);
    PlaceFound(r.memory, key);
    var p := PlaceOf(s.memory, s.jobs[id].key);
    forall i | 0 <= i < |r.memory|
      ensures r.memory[i].input.key != key
    {
      assert r.memory[i].input.key ==
        s.memory[if r.memory != s.memory && |r.memory| < |s.memory| && i >= p then i + 1 else i].input.key;
    }
  }

  // ----------------------------------------------------------------- cancel

  lemma CancelKept(s: Staging, id: nat)
    requires Kept(s) && id in s.jobs
    ensures Kept(Cancel(s, id))
  {
    var job := s.jobs[id];
    var bare := s.(inFlight := s.inFlight - {id}, awaited := if job.onUnit then s.awaited - {job.key} else s.awaited);
    SameKept(s, bare);
    ReleaseKeeps(bare, id);
    var r := Release(bare, id);
    var c := Cancel(s, id);
    forall x | x in c.jobs && c.jobs[x].isReader
      ensures ReaderOk(c, x)
    {
      assert ReaderOk(r, x);
    }
    forall i, x | 0 <= i < |c.memory| && x in c.memory[i].readers
      ensures IsReaderOf(c, x, c.memory[i])
    {
      assert IsReaderOf(r, x, r.memory[i]);
    }
  }

  lemma SameKept(s: Staging, r: Staging)
    requires Kept(s) && r.memory == s.memory && r.jobs == s.jobs && r.capacity == s.capacity
    ensures Kept(r)
  {
    forall x | x in r.jobs && r.jobs[x].isReader
      ensures ReaderOk(r, x)
    {
      assert ReaderOk(s, x);
    }
    forall i, x | 0 <= i < |r.memory| && x in r.memory[i].readers
      ensures IsReaderOf(r, x, r.memory[i])
    {
      assert IsReaderOf(s, x, s.memory[i]);
    }
  }

  /** Whether a cancel of this job alone leaves no landing without its transfer and no job
      waiting for a landing that was forgotten. */
  ghost predicate CancelsAlone(s: Staging, id: nat)
    requires id in s.jobs
  {
    var job := s.jobs[id];
    if job.onUnit then job.key in s.awaited ==> s.awaited[job.key] == Awaited(id, [])
    else !job.waits
  }

  lemma CancelLands(s: Staging, id: nat)
    requires LandingsOk(s, []) && id in s.jobs && CancelsAlone(s, id)
    ensures LandingsOk(Cancel(s, id), [])
  {
    var c := Cancel(s, id);
    var job := s.jobs[id];
    assert job.waits ==> InEntry(s, id);
    forall key | key in c.awaited
      ensures EntryOk(c, key)
    {
      assert EntryOk(s, key);
      assert Waits(s, s.awaited[key].sender, key);
      ReleaseBringsNone(s.(inFlight := s.inFlight - {id}, awaited := c.awaited), id, key);
    }
    forall x | x in c.jobs && c.jobs[x].waits
      ensures InEntry(c, x)
    {
      assert InEntry(s, x);
    }
  }

  lemma CancelBreaks(s: Staging, id: nat)
    requires LandingsOk(s, []) && id in s.jobs && !CancelsAlone(s, id)
    ensures !LandingsOk(Cancel(s, id), [])
  {
    var c := Cancel(s, id);
    var job := s.jobs[id];
    if job.onUnit {
      var a := s.awaited[job.key];
      assert EntryOk(s, job.key);
      var other := if a.sender != id then a.sender else a.joined[0];
      assert Waits(s, other, job.key) && other != id;
      assert c.jobs[other] == s.jobs[other] && !InEntry(c, other);
    } else {
      assert InEntry(s, id) && c.awaited == s.awaited;
      assert !Waits(c, id, job.key);
      assert !EntryOk(c, job.key);
    }
  }

  /** A cancel of one job keeps the landings in order just when it cancels alone: on its unit,
      no other job sends or joins its transfer; on none, it is not waiting. */
  lemma CancelKeepsExactly(s: Staging, id: nat)
    requires Sound(s) && id in s.jobs
    ensures Sound(Cancel(s, id)) <==> CancelsAlone(s, id)
  {
    CancelKept(s, id);
    if CancelsAlone(s, id) {
      CancelLands(s, id);
    } else {
      CancelBreaks(s, id);
    }
  }

  // ---------------------------------------------- the jobs of one attempt

  function Members(a: Awaited): seq<nat> {
    [a.sender] + a.joined
  }

  /** Cancelled together, the sender first: the entry goes, and each member in turn. */
  lemma FirstCancelled(s: Staging, key: nat)
    requires LandingsOk(s, []) && key in s.awaited && s.awaited[key].sender in s.jobs
    requires s.jobs[s.awaited[key].sender].onUnit
    ensures LandingsOk(Cancel(s, s.awaited[key].sender), s.awaited[key].joined)
    ensures forall id | id in s.awaited[key].joined ::
      id in s.jobs && Cancel(s, s.awaited[key].sender).jobs[id] == s.jobs[id] && s.jobs[id].key == key
  {
    var id := s.awaited[key].sender;
    var joined := s.awaited[key].joined;
    var c := Cancel(s, id);
    assert EntryOk(s, key) && Waits(s, id, key);
    forall k | k in c.awaited
      ensures EntryOk(c, k)
    {
      assert EntryOk(s, k);
      ReleaseBringsNone(s.(inFlight := s.inFlight - {id}, awaited := c.awaited), id, k);
    }
    forall x | x in joined
      ensures Waits(s, x, key) && c.jobs[x] == s.jobs[x] && !InEntry(c, x)
    {
    }
    forall x | x in c.jobs && c.jobs[x].waits
      ensures InEntry(c, x) || x in joined
    {
      assert InEntry(s, x);
    }
  }

  lemma NextCancelled(s: Staging, id: nat, rest: seq<nat>)
    requires LandingsOk(s, [id] + rest) && id in s.jobs && s.jobs[id].key !in s.awaited
    ensures LandingsOk(Cancel(s, id), rest)
    ensures forall x | x in s.jobs && x != id :: Cancel(s, id).jobs[x] == s.jobs[x]
    ensures Cancel(s, id).awaited == s.awaited
  {
    var c := Cancel(s, id);
    var all := [id] + rest;
    assert all[0] == id && forall i | 0 <= i < |rest| :: all[i + 1] == rest[i];
    forall k | k in c.awaited
      ensures EntryOk(c, k)
    {
      assert EntryOk(s, k);
      ReleaseBringsNone(s.(inFlight := s.inFlight - {id}, awaited := c.awaited), id, k);
    }
    forall x | x in rest
      ensures x in all && x != id
    {
      var i :| 0 <= i < |rest| && rest[i] == x;
      assert all[i + 1] == x;
    }
    assert Distinct(rest) by {
      forall i, j | 0 <= i < j < |rest|
        ensures rest[i] != rest[j]
      {
        assert all[i + 1] != all[j + 1];
      }
    }
    assert forall x :: InEntry(c, x) <==> InEntry(s, x);
  }

  lemma {:induction false} RestCancelled(s: Staging, key: nat, ids: seq<nat>)
    requires Kept(s) && LandingsOk(s, ids) && key !in s.awaited
    requires forall i | 0 <= i < |ids| :: ids[i] in s.jobs && s.jobs[ids[i]].key == key
    ensures Sound(CancelAll(s, ids))
    decreases |ids|
  {
    if ids != [] {
      assert ids == [ids[0]] + ids[1..];
      CancelKept(s, ids[0]);
      NextCancelled(s, ids[0], ids[1..]);
      assert forall i | 0 <= i < |ids[1..]| :: ids[1..][i] == ids[i + 1] && ids[0] != ids[i + 1];
      RestCancelled(Cancel(s, ids[0]), key, ids[1..]);
    }
  }

  /** All the jobs of one transfer cancelled in one pass keep everything. */
  lemma AttemptCancelled(s: Staging, key: nat)
    requires Sound(s) && key in s.awaited
    requires forall id | id in Members(s.awaited[key]) :: id in s.jobs && s.jobs[id].onUnit
    ensures forall i | 0 <= i < |Members(s.awaited[key])| :: Members(s.awaited[key])[i] in s.jobs
    ensures Sound(CancelAll(s, Members(s.awaited[key])))
  {
    var a := s.awaited[key];
    var members := Members(a);
    assert members[0] == a.sender && members[1..] == a.joined;
    assert forall i | 0 <= i < |members| :: members[i] in members;
    assert EntryOk(s, key) && Waits(s, a.sender, key);
    CancelKept(s, a.sender);
    FirstCancelled(s, key);
    RestCancelled(Cancel(s, a.sender), key, a.joined);
  }
}
