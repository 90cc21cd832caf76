/** A region's fault model split by detector basis: each part keeps its own rows, identical
    restricted columns are merged, and the parts' answers are joined. Everything is over
    GF(2): a selection of columns flips what an odd number of them flip.
 */
module BasisSplit {

  datatype Basis = X | Z

  /** The rows, observables and detectors one fault flips; owned if the window commits it. */
  datatype Column = Column(
    rows: set<nat>, observables: set<nat>, owned: bool, flips: set<nat>, prior: real, faultId: nat)

  /** Row r of the check matrix is the detector detectorIds[r]. */
  datatype Model = Model(
    detectorIds: seq<nat>, basisOf: nat -> Basis, observableBases: seq<Basis>, columns: seq<Column>)

  /** What a part tells its columns apart by, rows numbered within the part. */
  datatype Key = Key(rows: set<nat>, observables: set<nat>, owned: bool, flips: set<nat>)

  datatype Part = Part(keys: seq<Key>, priors: seq<real>, faultIds: seq<nat>)

  // ------------------------------------------------------- what a selection flips

  /** Whether an odd number of the selected columns pass the test. */
  function Odd(columns: seq<Column>, selected: seq<bool>, test: Column -> bool): bool
    requires |selected| == |columns|
  {
    if columns == [] then false
    else
      var last := |columns| - 1;
      Odd(columns[..last], selected[..last], test) != (selected[last] && test(columns[last]))
  }

  function Syndrome(m: Model, selected: seq<bool>, row: nat): bool
    requires |selected| == |m.columns|
  {
    Odd(m.columns, selected, (c: Column) => row in c.rows)
  }

  /** Only what the window owns is committed. */
  function FlipsObservable(m: Model, selected: seq<bool>, observable: nat): bool
    requires |selected| == |m.columns|
  {
    Odd(m.columns, selected, (c: Column) => c.owned && observable in c.observables)
  }

  function FlipsDetector(m: Model, selected: seq<bool>, detector: nat): bool
    requires |selected| == |m.columns|
  {
    Odd(m.columns, selected, (c: Column) => c.owned && detector in c.flips)
  }

  // ---------------------------------------------------------------- the split

  /** The rows of the basis among the first count, in order. */
  function RowsUpTo(m: Model, basis: Basis, count: nat): (rows: seq<nat>)
    requires count <= |m.detectorIds|
    ensures forall i | 0 <= i < |rows| :: rows[i] < count
  {
    if count == 0 then []
    else
      RowsUpTo(m, basis, count - 1) + if m.basisOf(m.detectorIds[count - 1]) == basis then [count - 1] else []
  }

  function RowsOfBasis(m: Model, basis: Basis): seq<nat> {
    RowsUpTo(m, basis, |m.detectorIds|)
  }

  function PartRows(m: Model, basis: Basis, rows: set<nat>): set<nat> {
    set i: nat | i < |RowsOfBasis(m, basis)| && RowsOfBasis(m, basis)[i] in rows
  }

  function KeyOf(m: Model, basis: Basis, c: Column): Key {
    Key(
      PartRows(m, basis, c.rows),
      (set o | o in c.observables && o < |m.observableBases| && m.observableBases[o] == basis),
      c.owned,
      (set d | d in c.flips && m.basisOf(d) == basis))
  }

  /** Independent faults on one key: the chance that an odd number of them occur. */
  function MergeProbability(current: real, incoming: real): real {
    current * (1.0 - incoming) + incoming * (1.0 - current)
  }

  /** The first place of the key; the length when it is new. */
  function PlaceOfKey(keys: seq<Key>, key: Key): (p: nat)
    ensures p <= |keys| && (p < |keys| ==> keys[p] == key)
    ensures forall q | 0 <= q < p :: keys[q] != key
  {
    if keys == [] then 0
    else if keys[0] == key then 0
    else 1 + PlaceOfKey(keys[1..], key)
  }

  function Add(part: Part, key: Key, prior: real, faultId: nat): (r: Part)
    requires |part.priors| == |part.keys| == |part.faultIds|
    ensures |r.priors| == |r.keys| == |r.faultIds|
  {
    var p := PlaceOfKey(part.keys, key);
    if p < |part.keys| then part.(priors := part.priors[p := MergeProbability(part.priors[p], prior)])
    else Part(part.keys + [key], part.priors + [MergeProbability(0.0, prior)], part.faultIds + [faultId])
  }

  /** The part's columns from the first count of the model's, those it does not see dropped. */
  function Split(m: Model, basis: Basis, count: nat): (part: Part)
    requires count <= |m.columns|
    ensures |part.priors| == |part.keys| == |part.faultIds|
  {
    if count == 0 then Part([], [], [])
    else
      var part := Split(m, basis, count - 1);
      var c := m.columns[count - 1];
      var key := KeyOf(m, basis, c);
      if key.rows == {} then part else Add(part, key, c.prior, c.faultId)
  }

  /** A merged column flips its detectors only when the window commits it. */
  function PartColumns(part: Part): (columns: seq<Column>)
    requires |part.priors| == |part.keys| == |part.faultIds|
    ensures |columns| == |part.keys|
  {
    seq(|part.keys|, i requires 0 <= i < |part.keys| =>
      var key := part.keys[i];
      var flips := if key.owned then key.flips else {};
      Column(key.rows, key.observables, key.owned, flips, part.priors[i], part.faultIds[i]))
  }

  /** The part as a model of its own. */
  function PartModel(m: Model, basis: Basis): Model {
    var rows := RowsOfBasis(m, basis);
    Model(
      seq(|rows|, i requires 0 <= i < |rows| => m.detectorIds[rows[i]]),
      m.basisOf, m.observableBases, PartColumns(Split(m, basis, |m.columns|)))
  }

  /** The part's selection that a selection of the model's columns comes to: a merged column is
      selected when an odd number of its columns are. */
  function Restrict(m: Model, basis: Basis, selected: seq<bool>, count: nat): (chosen: seq<bool>)
    requires |selected| == |m.columns| && count <= |m.columns|
    ensures |chosen| == |Split(m, basis, count).keys|
  {
    if count == 0 then []
    else
      var chosen := Restrict(m, basis, selected, count - 1);
      var key := KeyOf(m, basis, m.columns[count - 1]);
      var keys := Split(m, basis, count - 1).keys;
      if key.rows == {} then chosen
      else
        var p := PlaceOfKey(keys, key);
        if p < |keys| then chosen[p := chosen[p] != selected[count - 1]] else chosen + [selected[count - 1]]
  }

  // ---------------------------------------------------------- meaning kept

  function OddKeys(keys: seq<Key>, chosen: seq<bool>, test: Key -> bool): bool
    requires |chosen| == |keys|
  {
    if keys == [] then false
    else
      var last := |keys| - 1;
      OddKeys(keys[..last], chosen[..last], test) != (chosen[last] && test(keys[last]))
  }

  /** Toggling one key's choice toggles the parity just when the key passes. */
  lemma {:induction false} OddToggles(keys: seq<Key>, chosen: seq<bool>, p: nat, bit: bool, test: Key -> bool)
    requires |chosen| == |keys| && p < |keys|
    ensures OddKeys(keys, chosen[p := chosen[p] != bit], test) ==
      (OddKeys(keys, chosen, test) != (bit && test(keys[p])))
  {
    var last := |keys| - 1;
    var toggled := chosen[p := chosen[p] != bit];
    if p == last {
      assert toggled[..last] == chosen[..last];
    } else {
      OddToggles(keys[..last], chosen[..last], p, bit, test);
      assert toggled[..last] == chosen[..last][p := chosen[..last][p] != bit];
    }
  }

  /** One column more, merged or new, toggles the parity just when it is selected and passes. */
  lemma OddAdds(keys: seq<Key>, chosen: seq<bool>, key: Key, bit: bool, test: Key -> bool)
    requires |chosen| == |keys|
    ensures var p := PlaceOfKey(keys, key);
      (OddKeys(keys, chosen, test) != (bit && test(key))) ==
      if p < |keys| then OddKeys(keys, chosen[p := chosen[p] != bit], test)
      else OddKeys(keys + [key], chosen + [bit], test)
  {
    var p := PlaceOfKey(keys, key);
    if p < |keys| {
      OddToggles(keys, chosen, p, bit, test);
    } else {
      assert (keys + [key])[..|keys|] == keys && (chosen + [bit])[..|keys|] == chosen;
    }
  }

  lemma OddLast(m: Model, selected: seq<bool>, count: nat, test: Column -> bool)
    requires |selected| == |m.columns| && 0 < count <= |m.columns|
    ensures Odd(m.columns[..count], selected[..count], test) ==
      (Odd(m.columns[..count - 1], selected[..count - 1], test) != (selected[count - 1] && test(m.columns[count - 1])))
  {
    assert m.columns[..count][..count - 1] == m.columns[..count - 1];
    assert selected[..count][..count - 1] == selected[..count - 1];
  }

  /** What the merged columns flip is what the columns the part sees flip. */
  lemma {:induction false} MergingKeepsParity(
    m: Model, basis: Basis, selected: seq<bool>, count: nat, test: Key -> bool)
    requires |selected| == |m.columns| && count <= |m.columns|
    ensures OddKeys(Split(m, basis, count).keys, Restrict(m, basis, selected, count), test) ==
      Odd(m.columns[..count], selected[..count],
        (c: Column) => KeyOf(m, basis, c).rows != {} && test(KeyOf(m, basis, c)))
  {
    if count > 0 {
      MergingKeepsParity(m, basis, selected, count - 1, test);
      OddLast(m, selected, count, (c: Column) => KeyOf(m, basis, c).rows != {} && test(KeyOf(m, basis, c)));
      var key := KeyOf(m, basis, m.columns[count - 1]);
      OddAdds(Split(m, basis, count - 1).keys, Restrict(m, basis, selected, count - 1), key, selected[count - 1], test);
    }
  }

  lemma {:induction false} OddOfColumns(
    part: Part, chosen: seq<bool>, test: Column -> bool, keyTest: Key -> bool, count: nat)
    requires |part.priors| == |part.keys| == |part.faultIds| && |chosen| == |part.keys| && count <= |part.keys|
    requires forall i | 0 <= i < |part.keys| :: test(PartColumns(part)[i]) == keyTest(part.keys[i])
    ensures Odd(PartColumns(part)[..count], chosen[..count], test) ==
      OddKeys(part.keys[..count], chosen[..count], keyTest)
  {
    if count > 0 {
      OddOfColumns(part, chosen, test, keyTest, count - 1);
      assert PartColumns(part)[..count][..count - 1] == PartColumns(part)[..count - 1];
      assert chosen[..count][..count - 1] == chosen[..count - 1];
      assert part.keys[..count][..count - 1] == part.keys[..count - 1];
    }
  }

  /** Columns that flip the same under two tests flip the same together. */
  lemma {:induction false} OddSame(columns: seq<Column>, selected: seq<bool>, a: Column -> bool, b: Column -> bool)
    requires |selected| == |columns| && forall c | c in columns :: a(c) == b(c)
    ensures Odd(columns, selected, a) == Odd(columns, selected, b)
  {
    if columns != [] {
      OddSame(columns[..|columns| - 1], selected[..|columns| - 1], a, b);
    }
  }

  /** Any test of a part's columns that its keys decide, over the model's own columns. */
  lemma PartParity(
    m: Model, basis: Basis, selected: seq<bool>, test: Column -> bool, keyTest: Key -> bool, modelTest: Column -> bool)
    requires |selected| == |m.columns|
    requires forall i | 0 <= i < |PartModel(m, basis).columns| ::
      test(PartModel(m, basis).columns[i]) == keyTest(Split(m, basis, |m.columns|).keys[i])
    requires forall c :: modelTest(c) == (KeyOf(m, basis, c).rows != {} && keyTest(KeyOf(m, basis, c)))
    ensures Odd(PartModel(m, basis).columns, Restrict(m, basis, selected, |m.columns|), test) ==
      Odd(m.columns, selected, modelTest)
  {
    var part := Split(m, basis, |m.columns|);
    var chosen := Restrict(m, basis, selected, |m.columns|);
    var count := |part.keys|;
    OddOfColumns(part, chosen, test, keyTest, count);
    assert PartColumns(part)[..count] == PartColumns(part) && chosen[..count] == chosen;
    assert part.keys[..count] == part.keys;
    MergingKeepsParity(m, basis, selected, |m.columns|, keyTest);
    var seen := (c: Column) => KeyOf(m, basis, c).rows != {} && keyTest(KeyOf(m, basis, c));
    assert m.columns[..|m.columns|] == m.columns && selected[..|m.columns|] == selected;
    OddSame(m.columns, selected, seen, modelTest);
  }

  /** The part's syndrome is the region's, row for row. */
  lemma PartSyndrome(m: Model, basis: Basis, selected: seq<bool>, i: nat)
    requires |selected| == |m.columns| && i < |RowsOfBasis(m, basis)|
    ensures Syndrome(PartModel(m, basis), Restrict(m, basis, selected, |m.columns|), i) ==
      Syndrome(m, selected, RowsOfBasis(m, basis)[i])
  {
    var row := RowsOfBasis(m, basis)[i];
    var seen := (c: Column) => KeyOf(m, basis, c).rows != {} && i in KeyOf(m, basis, c).rows;
    PartParity(m, basis, selected, (c: Column) => i in c.rows, (key: Key) => i in key.rows, seen);
    forall c: Column
      ensures seen(c) == (row in c.rows)
    {
      assert i in PartRows(m, basis, c.rows) <==> row in c.rows;
    }
    OddSame(m.columns, selected, seen, (c: Column) => row in c.rows);
  }

  /** Every row of the region is a row of exactly one part, once. */
  lemma {:induction false} RowsInterleave(m: Model, basis: Basis, count: nat)
    requires count <= |m.detectorIds|
    ensures forall r: nat | r < count ::
      (r in RowsUpTo(m, basis, count) <==> m.basisOf(m.detectorIds[r]) == basis)
    ensures forall i, j | 0 <= i < j < |RowsUpTo(m, basis, count)| ::
      RowsUpTo(m, basis, count)[i] < RowsUpTo(m, basis, count)[j]
  {
    if count > 0 {
      RowsInterleave(m, basis, count - 1);
    }
  }

  // ---------------------------------------------------------------- priors

  /** The product of 1 - 2p over the columns of one key. */
  function Product(m: Model, basis: Basis, key: Key, count: nat): real
    requires count <= |m.columns|
  {
    if count == 0 then 1.0
    else
      Product(m, basis, key, count - 1) *
      (if KeyOf(m, basis, m.columns[count - 1]) == key then 1.0 - 2.0 * m.columns[count - 1].prior else 1.0)
  }

  lemma MergeMultiplies(p: real, q: real)
    ensures 1.0 - 2.0 * MergeProbability(p, q) == (1.0 - 2.0 * p) * (1.0 - 2.0 * q)
  {
  }

  /** A key not met yet has nothing to its product. */
  lemma {:induction false} NewKeyProduct(m: Model, basis: Basis, key: Key, count: nat)
    requires count <= |m.columns| && key.rows != {} && key !in Split(m, basis, count).keys
    ensures Product(m, basis, key, count) == 1.0
  {
    if count > 0 {
      var part := Split(m, basis, count - 1);
      var other := KeyOf(m, basis, m.columns[count - 1]);
      var p := PlaceOfKey(part.keys, other);
      if other.rows != {} && p == |part.keys| {
        assert Split(m, basis, count).keys == part.keys + [other];
        assert (part.keys + [other])[|part.keys|] == other;
      }
      assert forall k | k in part.keys :: k in Split(m, basis, count).keys;
      assert other.rows != {} ==> other in Split(m, basis, count).keys;
      NewKeyProduct(m, basis, key, count - 1);
    }
  }

  ghost predicate IsMergedPrior(m: Model, basis: Basis, count: nat, key: Key, prior: real)
    requires count <= |m.columns|
  {
    key.rows != {} && 1.0 - 2.0 * prior == Product(m, basis, key, count)
  }

  ghost predicate AreMerged(m: Model, basis: Basis, count: nat, part: Part)
    requires count <= |m.columns| && |part.priors| == |part.keys|
  {
    && (forall i, j | 0 <= i < j < |part.keys| :: part.keys[i] != part.keys[j])
    && (forall i | 0 <= i < |part.keys| :: IsMergedPrior(m, basis, count, part.keys[i], part.priors[i]))
  }

  /** One column more: merged into the prior of its own key, of no concern to another. */
  lemma PriorMerges(m: Model, basis: Basis, count: nat, key: Key, prior: real)
    requires 0 < count <= |m.columns| && IsMergedPrior(m, basis, count - 1, key, prior)
    ensures IsMergedPrior(m, basis, count, key,
      if KeyOf(m, basis, m.columns[count - 1]) == key then MergeProbability(prior, m.columns[count - 1].prior)
        else prior)
  {
    MergeMultiplies(prior, m.columns[count - 1].prior);
  }

  lemma PriorBegins(m: Model, basis: Basis, count: nat)
    requires 0 < count <= |m.columns|
    requires var key := KeyOf(m, basis, m.columns[count - 1]);
      key.rows != {} && key !in Split(m, basis, count - 1).keys
    ensures IsMergedPrior(m, basis, count, KeyOf(m, basis, m.columns[count - 1]),
      MergeProbability(0.0, m.columns[count - 1].prior))
  {
    NewKeyProduct(m, basis, KeyOf(m, basis, m.columns[count - 1]), count - 1);
    MergeMultiplies(0.0, m.columns[count - 1].prior);
  }

  /** A merged prior's 1 - 2p is the product over the columns it merged; keys stay distinct. */
  lemma {:induction false} MergedPriors(m: Model, basis: Basis, count: nat)
    requires count <= |m.columns|
    ensures AreMerged(m, basis, count, Split(m, basis, count))
  {
    if count > 0 {
      MergedPriors(m, basis, count - 1);
      var before := Split(m, basis, count - 1);
      var part := Split(m, basis, count);
      var key := KeyOf(m, basis, m.columns[count - 1]);
      var p := PlaceOfKey(before.keys, key);
      if key.rows != {} && p == |before.keys| {
        PriorBegins(m, basis, count);
      }
      forall i | 0 <= i < |part.keys|
        ensures IsMergedPrior(m, basis, count, part.keys[i], part.priors[i])
      {
        if i < |before.keys| {
          PriorMerges(m, basis, count, before.keys[i], before.priors[i]);
          assert p < |before.keys| && i != p ==> before.keys[i] != before.keys[p];
        }
      }
    }
  }

  /** The id is that of the first of the columns with the key. */
  ghost predicate IsFirstFault(m: Model, basis: Basis, count: nat, key: Key, faultId: nat)
    requires count <= |m.columns|
  {
    exists i | 0 <= i < count ::
      && KeyOf(m, basis, m.columns[i]) == key && m.columns[i].faultId == faultId
      && (forall j | 0 <= j < i :: KeyOf(m, basis, m.columns[j]) != key)
  }

  lemma {:induction false} NewKeyIsFirst(m: Model, basis: Basis, key: Key, count: nat)
    requires count <= |m.columns| && key.rows != {} && key !in Split(m, basis, count).keys
    ensures forall j | 0 <= j < count :: KeyOf(m, basis, m.columns[j]) != key
  {
    if count > 0 {
      var before := Split(m, basis, count - 1);
      var other := KeyOf(m, basis, m.columns[count - 1]);
      if other.rows != {} && PlaceOfKey(before.keys, other) == |before.keys| {
        assert Split(m, basis, count).keys == before.keys + [other];
        assert (before.keys + [other])[|before.keys|] == other;
      }
      assert forall k | k in before.keys :: k in Split(m, basis, count).keys;
      NewKeyIsFirst(m, basis, key, count - 1);
    }
  }

  /** A merged column is reported as the first fault of those it merges. */
  lemma {:induction false} FaultsAreFirst(m: Model, basis: Basis, count: nat, i: nat)
    requires count <= |m.columns| && i < |Split(m, basis, count).keys|
    ensures IsFirstFault(m, basis, count, Split(m, basis, count).keys[i], Split(m, basis, count).faultIds[i])
  {
    var before := Split(m, basis, count - 1);
    var part := Split(m, basis, count);
    var key := KeyOf(m, basis, m.columns[count - 1]);
    if i < |before.keys| {
      FaultsAreFirst(m, basis, count - 1, i);
      var f :| 0 <= f < count - 1 && KeyOf(m, basis, m.columns[f]) == before.keys[i] &&
        m.columns[f].faultId == before.faultIds[i] &&
        forall j | 0 <= j < f :: KeyOf(m, basis, m.columns[j]) != before.keys[i];
      assert part.keys[i] == before.keys[i] && part.faultIds[i] == before.faultIds[i];
      assert 0 <= f < count;
    } else {
      NewKeyIsFirst(m, basis, key, count - 1);
      assert 0 <= count - 1 < count;
    }
  }

  /** A part's column that the window does not commit names no detector to flip. */
  lemma UncommittedFlipsNone(m: Model, basis: Basis, i: nat)
    requires i < |PartModel(m, basis).columns| && !PartModel(m, basis).columns[i].owned
    ensures PartModel(m, basis).columns[i].flips == {}
  {
  }

  // ------------------------------------------------------- the joined answer

  /** The parts' answers to a selection: their observables and detectors, each XORed. */
  function JoinedObservable(m: Model, x: seq<bool>, z: seq<bool>, observable: nat): bool
    requires |x| == |PartModel(m, X).columns| && |z| == |PartModel(m, Z).columns|
  {
    FlipsObservable(PartModel(m, X), x, observable) != FlipsObservable(PartModel(m, Z), z, observable)
  }

  function JoinedDetector(m: Model, x: seq<bool>, z: seq<bool>, detector: nat): bool
    requires |x| == |PartModel(m, X).columns| && |z| == |PartModel(m, Z).columns|
  {
    FlipsDetector(PartModel(m, X), x, detector) != FlipsDetector(PartModel(m, Z), z, detector)
  }

  /** A part never flips an observable or a detector of the other basis, so no detector is
      flipped by both. */
  lemma PartsShareNothing(m: Model, basis: Basis, chosen: seq<bool>, id: nat)
    requires |chosen| == |PartModel(m, basis).columns|
    ensures FlipsDetector(PartModel(m, basis), chosen, id) ==> m.basisOf(id) == basis
    ensures FlipsObservable(PartModel(m, basis), chosen, id) ==>
      id < |m.observableBases| && m.observableBases[id] == basis
  {
    var columns := PartModel(m, basis).columns;
    KeysAreOfBasis(m, basis, |m.columns|);
    assert forall i | 0 <= i < |columns| :: IsKeyOf(m, basis, Split(m, basis, |m.columns|).keys[i]);
    if m.basisOf(id) != basis {
      NoneOdd(columns, chosen, (c: Column) => c.owned && id in c.flips);
    }
    if !(id < |m.observableBases| && m.observableBases[id] == basis) {
      NoneOdd(columns, chosen, (c: Column) => c.owned && id in c.observables);
    }
  }

  lemma {:induction false} NoneOdd(columns: seq<Column>, chosen: seq<bool>, test: Column -> bool)
    requires |chosen| == |columns| && forall i | 0 <= i < |columns| :: !test(columns[i])
    ensures !Odd(columns, chosen, test)
  {
    if columns != [] {
      NoneOdd(columns[..|columns| - 1], chosen[..|columns| - 1], test);
    }
  }

  ghost predicate IsKeyOf(m: Model, basis: Basis, key: Key) {
    exists c :: key == KeyOf(m, basis, c)
  }

  lemma {:induction false} KeysAreOfBasis(m: Model, basis: Basis, count: nat)
    requires count <= |m.columns|
    ensures forall i | 0 <= i < |Split(m, basis, count).keys| :: IsKeyOf(m, basis, Split(m, basis, count).keys[i])
  {
    if count > 0 {
      KeysAreOfBasis(m, basis, count - 1);
      var before := Split(m, basis, count - 1).keys;
      assert IsKeyOf(m, basis, KeyOf(m, basis, m.columns[count - 1]));
      forall i | 0 <= i < |Split(m, basis, count).keys|
        ensures IsKeyOf(m, basis, Split(m, basis, count).keys[i])
      {
        if i < |before| {
          assert Split(m, basis, count).keys[i] == before[i];
        } else {
          assert Split(m, basis, count).keys[i] == KeyOf(m, basis, m.columns[count - 1]);
        }
      }
    }
  }

  /** What one part reports of an observable: the owned columns it sees, if it is the part's. */
  lemma PartObservable(m: Model, basis: Basis, selected: seq<bool>, o: nat, counted: Column -> bool)
    requires |selected| == |m.columns|
    requires forall c :: counted(c) == (KeyOf(m, basis, c).rows != {} && c.owned && o in KeyOf(m, basis, c).observables)
    ensures FlipsObservable(PartModel(m, basis), Restrict(m, basis, selected, |m.columns|), o) ==
      Odd(m.columns, selected, counted)
  {
    PartParity(m, basis, selected,
      (c: Column) => c.owned && o in c.observables, (key: Key) => key.owned && o in key.observables, counted);
  }

  lemma PartDetector(m: Model, basis: Basis, selected: seq<bool>, d: nat, counted: Column -> bool)
    requires |selected| == |m.columns|
    requires forall c :: counted(c) == (KeyOf(m, basis, c).rows != {} && c.owned && d in KeyOf(m, basis, c).flips)
    ensures FlipsDetector(PartModel(m, basis), Restrict(m, basis, selected, |m.columns|), d) ==
      Odd(m.columns, selected, counted)
  {
    PartParity(m, basis, selected,
      (c: Column) => c.owned && d in c.flips, (key: Key) => key.owned && d in key.flips, counted);
  }

  lemma {:induction false} OddSplits(
    columns: seq<Column>, selected: seq<bool>, a: Column -> bool, b: Column -> bool, whole: Column -> bool)
    requires |selected| == |columns| && forall c | c in columns :: whole(c) == (a(c) != b(c))
    ensures Odd(columns, selected, whole) == (Odd(columns, selected, a) != Odd(columns, selected, b))
  {
    if columns != [] {
      var last := |columns| - 1;
      OddSplits(columns[..last], selected[..last], a, b, whole);
    }
  }

  /** A committed column a part does not see flips nothing of that part's. */
  ghost predicate SeenWhereItActs(m: Model, c: Column) {
    c.owned ==> forall basis: Basis | KeyOf(m, basis, c).rows == {} ::
      KeyOf(m, basis, c).observables == {} && KeyOf(m, basis, c).flips == {}
  }

  /** The joined answer to any selection is the whole model's. */
  ghost predicate JoinsRight(m: Model) {
    forall selected: seq<bool> | |selected| == |m.columns| ::
      var x, z := Restrict(m, X, selected, |m.columns|), Restrict(m, Z, selected, |m.columns|);
      && (forall o | 0 <= o < |m.observableBases| :: JoinedObservable(m, x, z, o) == FlipsObservable(m, selected, o))
      && (forall d: nat :: JoinedDetector(m, x, z, d) == FlipsDetector(m, selected, d))
  }

  lemma JoinedObservableOf(m: Model, selected: seq<bool>, o: nat, counted: Column -> bool)
    requires |selected| == |m.columns| && o < |m.observableBases|
    requires forall c :: counted(c) == (c.owned && o in c.observables && KeyOf(m, m.observableBases[o], c).rows != {})
    ensures JoinedObservable(m, Restrict(m, X, selected, |m.columns|), Restrict(m, Z, selected, |m.columns|), o) ==
      Odd(m.columns, selected, counted)
  {
    var a := (c: Column) => KeyOf(m, X, c).rows != {} && c.owned && o in KeyOf(m, X, c).observables;
    var b := (c: Column) => KeyOf(m, Z, c).rows != {} && c.owned && o in KeyOf(m, Z, c).observables;
    PartObservable(m, X, selected, o, a);
    PartObservable(m, Z, selected, o, b);
    OddSplits(m.columns, selected, a, b, counted);
  }

  lemma JoinedDetectorOf(m: Model, selected: seq<bool>, d: nat, counted: Column -> bool)
    requires |selected| == |m.columns|
    requires forall c :: counted(c) == (c.owned && d in c.flips && KeyOf(m, m.basisOf(d), c).rows != {})
    ensures JoinedDetector(m, Restrict(m, X, selected, |m.columns|), Restrict(m, Z, selected, |m.columns|), d) ==
      Odd(m.columns, selected, counted)
  {
    var a := (c: Column) => KeyOf(m, X, c).rows != {} && c.owned && d in KeyOf(m, X, c).flips;
    var b := (c: Column) => KeyOf(m, Z, c).rows != {} && c.owned && d in KeyOf(m, Z, c).flips;
    PartDetector(m, X, selected, d, a);
    PartDetector(m, Z, selected, d, b);
    OddSplits(m.columns, selected, a, b, counted);
  }

  /** One column selected alone. */
  function Only(m: Model, i: nat): (selected: seq<bool>)
    ensures |selected| == |m.columns|
  {
    seq(|m.columns|, j => j == i)
  }

  lemma {:induction false} OddOfOne(m: Model, i: nat, test: Column -> bool, count: nat)
    requires i < |m.columns| && count <= |m.columns|
    ensures Odd(m.columns[..count], Only(m, i)[..count], test) == (i < count && test(m.columns[i]))
  {
    if count > 0 {
      OddOfOne(m, i, test, count - 1);
      assert m.columns[..count][..count - 1] == m.columns[..count - 1];
      assert Only(m, i)[..count][..count - 1] == Only(m, i)[..count - 1];
    }
  }

  ghost predicate IsModel(m: Model) {
    forall c, o | c in m.columns && o in c.observables :: o < |m.observableBases|
  }

  lemma JoinsWhenSeen(m: Model, selected: seq<bool>, id: nat)
    requires IsModel(m) && |selected| == |m.columns| && forall c | c in m.columns :: SeenWhereItActs(m, c)
    ensures var x, z := Restrict(m, X, selected, |m.columns|), Restrict(m, Z, selected, |m.columns|);
      && (id < |m.observableBases| ==> JoinedObservable(m, x, z, id) == FlipsObservable(m, selected, id))
      && JoinedDetector(m, x, z, id) == FlipsDetector(m, selected, id)
  {
    if id < |m.observableBases| {
      var counted := (c: Column) => c.owned && id in c.observables && KeyOf(m, m.observableBases[id], c).rows != {};
      JoinedObservableOf(m, selected, id, counted);
      forall c | c in m.columns
        ensures counted(c) == (c.owned && id in c.observables)
      {
        assert SeenWhereItActs(m, c);
        assert id in c.observables ==> id in KeyOf(m, m.observableBases[id], c).observables;
      }
      OddSame(m.columns, selected, counted, (c: Column) => c.owned && id in c.observables);
    }
    var counted := (c: Column) => c.owned && id in c.flips && KeyOf(m, m.basisOf(id), c).rows != {};
    JoinedDetectorOf(m, selected, id, counted);
    forall c | c in m.columns
      ensures counted(c) == (c.owned && id in c.flips)
    {
      assert SeenWhereItActs(m, c);
      assert id in c.flips ==> id in KeyOf(m, m.basisOf(id), c).flips;
    }
    OddSame(m.columns, selected, counted, (c: Column) => c.owned && id in c.flips);
  }

  /** A column the part does not see, selected alone, is lost from the joined answer. */
  lemma UnseenIsLost(m: Model, i: nat)
    requires IsModel(m) && i < |m.columns| && !SeenWhereItActs(m, m.columns[i])
    ensures !JoinsRight(m)
  {
    var c := m.columns[i];
    var selected := Only(m, i);
    var basis: Basis :| KeyOf(m, basis, c).rows == {} &&
      !(KeyOf(m, basis, c).observables == {} && KeyOf(m, basis, c).flips == {});
    var all := |m.columns|;
    assert m.columns[..all] == m.columns && selected[..all] == selected;
    if o :| o in KeyOf(m, basis, c).observables {
      var counted := (d: Column) => d.owned && o in d.observables && KeyOf(m, m.observableBases[o], d).rows != {};
      JoinedObservableOf(m, selected, o, counted);
      OddOfOne(m, i, counted, all);
      OddOfOne(m, i, (d: Column) => d.owned && o in d.observables, all);
    } else {
      var d :| d in KeyOf(m, basis, c).flips;
      var counted := (e: Column) => e.owned && d in e.flips && KeyOf(m, m.basisOf(d), e).rows != {};
      JoinedDetectorOf(m, selected, d, counted);
      OddOfOne(m, i, counted, all);
      OddOfOne(m, i, (e: Column) => e.owned && d in e.flips, all);
    }
  }

  /** The joined residual and observables are the whole model's, for every selection, just when
      every committed column is seen by each part it flips an observable or a detector of. */
  lemma JoinsRightExactly(m: Model)
    requires IsModel(m)
    ensures JoinsRight(m) <==> forall c | c in m.columns :: SeenWhereItActs(m, c)
  {
    if forall c | c in m.columns :: SeenWhereItActs(m, c) {
      forall selected: seq<bool>, id: nat | |selected| == |m.columns|
        ensures var x, z := Restrict(m, X, selected, |m.columns|), Restrict(m, Z, selected, |m.columns|);
          && (id < |m.observableBases| ==> JoinedObservable(m, x, z, id) == FlipsObservable(m, selected, id))
          && JoinedDetector(m, x, z, id) == FlipsDetector(m, selected, id)
      {
        JoinsWhenSeen(m, selected, id);
      }
    } else {
      var c :| c in m.columns && !SeenWhereItActs(m, c);
      var i :| 0 <= i < |m.columns| && m.columns[i] == c;
      UnseenIsLost(m, i);
    }
  }

  /** One committed fault of the Z basis alone that flips an observable of the X basis. */
  function Crossing(): Model {
    Model([0], (_: nat) => Z, [X], [Column({0}, {0}, true, {}, 0.5, 0)])
  }

  lemma CrossingIsLost()
    ensures IsModel(Crossing()) && FlipsObservable(Crossing(), [true], 0)
    ensures !JoinedObservable(Crossing(), Restrict(Crossing(), X, [true], 1), Restrict(Crossing(), Z, [true], 1), 0)
  {
    var m := Crossing();
    var c := m.columns[0];
    assert m.columns[..1] == m.columns && m.columns[..0] == [] && [true][..1] == [true] && [true][..0] == [];
    assert RowsUpTo(m, X, 0) == [] && RowsOfBasis(m, X) == [];
    assert KeyOf(m, X, c).rows == {};
    var counted := (d: Column) => d.owned && 0 in d.observables && KeyOf(m, X, d).rows != {};
    JoinedObservableOf(m, [true], 0, counted);
    assert !counted(c);
  }

  // --------------------------------------------------- the order of merging

  function MergeAll(merge: (real, real) -> real, priors: seq<real>): real {
    if priors == [] then 0.0
    else merge(MergeAll(merge, priors[..|priors| - 1]), priors[|priors| - 1])
  }

  /** Two priors may be merged in either order. */
  lemma MergesInEitherOrder(p: real, q: real, r: real)
    ensures MergeProbability(MergeProbability(p, q), r) == MergeProbability(MergeProbability(p, r), q)
  {
  }

  lemma MergeLast(merge: (real, real) -> real, priors: seq<real>, p: real)
    ensures MergeAll(merge, priors + [p]) == merge(MergeAll(merge, priors), p)
  {
    assert (priors + [p])[..|priors|] == priors;
  }

  lemma {:induction false} MergeInserted(merge: (real, real) -> real, x: seq<real>, p: real, y: seq<real>)
    requires forall a, b, c :: merge(merge(a, b), c) == merge(merge(a, c), b)
    ensures MergeAll(merge, x + [p] + y) == merge(MergeAll(merge, x + y), p)
  {
    if y == [] {
      assert x + [p] + y == x + [p] && x + y == x;
      MergeLast(merge, x, p);
    } else {
      var front, q := y[..|y| - 1], y[|y| - 1];
      MergeInserted(merge, x, p, front);
      assert x + [p] + y == (x + [p] + front) + [q] && x + y == (x + front) + [q];
      MergeLast(merge, x + [p] + front, q);
      MergeLast(merge, x + front, q);
    }
  }

  /** The merged prior is the same in any order of merging. */
  lemma MergeInAnyOrder(a: seq<real>, b: seq<real>)
    requires multiset(a) == multiset(b)
    ensures MergeAll(MergeProbability, a) == MergeAll(MergeProbability, b)
  {
    forall p, q, r
      ensures MergeProbability(MergeProbability(p, q), r) == MergeProbability(MergeProbability(p, r), q)
    {
      MergesInEitherOrder(p, q, r);
    }
    SameMerged(MergeProbability, a, b);
  }

  lemma OneRemoved(b: seq<real>, i: nat)
    requires i < |b|
    ensures multiset(b) == multiset(b[..i] + b[i + 1..]) + multiset{b[i]}
  {
    assert b == b[..i] + [b[i]] + b[i + 1..];
    assert multiset(b[..i] + [b[i]] + b[i + 1..]) == multiset(b[..i]) + multiset{b[i]} + multiset(b[i + 1..]);
  }

  /** The last of one list found in the other: without it they hold the same still. */
  lemma FindLast(a: seq<real>, b: seq<real>) returns (i: nat)
    requires multiset(a) == multiset(b) && a != []
    ensures i < |b| && b[i] == a[|a| - 1]
    ensures multiset(a[..|a| - 1]) == multiset(b[..i] + b[i + 1..])
  {
    var last := |a| - 1;
    assert a == a[..last] + [a[last]];
    assert multiset(a) == multiset(a[..last]) + multiset{a[last]};
    assert a[last] in multiset(b);
    i :| 0 <= i < |b| && b[i] == a[last];
    OneRemoved(b, i);
    assert multiset(b[..i] + b[i + 1..]) == multiset(b) - multiset{b[i]};
    assert multiset(a[..last]) == multiset(a) - multiset{a[last]};
  }

  lemma {:induction false} SameMerged(merge: (real, real) -> real, a: seq<real>, b: seq<real>)
    requires forall p, q, r :: merge(merge(p, q), r) == merge(merge(p, r), q)
    requires multiset(a) == multiset(b)
    ensures MergeAll(merge, a) == MergeAll(merge, b)
    decreases |a|
  {
    assert |a| == |multiset(a)| && |b| == |multiset(b)|;
    if a != [] {
      var i := FindLast(a, b);
      SameMerged(merge, a[..|a| - 1], b[..i] + b[i + 1..]);
      MergeInserted(merge, b[..i], b[i], b[i + 1..]);
      assert b == b[..i] + [b[i]] + b[i + 1..];
    }
  }

  // ---------------------------------------------------- as the source runs

  /** One part's columns as they are merged. */
  class MergedColumns {
    var keys: seq<Key>
    var priors: seq<real>
    var faultIds: seq<nat>

    constructor ()
      ensures Value() == Part([], [], [])
    {
      keys, priors, faultIds := [], [], [];
    }

    function Value(): Part
      reads this
    {
      Part(keys, priors, faultIds)
    }

    method AddColumn(key: Key, prior: real, faultId: nat)
      requires |priors| == |keys| == |faultIds|
      modifies this
      ensures |priors| == |keys| == |faultIds| && Value() == Add(old(Value()), key, prior, faultId)
    {
      var p := 0;
      while p < |keys| && keys[p] != key
        invariant p <= |keys| && forall q | 0 <= q < p :: keys[q] != key
      {
        p := p + 1;
      }
      if p < |keys| {
        priors := priors[p := MergeProbability(priors[p], prior)];
      } else {
        keys := keys + [key];
        priors := priors + [MergeProbability(0.0, prior)];
        faultIds := faultIds + [faultId];
      }
    }
  }

  method RowsOf(m: Model, basis: Basis) returns (rows: seq<nat>)
    ensures rows == RowsOfBasis(m, basis)
  {
    rows := [];
    var r := 0;
    while r < |m.detectorIds|
      invariant r <= |m.detectorIds| && rows == RowsUpTo(m, basis, r)
    {
      if m.basisOf(m.detectorIds[r]) == basis {
        rows := rows + [r];
      }
      r := r + 1;
    }
  }

  /** The part built in place: a column with no row of the basis is passed over, one whose key is
      known adds its prior. */
  method PartFaults(m: Model, basis: Basis) returns (part: Part)
    ensures part == Split(m, basis, |m.columns|)
    ensures AreMerged(m, basis, |m.columns|, part)
  {
    var merged := new MergedColumns();
    var column := 0;
    while column < |m.columns|
      invariant column <= |m.columns| && merged.Value() == Split(m, basis, column)
    {
      var c := m.columns[column];
      var key := KeyOf(m, basis, c);
      if key.rows != {} {
        merged.AddColumn(key, c.prior, c.faultId);
      }
      column := column + 1;
    }
    part := merged.Value();
    MergedPriors(m, basis, |m.columns|);
  }

  /** The detectors the committed columns flip, XORed column by column. */
  method DetectorIdsFromColumns(m: Model, selected: seq<bool>) returns (ids: set<nat>)
    requires |selected| == |m.columns|
    ensures forall d: nat :: d in ids <==> FlipsDetector(m, selected, d)
  {
    ids := {};
    var column := 0;
    while column < |m.columns|
      invariant column <= |m.columns|
      invariant forall d: nat ::
        d in ids <==> Odd(m.columns[..column], selected[..column], (c: Column) => c.owned && d in c.flips)
    {
      assert m.columns[..column + 1][..column] == m.columns[..column];
      assert selected[..column + 1][..column] == selected[..column];
      if selected[column] && m.columns[column].owned {
        var flips := m.columns[column].flips;
        ids := (ids - flips) + (flips - ids);
      }
      column := column + 1;
    }
    assert m.columns[..column] == m.columns && selected[..column] == selected;
  }
}
