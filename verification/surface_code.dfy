/** The rotated surface code on any rectangle of data qubits: how many stabilizers it has, and
    that those of different types overlap evenly.
 */
module SurfaceCode {

  datatype Box = Box(firstColumn: int, lastColumn: int, firstRow: int, lastRow: int)

  datatype Kind = X | Z

  datatype Stabilizer = Stabilizer(kind: Kind, column: int, row: int, support: seq<(int, int)>)

  predicate IsBox(box: Box) {
    box.firstColumn <= box.lastColumn && box.firstRow <= box.lastRow
  }

  predicate IsIn(box: Box, column: int, row: int) {
    box.firstColumn <= column <= box.lastColumn && box.firstRow <= row <= box.lastRow
  }

  /** Of the four corners, those inside the box. */
  function Inside(box: Box, column: int, row: int): seq<(int, int)> {
    (if IsIn(box, column, row) then [(column, row)] else [])
    + (if IsIn(box, column, row + 1) then [(column, row + 1)] else [])
    + (if IsIn(box, column + 1, row) then [(column + 1, row)] else [])
    + (if IsIn(box, column + 1, row + 1) then [(column + 1, row + 1)] else [])
  }

  function KindOf(column: int, row: int): Kind {
    if (column + row) % 2 == 0 then X else Z
  }

  predicate IsSide(box: Box, column: int) {
    column < box.firstColumn || column >= box.lastColumn
  }

  /** A whole plaquette is kept; a half is kept as Z on a side edge, as X on the others. */
  predicate IsKept(box: Box, column: int, row: int) {
    var corners := |Inside(box, column, row)|;
    || corners == 4
    || (corners == 2 && KindOf(column, row) == if IsSide(box, column) then Z else X)
  }

  function Plaquette(box: Box, column: int, row: int): Stabilizer {
    Stabilizer(KindOf(column, row), column, row, Inside(box, column, row))
  }

  /** The column's stabilizers, from its first count plaquettes. */
  function InColumn(box: Box, column: int, count: nat): seq<Stabilizer> {
    if count == 0 then []
    else
      var row := box.firstRow - 1 + count - 1;
      InColumn(box, column, count - 1) + if IsKept(box, column, row) then [Plaquette(box, column, row)] else []
  }

  /** There is one more column and row of plaquettes than of data qubits. */
  function Columns(box: Box): nat
    requires IsBox(box)
  {
    box.lastColumn - box.firstColumn + 2
  }

  function Rows(box: Box): nat
    requires IsBox(box)
  {
    box.lastRow - box.firstRow + 2
  }

  function InColumns(box: Box, count: nat): seq<Stabilizer>
    requires IsBox(box)
  {
    if count == 0 then []
    else InColumns(box, count - 1) + InColumn(box, box.firstColumn - 1 + count - 1, Rows(box))
  }

  function Stabilizers(box: Box): seq<Stabilizer>
    requires IsBox(box)
  {
    InColumns(box, Columns(box))
  }

  // ---------------------------------------------------------- even overlap

  /** How many corners of the first plaquette are data qubits the second has too. */
  function Overlap(box: Box, column: int, row: int, otherColumn: int, otherRow: int): nat {
    Shared(box, column, row, otherColumn, otherRow)
    + Shared(box, column, row + 1, otherColumn, otherRow)
    + Shared(box, column + 1, row, otherColumn, otherRow)
    + Shared(box, column + 1, row + 1, otherColumn, otherRow)
  }

  function Shared(box: Box, column: int, row: int, otherColumn: int, otherRow: int): nat {
    if (column, row) in Inside(box, otherColumn, otherRow) then 1 else 0
  }

  lemma InsideHas(box: Box, column: int, row: int, c: int, r: int)
    ensures (c, r) in Inside(box, column, row) <==> IsIn(box, c, r) && column <= c <= column + 1 && row <= r <= row + 1
  {
  }

  lemma CornerCount(box: Box, column: int, row: int)
    requires IsBox(box)
    ensures var across := if box.firstColumn <= column < box.lastColumn then 2
              else if column == box.firstColumn - 1 || column == box.lastColumn then 1 else 0;
      var down := if box.firstRow <= row < box.lastRow then 2
              else if row == box.firstRow - 1 || row == box.lastRow then 1 else 0;
      |Inside(box, column, row)| == across * down
  {
  }

  /** A kept plaquette is whole, or a half along one edge of the box. */
  lemma KeptShape(box: Box, column: int, row: int)
    requires IsBox(box) && IsKept(box, column, row)
    ensures (box.firstColumn <= column < box.lastColumn && box.firstRow <= row < box.lastRow) ||
      ((column == box.firstColumn - 1 || column == box.lastColumn)
       && box.firstRow <= row < box.lastRow && KindOf(column, row) == Z) ||
      (box.firstColumn <= column < box.lastColumn
       && (row == box.firstRow - 1 || row == box.lastRow) && KindOf(column, row) == X)
  {
    CornerCount(box, column, row);
  }

  /** Every X and Z stabilizer of a rectangle share an even number of data qubits. */
  lemma EvenOverlap(box: Box, column: int, row: int, otherColumn: int, otherRow: int)
    requires IsBox(box) && IsKept(box, column, row) && IsKept(box, otherColumn, otherRow)
    requires KindOf(column, row) == X && KindOf(otherColumn, otherRow) == Z
    ensures Overlap(box, column, row, otherColumn, otherRow) % 2 == 0
  {
    KeptShape(box, column, row);
    KeptShape(box, otherColumn, otherRow);
    InsideHas(box, otherColumn, otherRow, column, row);
    InsideHas(box, otherColumn, otherRow, column, row + 1);
    InsideHas(box, otherColumn, otherRow, column + 1, row);
    InsideHas(box, otherColumn, otherRow, column + 1, row + 1);
  }

  // ---------------------------------------------------------------- the count

  /** How many of the count numbers from the first have the parity. */
  function Alternate(first: int, count: nat, parity: int): nat {
    if count == 0 then 0
    else Alternate(first, count - 1, parity) + if (first + count - 1) % 2 == parity then 1 else 0
  }

  lemma {:induction false} AlternateCount(first: int, count: nat, parity: int)
    requires parity == 0 || parity == 1
    ensures Alternate(first, count, parity) == if first % 2 == parity then (count + 1) / 2 else count / 2
  {
    if count > 0 {
      AlternateCount(first, count - 1, parity);
    }
  }

  /** A side column keeps the halves of one parity; a column through the box keeps its whole
      plaquettes and perhaps a half at either end. */
  lemma {:induction false} ColumnCount(box: Box, column: int, count: nat)
    requires IsBox(box) && box.firstColumn - 1 <= column <= box.lastColumn && 1 <= count < Rows(box)
    ensures |InColumn(box, column, count)| ==
      if box.firstColumn <= column < box.lastColumn then
        (if (column + box.firstRow - 1) % 2 == 0 then 1 else 0) + count - 1
      else Alternate(column + box.firstRow, count - 1, 1)
  {
    var row := box.firstRow - 1 + count - 1;
    CornerCount(box, column, row);
    if count > 1 {
      ColumnCount(box, column, count - 1);
      assert column + box.firstRow + (count - 1) - 1 == column + row;
    } else {
      assert InColumn(box, column, 0) == [];
    }
  }

  lemma WholeColumnCount(box: Box, column: int)
    requires IsBox(box) && box.firstColumn - 1 <= column <= box.lastColumn
    ensures |InColumn(box, column, Rows(box))| ==
      if box.firstColumn <= column < box.lastColumn then
        (if (column + box.firstRow - 1) % 2 == 0 then 1 else 0) + (Rows(box) - 2) +
        (if (column + box.lastRow) % 2 == 0 then 1 else 0)
      else Alternate(column + box.firstRow, Rows(box) - 2, 1)
  {
    var count := Rows(box);
    ColumnCount(box, column, count - 1);
    CornerCount(box, column, box.lastRow);
    assert box.firstRow - 1 + count - 1 == box.lastRow;
  }

  /** A product of counts, one factor grown by one. */
  lemma OneMore(n: nat, k: nat)
    ensures (n + 1) * k == n * k + k
  {
  }

  lemma InnerColumn(box: Box, count: nat)
    requires IsBox(box) && 1 < count < Columns(box)
    ensures |InColumns(box, count)| == |InColumns(box, count - 1)| + (Rows(box) - 2) +
      (if (box.firstColumn + box.firstRow + count - 2) % 2 == 1 then 1 else 0) +
      (if (box.firstColumn + box.lastRow + count - 2) % 2 == 0 then 1 else 0)
  {
    var column := box.firstColumn - 1 + count - 1;
    WholeColumnCount(box, column);
    assert (column + box.firstRow - 1) % 2 == 0 <==> (column + box.firstRow) % 2 == 1;
  }

  /** The columns through the box: whole plaquettes, and the halves kept along the top and
      the bottom. */
  lemma {:induction false} InnerCount(box: Box, count: nat)
    requires IsBox(box) && 1 <= count < Columns(box)
    ensures |InColumns(box, count)| == |InColumn(box, box.firstColumn - 1, Rows(box))| +
      (count - 1) * (Rows(box) - 2) + Alternate(box.firstColumn + box.firstRow, count - 1, 1) +
      Alternate(box.firstColumn + box.lastRow, count - 1, 0)
  {
    if count == 1 {
      assert InColumns(box, 0) == [];
    } else {
      InnerCount(box, count - 1);
      InnerColumn(box, count);
      OneMore(count - 2, Rows(box) - 2);
    }
  }

  /** Whole plaquettes and the halves along the four edges. */
  lemma ByEdges(box: Box)
    requires IsBox(box)
    ensures var w: nat, h: nat := box.lastColumn - box.firstColumn, box.lastRow - box.firstRow;
      |Stabilizers(box)| ==
        w * h + Alternate(box.firstColumn + box.firstRow, w, 1) + Alternate(box.firstColumn + box.lastRow, w, 0)
        + Alternate(box.firstColumn - 1 + box.firstRow, h, 1) + Alternate(box.lastColumn + box.firstRow, h, 1)
  {
    InnerCount(box, Columns(box) - 1);
    WholeColumnCount(box, box.firstColumn - 1);
    WholeColumnCount(box, box.lastColumn);
  }

  /** A rectangle of width by height data qubits has width times height less one stabilizers. */
  lemma StabilizerCount(box: Box)
    requires IsBox(box)
    ensures |Stabilizers(box)| == (box.lastColumn - box.firstColumn + 1) * (box.lastRow - box.firstRow + 1) - 1
  {
    var w: nat, h: nat := box.lastColumn - box.firstColumn, box.lastRow - box.firstRow;
    ByEdges(box);
    AlternateCount(box.firstColumn + box.firstRow, w, 1);
    AlternateCount(box.firstColumn + box.lastRow, w, 0);
    AlternateCount(box.firstColumn - 1 + box.firstRow, h, 1);
    AlternateCount(box.lastColumn + box.firstRow, h, 1);
    EdgesSum(box, w, h);
    Area(w, h);
    assert box.lastColumn - box.firstColumn + 1 == w + 1 && box.lastRow - box.firstRow + 1 == h + 1;
  }

  lemma Area(w: nat, h: nat)
    ensures (w + 1) * (h + 1) == w * h + w + h + 1
  {
  }

  /** The halves kept along the four edges. */
  lemma EdgesSum(box: Box, w: nat, h: nat)
    requires w == box.lastColumn - box.firstColumn && h == box.lastRow - box.firstRow
    ensures var start := box.firstColumn + box.firstRow;
      (if start % 2 == 1 then (w + 1) / 2 else w / 2) +
        (if (box.firstColumn + box.lastRow) % 2 == 0 then (w + 1) / 2 else w / 2)
      + (if (start - 1) % 2 == 1 then (h + 1) / 2 else h / 2) +
        (if (box.lastColumn + box.firstRow) % 2 == 1 then (h + 1) / 2 else h / 2)
      == w + h
  {
  }

  ghost predicate IsOf(box: Box, s: Stabilizer) {
    IsKept(box, s.column, s.row) && s == Plaquette(box, s.column, s.row)
  }

  lemma {:induction false} ColumnIsKept(box: Box, column: int, count: nat)
    ensures forall i | 0 <= i < |InColumn(box, column, count)| :: IsOf(box, InColumn(box, column, count)[i])
  {
    if count > 0 {
      ColumnIsKept(box, column, count - 1);
    }
  }

  lemma {:induction false} ListIsKept(box: Box, count: nat)
    requires IsBox(box)
    ensures forall i | 0 <= i < |InColumns(box, count)| :: IsOf(box, InColumns(box, count)[i])
  {
    if count > 0 {
      ListIsKept(box, count - 1);
      ColumnIsKept(box, box.firstColumn - 1 + count - 1, Rows(box));
    }
  }

  /** How many of the first stabilizer's data qubits the second has. */
  function SharedQubits(support: seq<(int, int)>, other: seq<(int, int)>): nat {
    if support == [] then 0 else (if support[0] in other then 1 else 0) + SharedQubits(support[1..], other)
  }

  lemma {:induction false} SharedAppend(a: seq<(int, int)>, b: seq<(int, int)>, other: seq<(int, int)>)
    ensures SharedQubits(a + b, other) == SharedQubits(a, other) + SharedQubits(b, other)
  {
    if a == [] {
      assert a + b == b;
    } else {
      SharedAppend(a[1..], b, other);
      assert (a + b)[1..] == a[1..] + b;
    }
  }

  lemma SharedIsOverlap(box: Box, column: int, row: int, otherColumn: int, otherRow: int)
    ensures SharedQubits(Inside(box, column, row), Inside(box, otherColumn, otherRow)) ==
      Overlap(box, column, row, otherColumn, otherRow)
  {
    var other := Inside(box, otherColumn, otherRow);
    var a := if IsIn(box, column, row) then [(column, row)] else [];
    var b := if IsIn(box, column, row + 1) then [(column, row + 1)] else [];
    var c := if IsIn(box, column + 1, row) then [(column + 1, row)] else [];
    var d := if IsIn(box, column + 1, row + 1) then [(column + 1, row + 1)] else [];
    SharedAppend(a + b + c, d, other);
    SharedAppend(a + b, c, other);
    SharedAppend(a, b, other);
    OneShared(box, column, row, otherColumn, otherRow);
    OneShared(box, column, row + 1, otherColumn, otherRow);
    OneShared(box, column + 1, row, otherColumn, otherRow);
    OneShared(box, column + 1, row + 1, otherColumn, otherRow);
  }

  lemma OneShared(box: Box, column: int, row: int, otherColumn: int, otherRow: int)
    ensures SharedQubits(if IsIn(box, column, row) then [(column, row)] else [], Inside(box, otherColumn, otherRow)) ==
      Shared(box, column, row, otherColumn, otherRow)
  {
    InsideHas(box, otherColumn, otherRow, column, row);
    assert [(column, row)][1..] == [];
  }

  /** In the whole list, an X and a Z stabilizer share an even number of data qubits. */
  lemma ListCommutes(box: Box, i: nat, j: nat)
    requires IsBox(box) && i < |Stabilizers(box)| && j < |Stabilizers(box)|
    requires Stabilizers(box)[i].kind == X && Stabilizers(box)[j].kind == Z
    ensures SharedQubits(Stabilizers(box)[i].support, Stabilizers(box)[j].support) % 2 == 0
  {
    ListIsKept(box, Columns(box));
    var a, b := Stabilizers(box)[i], Stabilizers(box)[j];
    assert IsOf(box, a) && IsOf(box, b);
    EvenOverlap(box, a.column, a.row, b.column, b.row);
    SharedIsOverlap(box, a.column, a.row, b.column, b.row);
  }

  // ---------------------------------------------------- as the source runs

  method InsideOf(box: Box, column: int, row: int) returns (inside: seq<(int, int)>)
    ensures inside == Inside(box, column, row)
  {
    var offsets := [(0, 0), (0, 1), (1, 0), (1, 1)];
    inside := [];
    var i := 0;
    while i < 4
      invariant 0 <= i <= 4
      invariant inside ==
        (if i > 0 && IsIn(box, column, row) then [(column, row)] else [])
        + (if i > 1 && IsIn(box, column, row + 1) then [(column, row + 1)] else [])
        + (if i > 2 && IsIn(box, column + 1, row) then [(column + 1, row)] else [])
        + (if i > 3 && IsIn(box, column + 1, row + 1) then [(column + 1, row + 1)] else [])
    {
      var corner := (column + offsets[i].0, row + offsets[i].1);
      if IsIn(box, corner.0, corner.1) {
        inside := inside + [corner];
      }
      i := i + 1;
    }
  }

  method ColumnStabilizers(box: Box, column: int) returns (stabilizers: seq<Stabilizer>)
    requires IsBox(box)
    ensures stabilizers == InColumn(box, column, Rows(box))
  {
    stabilizers := [];
    var rows := 0;
    while rows < Rows(box)
      invariant rows <= Rows(box) && stabilizers == InColumn(box, column, rows)
    {
      var row := box.firstRow - 1 + rows;
      var support := InsideOf(box, column, row);
      var halfKind := if IsSide(box, column) then Z else X;
      if |support| == 4 || (|support| == 2 && halfKind == KindOf(column, row)) {
        stabilizers := stabilizers + [Stabilizer(KindOf(column, row), column, row, support)];
      }
      rows := rows + 1;
    }
  }

  /** The rectangle's stabilizers, column by column; there are width times height less one, and
      those of different types overlap evenly. */
  method RectangleStabilizers(box: Box) returns (stabilizers: seq<Stabilizer>)
    requires IsBox(box)
    ensures stabilizers == Stabilizers(box)
    ensures |stabilizers| == (box.lastColumn - box.firstColumn + 1) * (box.lastRow - box.firstRow + 1) - 1
  {
    stabilizers := [];
    var columns := 0;
    while columns < Columns(box)
      invariant columns <= Columns(box) && stabilizers == InColumns(box, columns)
    {
      var more := ColumnStabilizers(box, box.firstColumn - 1 + columns);
      stabilizers := stabilizers + more;
      columns := columns + 1;
    }
    StabilizerCount(box);
  }
}
