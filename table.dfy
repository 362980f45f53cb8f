/** The table widget: the column definitions it derives from its `columns`
    prop, and the row order that dragging one row onto another changes. */
module Table {
  import opened Common

  /* ---------- column definitions ---------- */

  /** A column of the `columns` prop; `None` is an `undefined` property. */
  datatype Column = Column(name: string, displayName: Option<string>, width: Option<int>,
                           minSize: Option<int>, maxSize: Option<int>, enableResizing: Option<bool>)

  /** The `options` prop, as far as column sizing reads it. */
  datatype TableOptions = TableOptions(minColumnSize: Option<int>)

  /** The definition handed to the table library: `accessor` is the key rows are
      read by, `size` and `maxSize` are present only when the column defines them,
      and `headerLabel` is what the header asks `columnRenderer` to draw. */
  datatype ColumnDef = ColumnDef(accessor: string, id: string, size: Option<int>, maxSize: Option<int>,
                                 minSize: int, enableResizing: bool, headerLabel: string)

  /** The minimum width when neither the column nor the options give one. */
  const DefaultMinSize: int := 50

  /** One column's definition: each property falls back from the column to the
      table options to a constant. */
  function ColumnDefOf(c: Column, options: TableOptions): (d: ColumnDef)
    ensures d.accessor == c.name && d.id == c.name
    ensures d.size == c.width && d.maxSize == c.maxSize
    ensures c.minSize.Some? ==> d.minSize == c.minSize.value
    ensures c.minSize.None? && options.minColumnSize.Some? ==> d.minSize == options.minColumnSize.value
    ensures c.minSize.None? && options.minColumnSize.None? ==> d.minSize == DefaultMinSize
    ensures d.enableResizing <==> c.enableResizing == Some(true)
    ensures d.headerLabel == if c.displayName.Some? then c.displayName.value else c.name
  {
    ColumnDef(c.name, c.name, c.width, c.maxSize,
              c.minSize.GetOr(options.minColumnSize.GetOr(DefaultMinSize)),
              c.enableResizing.GetOr(false),
              c.displayName.GetOr(c.name))
  }

  /** `columnDisplay`: exactly one definition per column, in column order. */
  function ColumnDisplay(cols: seq<Column>, options: TableOptions): (ds: seq<ColumnDef>)
    ensures |ds| == |cols|
    ensures forall i :: 0 <= i < |cols| ==> ds[i] == ColumnDefOf(cols[i], options)
    decreases |cols|
  {
    if cols == [] then [] else [ColumnDefOf(cols[0], options)] + ColumnDisplay(cols[1..], options)
  }

  /* ---------- row reordering ---------- */

  /** A slot of `tableData`: a row, or the `undefined` that `drop` inserts when
      `dragId` is past the end. */
  datatype Slot<T> = Undefined | Item(row: T)

  /** `s.splice(start, 1)`: the remaining elements and the removed ones. */
  function SpliceOut<T>(s: seq<T>, start: nat): (r: (seq<T>, seq<T>))
    ensures start < |s| ==> r.0 == s[..start] + s[start + 1..] && r.1 == [s[start]]
    ensures start >= |s| ==> r.0 == s && r.1 == []
  {
    if start < |s| then (s[..start] + s[start + 1..], [s[start]]) else (s, [])
  }

  function Min(a: nat, b: nat): nat {
    if a < b then a else b
  }

  /** `s.splice(start, 0, x)`: `x` is inserted at `start`, or at the end when `start` is past it. */
  function SpliceIn<T>(s: seq<T>, start: nat, x: T): (r: seq<T>)
    ensures |r| == |s| + 1
    ensures r[Min(start, |s|)] == x
    ensures r[..Min(start, |s|)] == s[..Min(start, |s|)] && r[Min(start, |s|) + 1..] == s[Min(start, |s|)..]
  {
    var k := Min(start, |s|);
    s[..k] + [x] + s[k..]
  }

  /** `drop(rowIndex)`: the row at `dragId` is taken out and re-inserted at `rowIndex`. */
  function Dropped<T>(rows: seq<Slot<T>>, dragId: nat, rowIndex: nat): seq<Slot<T>> {
    var (rest, removed) := SpliceOut(rows, dragId);
    SpliceIn(rest, rowIndex, if removed == [] then Undefined else removed[0])
  }

  /** Where the moved row ends up. */
  function Landing(n: nat, rowIndex: nat): nat
    requires n > 0
  {
    Min(rowIndex, n - 1)
  }

  /** With a `dragId` on a row, dropping keeps the length and the multiset of rows. */
  lemma DropIsPermutation<T>(rows: seq<Slot<T>>, dragId: nat, rowIndex: nat)
    requires dragId < |rows|
    ensures |Dropped(rows, dragId, rowIndex)| == |rows|
    ensures multiset(Dropped(rows, dragId, rowIndex)) == multiset(rows)
  {
    var rest := rows[..dragId] + rows[dragId + 1..];
    var k := Min(rowIndex, |rest|);
    var x := rows[dragId];
    assert rows == rows[..dragId] + [x] + rows[dragId + 1..];
    assert multiset(rows) == multiset(rest) + multiset{x};
    assert rest == rest[..k] + rest[k..];
    assert Dropped(rows, dragId, rowIndex) == rest[..k] + [x] + rest[k..];
    assert multiset(rest[..k] + [x] + rest[k..]) == multiset(rest[..k]) + multiset{x} + multiset(rest[k..]);
  }

  /** The dragged row lands at `rowIndex`, or last when `rowIndex` is past the end. */
  lemma DropPlacesRow<T>(rows: seq<Slot<T>>, dragId: nat, rowIndex: nat)
    requires dragId < |rows|
    ensures Dropped(rows, dragId, rowIndex)[Landing(|rows|, rowIndex)] == rows[dragId]
  {
  }

  /** The other rows keep their relative order: taking the moved row out again
      leaves what taking it out of the original left. */
  lemma DropKeepsOtherRowsInOrder<T>(rows: seq<Slot<T>>, dragId: nat, rowIndex: nat)
    requires dragId < |rows|
    ensures SpliceOut(Dropped(rows, dragId, rowIndex), Landing(|rows|, rowIndex)).0 == SpliceOut(rows, dragId).0
  {
    var rest := SpliceOut(rows, dragId).0;
    var d := Dropped(rows, dragId, rowIndex);
    var k := Landing(|rows|, rowIndex);
    assert d[..k] == rest[..k] && d[k + 1..] == rest[k..];
    assert rest == rest[..k] + rest[k..];
  }

  /** Dropping a row onto itself changes nothing. */
  lemma DropOntoItselfIsNoop<T>(rows: seq<Slot<T>>, dragId: nat)
    requires dragId < |rows|
    ensures Dropped(rows, dragId, dragId) == rows
  {
    var rest := SpliceOut(rows, dragId).0;
    assert rest[..dragId] == rows[..dragId] && rest[dragId..] == rows[dragId + 1..];
    assert rows == rows[..dragId] + [rows[dragId]] + rows[dragId + 1..];
  }

  /** With a stale `dragId` past the end nothing is removed, and `undefined` is
      inserted at `rowIndex` (or appended). */
  lemma DropFromPastEndInsertsUndefined<T>(rows: seq<Slot<T>>, dragId: nat, rowIndex: nat)
    requires dragId >= |rows|
    ensures |Dropped(rows, dragId, rowIndex)| == |rows| + 1
    ensures Dropped(rows, dragId, rowIndex)[Min(rowIndex, |rows|)] == Undefined
    ensures SpliceOut(Dropped(rows, dragId, rowIndex), Min(rowIndex, |rows|)).0 == rows
  {
    var d := Dropped(rows, dragId, rowIndex);
    var k := Min(rowIndex, |rows|);
    assert d[..k] == rows[..k] && d[k + 1..] == rows[k..];
    assert rows == rows[..k] + rows[k..];
  }

  /** The table's row state: `tableData` and the index recorded by `drag`. */
  class RowTable<T> {
    var tableData: seq<Slot<T>>
    var dragId: nat

    constructor ()
      ensures tableData == [] && dragId == 0
    {
      tableData, dragId := [], 0;
    }

    /** The effect that copies the `data` prop into `tableData` whenever it changes. */
    method SetData(data: seq<Slot<T>>)
      modifies this`tableData
      ensures tableData == data
    {
      tableData := data;
    }

    /** `drag(rowIndex)`: records the dragged row; the rows are not touched. */
    method Drag(rowIndex: nat)
      modifies this`dragId
      ensures dragId == rowIndex
    {
      dragId := rowIndex;
    }

    /** `drop(rowIndex)`: the two `splice` calls on `tableData`. */
    method Drop(rowIndex: nat)
      modifies this`tableData
      ensures tableData == Dropped(old(tableData), dragId, rowIndex)
      ensures dragId < |old(tableData)| ==> multiset(tableData) == multiset(old(tableData))
      ensures dragId < |old(tableData)| ==> |tableData| == |old(tableData)|
      ensures dragId < |old(tableData)| ==> tableData[Landing(|tableData|, rowIndex)] == old(tableData)[dragId]
    {
      ghost var before := tableData;
      var (rest, removed) := SpliceOut(tableData, dragId);
      tableData := SpliceIn(rest, rowIndex, if removed == [] then Undefined else removed[0]);
      if dragId < |before| {
        DropIsPermutation(before, dragId, rowIndex);
        DropPlacesRow(before, dragId, rowIndex);
      }
    }
  }
}
