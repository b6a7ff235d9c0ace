/** In-memory data frames and the in-place edits the scripts make to them: renaming
    columns, dropping duplicate rows keeping the last, and setting a column to one value. */
module Frames {
  import opened Tables

  /** `columns.rename(mapping)`: a mapped name is replaced, any other name is kept. */
  function RenameColumns(cols: seq<string>, mapping: map<string, string>): (r: seq<string>)
    ensures |r| == |cols|
    ensures forall i :: 0 <= i < |cols| && cols[i] !in mapping ==> r[i] == cols[i]
    ensures forall i :: 0 <= i < |cols| && cols[i] in mapping ==> r[i] == mapping[cols[i]]
  {
    seq(|cols|, i requires 0 <= i < |cols| => if cols[i] in mapping then mapping[cols[i]] else cols[i])
  }

  /** The row at `i` does not occur again later. */
  predicate IsLast(rows: seq<Record>, i: int)
    requires 0 <= i < |rows|
  {
    rows[i] !in rows[i + 1..]
  }

  /** Positions from `from` on whose row does not occur again later, ascending. */
  function LastIndices(rows: seq<Record>, from: nat): (r: seq<nat>)
    requires from <= |rows|
    ensures forall k :: 0 <= k < |r| ==> from <= r[k] < |rows| && IsLast(rows, r[k])
    ensures forall k, m :: 0 <= k < m < |r| ==> r[k] < r[m]
    ensures forall i :: from <= i < |rows| && IsLast(rows, i) ==> i in r
    decreases |rows| - from
  {
    if from == |rows| then []
    else (if IsLast(rows, from) then [from] else []) + LastIndices(rows, from + 1)
  }

  /** `drop_duplicates(keep = 'last')`: the rows that do not occur again later, in order. */
  function KeepLast(rows: seq<Record>): (r: seq<Record>)
    ensures |r| <= |rows|
  {
    var idx := LastIndices(rows, 0);
    assert |idx| <= |rows| by { IndicesBound(idx, |rows|); }
    seq(|idx|, k requires 0 <= k < |idx| => rows[idx[k]])
  }

  /** A strictly increasing list of positions below `n` has at most `n` entries. */
  lemma {:induction false} IndicesBound(idx: seq<nat>, n: nat)
    requires forall k :: 0 <= k < |idx| ==> idx[k] < n
    requires forall k, m :: 0 <= k < m < |idx| ==> idx[k] < idx[m]
    ensures |idx| <= n
    decreases n
  {
    if idx != [] {
      var last := idx[|idx| - 1];
      var front := idx[..|idx| - 1];
      assert forall k :: 0 <= k < |front| ==> front[k] < last;
      IndicesBound(front, last);
    }
  }

  /** Every row occurs at a position where it is the last occurrence, at or after its own. */
  lemma {:induction false} LastOccurrence(rows: seq<Record>, i: int) returns (j: int)
    requires 0 <= i < |rows|
    ensures i <= j < |rows| && rows[j] == rows[i] && IsLast(rows, j)
    decreases |rows| - i
  {
    if IsLast(rows, i) {
      j := i;
    } else {
      var k :| i + 1 <= k < |rows| && rows[k] == rows[i] by {
        var t := rows[i + 1..];
        var m :| 0 <= m < |t| && t[m] == rows[i];
        assert rows[i + 1 + m] == rows[i];
      }
      j := LastOccurrence(rows, k);
    }
  }

  /** After keep-last deduplication no two rows are equal. */
  lemma NoDuplicatesAfterKeepLast(rows: seq<Record>)
    ensures forall k, m :: 0 <= k < m < |KeepLast(rows)| ==> KeepLast(rows)[k] != KeepLast(rows)[m]
  {
    var idx := LastIndices(rows, 0);
    var r := KeepLast(rows);
    forall k, m | 0 <= k < m < |r| ensures r[k] != r[m] {
      var a, b := idx[k], idx[m];
      assert a < b;
      assert rows[b] in rows[a + 1..] by {
        assert rows[a + 1..][b - a - 1] == rows[b];
      }
    }
  }

  /** Every input row has an equal survivor, and every survivor is an input row. */
  lemma KeepLastSameRows(rows: seq<Record>)
    ensures forall x :: x in KeepLast(rows) <==> x in rows
  {
    var idx := LastIndices(rows, 0);
    var r := KeepLast(rows);
    forall x | x in rows ensures x in r {
      var i :| 0 <= i < |rows| && rows[i] == x;
      var j := LastOccurrence(rows, i);
      var k :| 0 <= k < |idx| && idx[k] == j;
      assert r[k] == x;
    }
  }

  /** The survivors are exactly the last occurrences, taken in their original order: the
      k-th survivor is the row at the k-th position holding a last occurrence. */
  lemma KeepLastIsLastOccurrences(rows: seq<Record>) returns (idx: seq<nat>)
    ensures |idx| == |KeepLast(rows)|
    ensures forall k, m :: 0 <= k < m < |idx| ==> idx[k] < idx[m]
    ensures forall k :: 0 <= k < |idx| ==> idx[k] < |rows| && KeepLast(rows)[k] == rows[idx[k]]
    ensures forall k :: 0 <= k < |idx| ==> IsLast(rows, idx[k])
    ensures forall i :: 0 <= i < |rows| && IsLast(rows, i) ==> i in idx
  {
    idx := LastIndices(rows, 0);
  }

  /** The header after `df[name] = value`: a new name is appended, an existing one stays. */
  function WithName(columns: seq<string>, name: string): (r: seq<string>)
    ensures |columns| <= |r| && name in r && r[..|columns|] == columns
    ensures forall c :: c in r <==> c in columns || c == name
  {
    if name in columns then columns else columns + [name]
  }

  /** `df[name] = value`: every column of that name is set; a new name is appended. */
  function WithColumn(f: Frame, name: string, value: string): (r: Frame)
    requires WellFormed(f)
    ensures WellFormed(r)
    ensures |r.rows| == |f.rows|
    ensures r.columns == WithName(f.columns, name)
    ensures forall i, j ::
      0 <= i < |r.rows| && 0 <= j < |r.columns| && r.columns[j] == name ==> r.rows[i][j] == Value(value)
    ensures forall i, j ::
      0 <= i < |f.rows| && 0 <= j < |f.columns| && f.columns[j] != name ==> r.rows[i][j] == f.rows[i][j]
  {
    if name in f.columns then
      Frame(f.columns, seq(|f.rows|, i requires 0 <= i < |f.rows| =>
        seq(|f.columns|, j requires 0 <= j < |f.columns| =>
          if f.columns[j] == name then Value(value) else f.rows[i][j])))
    else
      Frame(f.columns + [name], seq(|f.rows|, i requires 0 <= i < |f.rows| => f.rows[i] + [Value(value)]))
  }

  /** A pandas data frame that the scripts edit in place; callers share it by reference. */
  class DataFrame {
    var columns: seq<string>
    var rows: seq<Record>

    constructor(f: Frame)
      ensures columns == f.columns && rows == f.rows
    {
      columns := f.columns;
      rows := f.rows;
    }

    function Contents(): Frame
      reads this
    {
      Frame(columns, rows)
    }

    /** `rename(columns = mapping, inplace = True)`. */
    method Rename(mapping: map<string, string>)
      modifies this
      ensures columns == RenameColumns(old(columns), mapping)
      ensures rows == old(rows)
    {
      columns := RenameColumns(columns, mapping);
    }

    /** `drop_duplicates(keep = 'last', inplace = True)`. */
    method DropDuplicatesKeepLast()
      modifies this
      ensures rows == KeepLast(old(rows))
      ensures columns == old(columns)
    {
      rows := KeepLast(rows);
    }

    /** `df[name] = value`. */
    method SetColumn(name: string, value: string)
      requires WellFormed(Contents())
      modifies this
      ensures Contents() == WithColumn(old(Contents()), name, value)
    {
      var f := WithColumn(Contents(), name, value);
      columns := f.columns;
      rows := f.rows;
    }
  }
}
