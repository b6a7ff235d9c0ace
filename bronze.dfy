/** Shaping the records of a validated file before they are appended to its Bronze file:
    the column-rename map taken from the column-level configuration, deduplication, and the
    removal of records Bronze already holds (an outer merge keeping the left-only rows). */
module Bronze {
  import opened Wrappers
  import opened Seqs
  import opened Tables
  import opened Frames

  /** `dict(zip(keys, vals))` over the configuration's `ColumnName_File` and
      `ColumnName_Bronze` columns: pairs are taken up to the shorter list and a later pair
      overwrites an earlier one with the same key. A pair with a null on either side is
      dropped here, since column names are texts; `dict` would keep it. */
  function ColumnMapping(keys: seq<Cell>, vals: seq<Cell>): (m: map<string, string>)
    ensures forall k :: k in m ==> Value(k) in keys
    decreases |keys|
  {
    var n := if |keys| < |vals| then |keys| else |vals|;
    if n == 0 then map[]
    else
      var rest := ColumnMapping(keys[..n - 1], vals[..n - 1]);
      match (keys[n - 1], vals[n - 1])
      case (Value(k), Value(v)) => rest[k := v]
      case _ => rest
  }

  /** A repeated file-column name takes the bronze name of its last configuration row. */
  lemma {:induction false} MappingLastWins(keys: seq<Cell>, vals: seq<Cell>, i: int, k: string, v: string)
    requires 0 <= i < |keys| && i < |vals|
    requires keys[i] == Value(k) && vals[i] == Value(v)
    requires forall j :: i < j < |keys| && j < |vals| ==> keys[j] != Value(k)
    ensures k in ColumnMapping(keys, vals) && ColumnMapping(keys, vals)[k] == v
    decreases |keys|
  {
    var n := if |keys| < |vals| then |keys| else |vals|;
    if i < n - 1 {
      MappingLastWins(keys[..n - 1], vals[..n - 1], i, k, v);
    }
  }

  /** A column whose name the configuration does not list keeps its name. */
  lemma UnlistedColumnKeepsName(cols: seq<string>, keys: seq<Cell>, vals: seq<Cell>, j: int)
    requires 0 <= j < |cols| && Value(cols[j]) !in keys
    ensures RenameColumns(cols, ColumnMapping(keys, vals))[j] == cols[j]
  {
  }

  /** The columns both frames have, in the left frame's order: the merge keys. */
  function SharedColumns(left: seq<string>, right: seq<string>): (r: seq<string>)
    ensures forall c :: c in r <==> c in left && c in right
  {
    Filter(left, (c: string) => c in right)
  }

  /** The columns only the right frame has, in its order. */
  function RightOnly(left: seq<string>, right: seq<string>): (r: seq<string>)
    ensures forall c :: c in r <==> c in right && c !in left
  {
    Filter(right, (c: string) => c !in left)
  }

  /** The cell of a record under the first column named `c` (null when there is none). */
  function CellAt(columns: seq<string>, rec: Record, c: string): Cell
    decreases |columns|
  {
    if columns == [] || rec == [] then Null
    else if columns[0] == c then rec[0]
    else CellAt(columns[1..], rec[1..], c)
  }

  /** A record's values on the merge keys. */
  function KeyOf(columns: seq<string>, rec: Record, keys: seq<string>): (r: seq<Cell>)
    ensures |r| == |keys|
  {
    seq(|keys|, i requires 0 <= i < |keys| => CellAt(columns, rec, keys[i]))
  }

  function RightKeys(right: Frame, keys: seq<string>): (r: seq<seq<Cell>>)
    ensures |r| == |right.rows|
  {
    seq(|right.rows|, i requires 0 <= i < |right.rows| => KeyOf(right.columns, right.rows[i], keys))
  }

  /** The left records that match no right record on the merge keys, in order. */
  function Unmatched(left: Frame, right: Frame): (r: seq<Record>)
    ensures forall rec :: rec in r <==>
      (rec in left.rows
       && KeyOf(left.columns, rec, SharedColumns(left.columns, right.columns))
          !in RightKeys(right, SharedColumns(left.columns, right.columns)))
  {
    var keys := SharedColumns(left.columns, right.columns);
    var existing := RightKeys(right, keys);
    Filter(left.rows, (rec: Record) => KeyOf(left.columns, rec, keys) !in existing)
  }

  function Nulls(n: nat): (r: Record)
    ensures |r| == n && forall i :: 0 <= i < n ==> r[i] == Null
  {
    seq(n, _ => Null)
  }

  const MergeError: string := "No common columns to perform merge on. Merge options: left_on=None, right_on=None, left_index=False, right_index=False"

  /** `left.merge(right, indicator = True, how = 'outer')` restricted to `left_only` rows,
      with the indicator dropped: the unmatched left records, padded with nulls for the
      right frame's own columns. Without shared columns pandas raises. */
  function AntiJoin(left: Frame, right: Frame): (r: Result<Frame>)
    ensures r.Raised? <==> SharedColumns(left.columns, right.columns) == []
    ensures r.Raised? ==> r.error == MergeError
    ensures r.Ok? ==> r.value.columns == left.columns + RightOnly(left.columns, right.columns)
    ensures r.Ok? ==> |r.value.rows| == |Unmatched(left, right)|
    ensures r.Ok? ==> forall i :: 0 <= i < |r.value.rows| ==>
      r.value.rows[i] == Unmatched(left, right)[i] + Nulls(|RightOnly(left.columns, right.columns)|)
  {
    var keys := SharedColumns(left.columns, right.columns);
    if keys == [] then Raised(MergeError)
    else
      var extra := RightOnly(left.columns, right.columns);
      var kept := Unmatched(left, right);
      Ok(Frame(left.columns + extra, seq(|kept|, i requires 0 <= i < |kept| => kept[i] + Nulls(|extra|))))
  }

  /** Appending columns after a record's own does not change its cell under a column it has. */
  lemma {:induction false} CellAtExtended(columns: seq<string>, rec: Record, more: seq<string>, pad: Record, c: string)
    requires |rec| == |columns| && c in columns
    ensures CellAt(columns + more, rec + pad, c) == CellAt(columns, rec, c)
    decreases |columns|
  {
    if columns[0] != c {
      assert (columns + more)[1..] == columns[1..] + more;
      assert (rec + pad)[1..] == rec[1..] + pad;
      CellAtExtended(columns[1..], rec[1..], more, pad, c);
    }
  }

  /** No row the anti-join keeps agrees with any right row on all the shared columns. */
  lemma AntiJoinNoMatch(left: Frame, right: Frame)
    requires WellFormed(left)
    requires AntiJoin(left, right).Ok?
    ensures var out := AntiJoin(left, right).value;
      var keys := SharedColumns(left.columns, right.columns);
      forall i :: 0 <= i < |out.rows| ==> KeyOf(out.columns, out.rows[i], keys) !in RightKeys(right, keys)
  {
    var out := AntiJoin(left, right).value;
    var keys := SharedColumns(left.columns, right.columns);
    var extra := RightOnly(left.columns, right.columns);
    var kept := Unmatched(left, right);
    forall i | 0 <= i < |out.rows| ensures KeyOf(out.columns, out.rows[i], keys) !in RightKeys(right, keys) {
      var rec := kept[i];
      assert rec in kept;
      assert |rec| == |left.columns|;
      forall j | 0 <= j < |keys| ensures CellAt(out.columns, out.rows[i], keys[j]) == CellAt(left.columns, rec, keys[j]) {
        assert keys[j] in keys;
        CellAtExtended(left.columns, rec, extra, Nulls(|extra|), keys[j]);
      }
      assert KeyOf(out.columns, out.rows[i], keys) == KeyOf(left.columns, rec, keys);
    }
  }

  /** Every left record that matches no right record reaches the output, padded. */
  lemma AntiJoinKeepsUnmatched(left: Frame, right: Frame, rec: Record)
    requires AntiJoin(left, right).Ok?
    requires rec in left.rows
    requires KeyOf(left.columns, rec, SharedColumns(left.columns, right.columns))
      !in RightKeys(right, SharedColumns(left.columns, right.columns))
    ensures rec + Nulls(|RightOnly(left.columns, right.columns)|) in AntiJoin(left, right).value.rows
  {
    var kept := Unmatched(left, right);
    var i :| 0 <= i < |kept| && kept[i] == rec;
    assert AntiJoin(left, right).value.rows[i] == rec + Nulls(|RightOnly(left.columns, right.columns)|);
  }

  /** The records `CopyToBronze` appends: the validated frame with its columns renamed and its
      duplicates dropped, then, only when Bronze already has rows, without the rows Bronze
      holds. */
  function ToCopy(valid: Frame, mapping: map<string, string>, existing: Frame): Result<Frame> {
    var shaped := Frame(RenameColumns(valid.columns, mapping), KeepLast(valid.rows));
    if |existing.rows| > 0 then AntiJoin(shaped, existing) else Ok(shaped)
  }

  /** Into an empty Bronze file every distinct validated record is copied once, under the
      renamed columns; into a non-empty one the copy fails only for want of shared columns,
      and no copied record agrees with a Bronze record on the shared columns. */
  lemma ToCopyRows(valid: Frame, mapping: map<string, string>, existing: Frame)
    requires WellFormed(valid)
    ensures |existing.rows| == 0 ==> ToCopy(valid, mapping, existing).Ok?
    ensures |existing.rows| == 0 ==>
      ToCopy(valid, mapping, existing).value.columns == RenameColumns(valid.columns, mapping)
    ensures |existing.rows| == 0 ==> forall x ::
      x in ToCopy(valid, mapping, existing).value.rows <==> x in valid.rows
    ensures |existing.rows| == 0 ==> var rows := ToCopy(valid, mapping, existing).value.rows;
      forall k, m :: 0 <= k < m < |rows| ==> rows[k] != rows[m]
    ensures |existing.rows| > 0 ==> (ToCopy(valid, mapping, existing).Raised?
      <==> SharedColumns(RenameColumns(valid.columns, mapping), existing.columns) == [])
    ensures |existing.rows| > 0 && ToCopy(valid, mapping, existing).Ok? ==>
      var out := ToCopy(valid, mapping, existing).value;
      var keys := SharedColumns(RenameColumns(valid.columns, mapping), existing.columns);
      forall i :: 0 <= i < |out.rows| ==> KeyOf(out.columns, out.rows[i], keys) !in RightKeys(existing, keys)
  {
    var shaped := Frame(RenameColumns(valid.columns, mapping), KeepLast(valid.rows));
    KeepLastSameRows(valid.rows);
    NoDuplicatesAfterKeepLast(valid.rows);
    if |existing.rows| > 0 && AntiJoin(shaped, existing).Ok? {
      assert WellFormed(shaped) by {
        forall i | 0 <= i < |shaped.rows| ensures |shaped.rows[i]| == |shaped.columns| {
          assert shaped.rows[i] in valid.rows;
        }
      }
      AntiJoinNoMatch(shaped, existing);
    }
  }
}
