/** Parsed delimited files and the configuration tables read from them.

    A `Frame` is what `pandas.read_csv` hands back: column names and records of cells,
    where an empty field is a null cell (NaN). A configuration `Table` is the same data
    seen row by row as a dictionary from column name to text; a null cell is a missing key. */
module Tables {
  import opened Wrappers
  import opened Text
  import opened Seqs

  datatype Cell = Null | Value(text: string)

  type Record = seq<Cell>

  datatype Frame = Frame(columns: seq<string>, rows: seq<Record>)

  type Row = map<string, string>

  type Table = seq<Row>

  predicate WellFormed(f: Frame) {
    forall i :: 0 <= i < |f.rows| ==> |f.rows[i]| == |f.columns|
  }

  /** `DataFrame.empty`: no rows or no columns. */
  predicate IsEmpty(f: Frame) {
    |f.rows| == 0 || |f.columns| == 0
  }

  /** The cell a row holds for a column (null when the column is absent or empty). */
  function CellOf(r: Row, col: string): Cell {
    if col in r then Value(r[col]) else Null
  }

  /** One record as a row; a later column of the same name wins. */
  function RowOf(columns: seq<string>, rec: Record): (r: Row)
    requires |rec| == |columns|
    ensures forall c :: c in r ==> c in columns
    decreases |columns|
  {
    if columns == [] then map[]
    else
      var rest := RowOf(columns[..|columns| - 1], rec[..|rec| - 1]);
      match rec[|rec| - 1]
      case Null => rest - {columns[|columns| - 1]}
      case Value(s) => rest[columns[|columns| - 1] := s]
  }

  function TableOf(f: Frame): (t: Table)
    requires WellFormed(f)
    ensures |t| == |f.rows|
  {
    seq(|f.rows|, i requires 0 <= i < |f.rows| && WellFormed(f) => RowOf(f.columns, f.rows[i]))
  }

  /** `t[t[col] == v]`: the rows whose `col` holds the text `v`, in table order. */
  function Where(t: Table, col: string, v: string): (r: Table)
    ensures forall row :: row in r <==> row in t && col in row && row[col] == v
  {
    Filter(t, (row: Row) => col in row && row[col] == v)
  }

  /** Selection keeps table order: selecting from two tables one after the other gives the
      two selections one after the other. */
  lemma WhereConcat(t1: Table, t2: Table, col: string, v: string)
    ensures Where(t1 + t2, col, v) == Where(t1, col, v) + Where(t2, col, v)
  {
    FilterConcat(t1, t2, (row: Row) => col in row && row[col] == v);
  }

  /** `t[t[col] == n]` on a numeric column: the rows whose `col` reads as the integer `n`. */
  function WhereInt(t: Table, col: string, n: int): (r: Table)
    ensures forall row :: row in r <==> row in t && col in row && ParseInt(row[col]) == Some(n)
  {
    Filter(t, (row: Row) => col in row && ParseInt(row[col]) == Some(n))
  }

  /** `t[col].values.tolist()`. */
  function ColumnValues(t: Table, col: string): (r: seq<Cell>)
    ensures |r| == |t|
    ensures forall i :: 0 <= i < |t| ==> r[i] == CellOf(t[i], col)
  {
    seq(|t|, i requires 0 <= i < |t| => CellOf(t[i], col))
  }

  /** `[x for x in cells if pd.notnull(x)]`. */
  function NonNull(cells: seq<Cell>): (r: seq<Cell>)
    ensures Null !in r
    ensures forall c :: c in r <==> c in cells && c != Null
  {
    Filter(cells, (c: Cell) => c != Null)
  }

  /** `t[[col]].iloc[0, 0]`: the column's cell in the first row; an empty table raises. */
  function FirstCell(t: Table, col: string): (r: Result<Cell>)
    ensures r.Raised? <==> |t| == 0
    ensures r.Raised? ==> r.error == "single positional indexer is out-of-bounds"
  {
    if |t| == 0 then Raised("single positional indexer is out-of-bounds") else Ok(CellOf(t[0], col))
  }

  /** `int(x)` on a configuration cell: a null cell is the float NaN. */
  function IntOf(c: Cell): (r: Result<int>)
    ensures r.Ok? ==> c.Value? && ParseInt(c.text) == Some(r.value)
    ensures r.Raised? ==> r.error != "Success"
  {
    match c
    case Null => Raised("cannot convert float NaN to integer")
    case Value(s) =>
      match ParseInt(s)
      case Some(n) => Ok(n)
      case None =>
        var head := "invalid literal for int() with base 10: ";
        var e := head + Repr(s);
        assert e[0] == head[0];
        Raised(e)
  }

  /** Filtering by a value and taking the first row yields the earliest matching row. */
  lemma FirstMatchIsEarliest(t: Table, key: string, v: string, col: string) returns (i: nat)
    requires Where(t, key, v) != []
    ensures i < |t| && key in t[i] && t[i][key] == v
    ensures forall j :: 0 <= j < i ==> !(key in t[j] && t[j][key] == v)
    ensures FirstCell(Where(t, key, v), col) == Ok(CellOf(t[i], col))
  {
    i := FilterFirst(t, (row: Row) => key in row && row[key] == v);
  }

  /** No row matches exactly when the filtered table is empty, so `iloc` raises. */
  lemma NoMatchRaises(t: Table, key: string, v: string, col: string)
    requires forall j :: 0 <= j < |t| ==> !(key in t[j] && t[j][key] == v)
    ensures FirstCell(Where(t, key, v), col).Raised?
  {
    var w := Where(t, key, v);
    assert forall k :: 0 <= k < |w| ==> w[k] in t && !(key in w[k] && w[k][key] == v);
  }
}
