/** The two configuration files and how the scripts select from them.

    `ConfigurationFile.txt` has one row per source (its `ConfigurationFileID`, `Source` and
    `Delimiter`); `ConfigurationColumn.txt` has one row per expected column of a source's
    files (its `ConfigurationFileID`, `ColumnName_File` and `ColumnName_Bronze`). A `Sheet` is
    such a file as read: its column names, and its rows seen as dictionaries. */
module Config {
  import opened Wrappers
  import opened Text
  import opened Tables

  datatype Sheet = Sheet(columns: seq<string>, rows: Table)

  /** `pd.DataFrame()`: the empty cache the scripts start with. */
  const NoSheet: Sheet := Sheet([], [])

  /** `DataFrame.empty`. */
  predicate IsEmptySheet(s: Sheet) {
    |s.rows| == 0 || |s.columns| == 0
  }

  function SheetOf(f: Frame): (s: Sheet)
    requires WellFormed(f)
    ensures s.columns == f.columns && |s.rows| == |f.rows|
  {
    Sheet(f.columns, TableOf(f))
  }

  /** `str(KeyError(col))`: the key's `repr`. */
  function KeyError(col: string): (r: string)
    ensures r != "Success"
  {
    var r := Repr(col);
    assert r[0] == '\'' || r[0] == '"';
    r
  }

  /** What `t[[col]]` raises when `col` is not a column. */
  function IndexKeyError(col: string): (r: string)
    ensures r != "Success"
  {
    var head := "\"None of [Index([";
    var r := head + (Repr(col) + "], dtype='object')] are in the [columns]\"");
    assert r[0] == head[0];
    r
  }

  /** `t[t['Source'] == source]`. */
  function SelectBySource(s: Sheet, source: string): (r: Result<Sheet>)
    ensures r.Raised? <==> "Source" !in s.columns
    ensures r.Raised? ==> r.error == KeyError("Source")
    ensures r.Ok? ==> r.value.columns == s.columns
    ensures r.Ok? ==> forall row :: row in r.value.rows <==> row in s.rows && CellOf(row, "Source") == Value(source)
  {
    if "Source" !in s.columns then Raised(KeyError("Source"))
    else Ok(Sheet(s.columns, Where(s.rows, "Source", source)))
  }

  /** `t[t['ConfigurationFileID'] == int(id)]`: the column is looked up before the id is
      converted. */
  function SelectById(s: Sheet, id: Cell): (r: Result<Sheet>)
    ensures "ConfigurationFileID" !in s.columns ==> r == Raised(KeyError("ConfigurationFileID"))
    ensures "ConfigurationFileID" in s.columns && IntOf(id).Raised? ==> r == Raised(IntOf(id).error)
    ensures r.Ok? ==> "ConfigurationFileID" in s.columns && IntOf(id).Ok?
    ensures r.Raised? ==> r.error != "Success"
    ensures r.Ok? ==> r.value.columns == s.columns
    ensures r.Ok? ==> forall row :: row in r.value.rows <==>
      row in s.rows && "ConfigurationFileID" in row && ParseInt(row["ConfigurationFileID"]) == Some(IntOf(id).value)
  {
    if "ConfigurationFileID" !in s.columns then Raised(KeyError("ConfigurationFileID"))
    else
      match IntOf(id)
      case Raised(e) => Raised(e)
      case Ok(n) => Ok(Sheet(s.columns, WhereInt(s.rows, "ConfigurationFileID", n)))
  }

  /** `t[[col]].iloc[0, 0]`: the column's cell in the first row. */
  function Pick(s: Sheet, col: string): (r: Result<Cell>)
    ensures col !in s.columns ==> r == Raised(IndexKeyError(col))
    ensures col in s.columns && |s.rows| == 0 ==> r == Raised("single positional indexer is out-of-bounds")
    ensures col in s.columns && |s.rows| > 0 ==> r == Ok(CellOf(s.rows[0], col))
  {
    if col !in s.columns then Raised(IndexKeyError(col)) else FirstCell(s.rows, col)
  }

  /** `t[col].values.tolist()`. */
  function Column(s: Sheet, col: string): (r: Result<seq<Cell>>)
    ensures r.Raised? <==> col !in s.columns
    ensures r.Raised? ==> r.error == KeyError(col)
    ensures r.Ok? ==> |r.value| == |s.rows|
    ensures r.Ok? ==> forall i :: 0 <= i < |s.rows| ==> r.value[i] == CellOf(s.rows[i], col)
  {
    if col !in s.columns then Raised(KeyError(col)) else Ok(ColumnValues(s.rows, col))
  }

  /** The cell `str()` shows in an f-string: its text, or `nan` for a null. */
  function CellText(c: Cell): string {
    match c
    case Null => "nan"
    case Value(s) => s
  }

  /** Selecting a source and picking a column yields that column of the earliest row of the
      source; when no row has the source, the pick raises. */
  lemma {:induction false} SourceRowIsFirst(s: Sheet, source: string, col: string) returns (i: nat)
    requires "Source" in s.columns && col in s.columns
    requires Where(s.rows, "Source", source) != []
    ensures i < |s.rows| && CellOf(s.rows[i], "Source") == Value(source)
    ensures forall j :: 0 <= j < i ==> CellOf(s.rows[j], "Source") != Value(source)
    ensures Pick(SelectBySource(s, source).value, col) == Ok(CellOf(s.rows[i], col))
  {
    i := FirstMatchIsEarliest(s.rows, "Source", source, col);
  }

  /** The selection holds only rows of the source, and all of them. */
  lemma SelectionComplete(s: Sheet, source: string, i: int)
    requires "Source" in s.columns
    requires 0 <= i < |s.rows| && CellOf(s.rows[i], "Source") == Value(source)
    ensures s.rows[i] in SelectBySource(s, source).value.rows
  {
    assert s.rows[i] in s.rows;
  }
}
