/** The decision rules of the Admin variant of the Bronze load (Admin/LoadFileToBronze.py),
    as functions of what the script reads: which names are read, how a file's header is
    stamped and judged, what becomes of each file, and how a source's configuration is
    resolved from the cached configuration tables. The script's steps, which carry these
    decisions out on the shared file system and log, are in module `AdminLoadFileToBronze`. */
module AdminRules {
  import opened Wrappers
  import opened Text
  import opened Paths
  import opened Tables
  import opened Logging
  import opened Headers
  import opened Files
  import opened Frames
  import opened Config
  import opened AdminUtilities
  import LoadFileToBronze

  /** Only names ending in `.csv` or `.txt` are read; the test ignores letter case. */
  predicate AdminIngestible(name: string) {
    EndsWith(Lower(name), ".csv") || EndsWith(Lower(name), ".txt")
  }

  /** Every name the root script reads is read here too, and `A.CSV` only here. */
  lemma IngestibleIgnoresCase(name: string)
    ensures LoadFileToBronze.Ingestible(name) ==> AdminIngestible(name)
    ensures AdminIngestible("A.CSV") && !LoadFileToBronze.Ingestible("A.CSV")
  {
    if EndsWith(name, ".csv") || EndsWith(name, ".txt") {
      var k := |name| - 4;
      assert Lower(name)[k..] == Lower(name[k..]);
    }
    assert Lower("A.CSV")[1..] == ".csv";
    assert "A.CSV"[1..] != ".csv";
  }

  /** `name.replace(ext, '')`: the name with every occurrence of its extension removed. */
  function Stem(name: string): string {
    ReplaceAll(name, SplitExt(name).1, "")
  }

  /** The name an empty file would be given: `.Empty` before the extension. */
  function EmptyName(name: string): string {
    Stem(name) + ".Empty" + SplitExt(name).1
  }

  /** The name of a file with a mismatching header: `.InvalidColumnHeader.` and the issue
      tag before the extension. */
  function InvalidHeaderName(name: string, issue: string): string {
    Stem(name) + ".InvalidColumnHeader." + issue + SplitExt(name).1
  }

  /** Removing a trailing pattern that starts with a dot from a dot-free string leaves the
      string. */
  lemma {:induction false} ReplaceTrailing(base: string, pat: string)
    requires pat != [] && pat[0] == '.' && '.' !in base
    ensures ReplaceAll(base + pat, pat, "") == base
    decreases |base|
  {
    var s := base + pat;
    if base == [] {
      assert s[..|pat|] == pat && s[|pat|..] == [];
    } else {
      assert s[0] == base[0] != '.';
      assert s[..|pat|] != pat;
      assert s[1..] == base[1..] + pat;
      ReplaceTrailing(base[1..], pat);
      assert [base[0]] + base[1..] == base;
    }
  }

  /** For a plain name `base.ext` whose base has no dot, the two computed names are
      `base.Empty.ext` and `base.InvalidColumnHeader.<issue>.ext`. */
  lemma RenamedNames(base: string, ext: string, issue: string)
    requires base != [] && NoSep(base) && '.' !in base
    requires NoSep(ext) && '.' !in ext
    ensures EmptyName(base + "." + ext) == base + ".Empty." + ext
    ensures InvalidHeaderName(base + "." + ext, issue) == base + ".InvalidColumnHeader." + issue + "." + ext
  {
    assert base[0] != '.';
    SplitExtOfName(base, ext);
    assert base + "." + ext == base + ("." + ext);
    ReplaceTrailing(base, "." + ext);
  }

  /** The names of the four standard columns, in the order they are set. */
  const StandardColumns: seq<string> := ["ExecutionGUID", "IngestDatetime", "Source", "SourceFile"]

  /** The header of a file once the four standard columns are set on it. */
  function StampedHeader(columns: seq<string>): (r: seq<string>)
    ensures |columns| <= |r| && r[..|columns|] == columns
    ensures forall c :: c in r <==> c in columns || c in StandardColumns
  {
    var a := WithName(columns, "ExecutionGUID");
    var b := WithName(a, "IngestDatetime");
    var c := WithName(b, "Source");
    var d := WithName(c, "SourceFile");
    assert d[..|columns|] == c[..|b|][..|a|][..|columns|];
    d
  }

  /** A file that has none of the standard columns gets all four, after its own, in order. */
  lemma StampedHeaderAppends(columns: seq<string>)
    requires forall c :: c in StandardColumns ==> c !in columns
    ensures StampedHeader(columns) == columns + StandardColumns
  {
    var s := StandardColumns;
    assert s[0] !in columns && s[1] !in columns && s[2] !in columns && s[3] !in columns;
    var a := columns + [s[0]];
    assert WithName(columns, s[0]) == a;
    var b := a + [s[1]];
    assert s[1] !in a by { assert s[1] != s[0]; }
    assert WithName(a, s[1]) == b;
    var c := b + [s[2]];
    assert s[2] !in b by { assert s[2] != s[0] && s[2] != s[1]; }
    assert WithName(b, s[2]) == c;
    assert s[3] !in c by { assert s[3] != s[0] && s[3] != s[1] && s[3] != s[2]; }
    assert WithName(c, s[3]) == c + [s[3]] == columns + s;
  }

  /** The expected header of the current source: the configured file-column names without
      the null ones; a configuration without that column raises. */
  function ExpectedHeader(cols: Sheet): (r: Result<seq<Cell>>)
    ensures r.Raised? <==> "ColumnName_File" !in cols.columns
    ensures r.Raised? ==> r.error == KeyError("ColumnName_File")
  {
    match Column(cols, "ColumnName_File")
    case Raised(e) => Raised(e)
    case Ok(names) => Ok(NonNull(names))
  }

  /** The expected header holds exactly the non-null names the configuration rows give. */
  lemma ExpectedHeaderNames(cols: Sheet)
    requires ExpectedHeader(cols).Ok?
    ensures Null !in ExpectedHeader(cols).value
    ensures forall i :: 0 <= i < |cols.rows| && "ColumnName_File" in cols.rows[i] ==>
      Value(cols.rows[i]["ColumnName_File"]) in ExpectedHeader(cols).value
    ensures forall c :: c in ExpectedHeader(cols).value ==>
      exists i :: 0 <= i < |cols.rows| && CellOf(cols.rows[i], "ColumnName_File") == c
  {
    var names := Column(cols, "ColumnName_File").value;
    assert forall i :: 0 <= i < |cols.rows| ==> names[i] == CellOf(cols.rows[i], "ColumnName_File");
  }

  /** What `ProcessInboundFile` does with one file, from what it reads. */
  datatype Disposition =
    | Skipped                                  // not a .csv/.txt name: nothing is read
    | Failed(line: nat, error: string)         // an exception at `line`: the read, or the configuration
    | EmptyFile(renamed: string)               // read as empty: a new name is computed, nothing moves
    | Accepted(actual: seq<Cell>, expected: seq<Cell>)   // the stamped header matches
    | Rejected(actual: seq<Cell>, expected: seq<Cell>, issue: string, target: string)
                                               // a mismatch: the file goes to `target` in the Error folder

  /** The disposition of the file at `path`, given how it reads, the column configuration
      of its source and the source's Error folder. */
  function Dispose(read: Result<Frame>, path: string, cols: Sheet, errorFolder: string): Disposition
    requires read.Raised? ==> read.error != ResultSuccess
  {
    var name := BaseName(path);
    if !AdminIngestible(name) then Skipped
    else
      match read
      case Raised(e) => Failed(193, e)
      case Ok(frame) =>
        if IsEmpty(frame) then EmptyFile(EmptyName(name)) else Checked(frame, name, cols, errorFolder)
  }

  /** The blanked path of `ProcessInboundFile` (line 176) names no file to process: every
      read is passed over, while `DisposeCases` shows that a `.csv`/`.txt` path is not. */
  lemma BlankPathSkipped(read: Result<Frame>, cols: Sheet, errorFolder: string)
    requires read.Raised? ==> read.error != ResultSuccess
    ensures BaseName("") == "" && !AdminIngestible("")
    ensures Dispose(read, "", cols, errorFolder) == Skipped
  {
    DisposeCases(read, "", cols, errorFolder);
    assert BaseName("") == "";
  }

  /** The disposition of a non-empty file named `name`, read as `frame`: decided by its
      stamped header against the expected one. */
  function Checked(frame: Frame, name: string, cols: Sheet, errorFolder: string): Disposition {
    CheckedAgainst(ExpectedHeader(cols), Names(StampedHeader(frame.columns)), name, errorFolder)
  }

  /** The disposition of a file with the stamped header `actual`, given the expected header
      as the configuration yields it: a configuration without the column fails at line 208. */
  function CheckedAgainst(expected: Result<seq<Cell>>, actual: seq<Cell>, name: string, errorFolder: string)
    : Disposition
  {
    match expected
    case Raised(e) => Failed(208, e)
    case Ok(x) => Judged(actual, x, name, errorFolder)
  }

  /** The verdict on a stamped header `actual` against the `expected` one: accepted when they
      match, otherwise rejected, to go to `errorFolder` under a name carrying the mismatch. */
  function Judged(actual: seq<Cell>, expected: seq<Cell>, name: string, errorFolder: string): Disposition {
    if Matches(actual, expected) then Accepted(actual, expected)
    else
      var issue := JoinedIssue(actual, expected);
      Rejected(actual, expected, issue, Join(errorFolder, InvalidHeaderName(name, issue)))
  }

  /** What each disposition means: a file is passed over exactly when its name is not
      `.csv`/`.txt`; a failed read fails at line 193 and a configuration without the column
      at line 208; a file read as empty is only given a new name; a non-empty file is
      accepted exactly when its stamped header matches the expected one, and otherwise goes
      to the Error folder under a name carrying the mismatch. */
  lemma DisposeCases(read: Result<Frame>, path: string, cols: Sheet, errorFolder: string)
    requires read.Raised? ==> read.error != ResultSuccess
    ensures var d := Dispose(read, path, cols, errorFolder);
      d == Skipped <==> !AdminIngestible(BaseName(path))
    ensures var d := Dispose(read, path, cols, errorFolder);
      d.Failed? ==> d.error != ResultSuccess && (d.line == 193 <==> read.Raised?)
    ensures var d := Dispose(read, path, cols, errorFolder);
      d.EmptyFile? <==> AdminIngestible(BaseName(path)) && read.Ok? && IsEmpty(read.value)
    ensures var d := Dispose(read, path, cols, errorFolder);
      d.EmptyFile? ==> d.renamed == EmptyName(BaseName(path))
    ensures var d := Dispose(read, path, cols, errorFolder);
      d.Accepted? || d.Rejected? ==>
        read.Ok? && !IsEmpty(read.value) && ExpectedHeader(cols).Ok?
        && d.actual == Names(StampedHeader(read.value.columns)) && d.expected == ExpectedHeader(cols).value
    ensures var d := Dispose(read, path, cols, errorFolder);
      d.Accepted? ==> Matches(d.actual, d.expected)
    ensures var d := Dispose(read, path, cols, errorFolder);
      d.Rejected? ==>
        !Matches(d.actual, d.expected) && d.issue == JoinedIssue(d.actual, d.expected) && d.issue != ""
        && d.target == Join(errorFolder, InvalidHeaderName(BaseName(path), d.issue))
  {
    var name := BaseName(path);
    if AdminIngestible(name) && read.Ok? && !IsEmpty(read.value) && ExpectedHeader(cols).Raised? {
      assert ExpectedHeader(cols).error == KeyError("ColumnName_File");
    }
  }

  /** The standard columns take part in the header check: unless the configuration lists
      all four, every non-empty file is rejected with extra columns. */
  lemma StandardColumnsMustBeConfigured(read: Result<Frame>, path: string, cols: Sheet, errorFolder: string, c: string)
    requires read.Raised? ==> read.error != ResultSuccess
    requires c in StandardColumns
    requires ExpectedHeader(cols).Ok? && Value(c) !in ExpectedHeader(cols).value
    requires AdminIngestible(BaseName(path)) && read.Ok? && !IsEmpty(read.value)
    ensures Dispose(read, path, cols, errorFolder).Rejected?
    ensures StartsWith(Dispose(read, path, cols, errorFolder).issue, "ExtraColumns")
  {
    var actual := Names(StampedHeader(read.value.columns));
    var expected := ExpectedHeader(cols).value;
    assert c in StampedHeader(read.value.columns);
    var j :| 0 <= j < |StampedHeader(read.value.columns)| && StampedHeader(read.value.columns)[j] == c;
    assert actual[j] == Value(c);
    assert Value(c) in ExtraColumns(actual, expected);
    ExtraIssue(actual, expected);
  }

  /** With an extra column, the issue tag starts with `ExtraColumns`. */
  lemma ExtraIssue(actual: seq<Cell>, expected: seq<Cell>)
    requires ExtraColumns(actual, expected) != []
    ensures StartsWith(JoinedIssue(actual, expected), "ExtraColumns")
  {
    if MissingColumns(actual, expected) != [] {
      assert "ExtraColumns.MissingColumns"[..12] == "ExtraColumns";
    } else {
      assert "ExtraColumns"[..12] == "ExtraColumns";
    }
  }

  /** The path a move actually renames: the folder and the name of `p` joined again. */
  function Rejoined(p: string): string {
    Join(DirName(p), BaseName(p))
  }

  /** The last entry of `ProcessInboundFile`: Info, whatever the result, with the file. */
  function FileDone(r: string, file: string): (n: Note)
    ensures n.severity == Some(SeverityInfo) && n.result == Some(r) && n.file == Some(file)
  {
    Note(Some(SeverityInfo), Some(r), Some(file))
  }

  /** A message made of a fixed head longer than "Success", then a path. */
  function HeadedPath(head: string, path: string): (r: string)
    requires |head| > |ResultSuccess|
    ensures r != ResultSuccess && EndsWith(r, path)
  {
    var r := head + path;
    assert r[|r| - |path|..] == path;
    r
  }

  /** The result of a folder with no entries. */
  function NoFilesMessage(folder: string): (r: string)
    ensures r != ResultSuccess && EndsWith(r, folder)
  {
    HeadedPath("No files were found for processing in ", folder)
  }

  /** How the configuration of a source resolves: its file-level rows are selected, the
      first of them gives the id and the delimiter, and the column-level rows of that id are
      selected. */
  datatype Resolution =
    | Unresolved(line: nat, error: string)      // an exception at `line`
    | NoFileConfig                              // no file-level row names the source
    | NoColumnConfig(id: Cell, delimiter: Cell, columnRows: Sheet) // no column-level row has the source's id
    | Resolved(id: Cell, delimiter: Cell, columnRows: Sheet)       // both found: the files can be processed

  function Resolve(fileAll: Sheet, columnAll: Sheet, source: string): Resolution {
    match SelectBySource(fileAll, source)
    case Raised(e) => Unresolved(275, e)
    case Ok(fileRows) =>
      if |fileRows.rows| == 0 then NoFileConfig
      else
        match Pick(fileRows, "ConfigurationFileID")
        case Raised(e) => Unresolved(282, e)
        case Ok(id) =>
          match Pick(fileRows, "Delimiter")
          case Raised(e) => Unresolved(285, e)
          case Ok(delimiter) =>
            match SelectById(columnAll, id)
            case Raised(e) => Unresolved(288, e)
            case Ok(columnRows) =>
              if |columnRows.rows| == 0 then NoColumnConfig(id, delimiter, columnRows)
              else Resolved(id, delimiter, columnRows)
  }

  /** A configuration without a `Source` column fails at once, and a source that no
      file-level row names has no file configuration. */
  lemma ResolveSelects(fileAll: Sheet, columnAll: Sheet, source: string)
    ensures var res := Resolve(fileAll, columnAll, source);
      res == Unresolved(275, KeyError("Source")) <==> "Source" !in fileAll.columns
    ensures var res := Resolve(fileAll, columnAll, source);
      res.NoFileConfig? <==>
        "Source" in fileAll.columns && forall j :: 0 <= j < |fileAll.rows| ==> CellOf(fileAll.rows[j], "Source") != Value(source)
  {
    if "Source" in fileAll.columns {
      var sel := SelectBySource(fileAll, source).value;
      if |sel.rows| == 0 {
        forall j | 0 <= j < |fileAll.rows| ensures CellOf(fileAll.rows[j], "Source") != Value(source) {
          if CellOf(fileAll.rows[j], "Source") == Value(source) {
            SelectionComplete(fileAll, source, j);
          }
        }
      } else {
        assert sel.rows[0] in sel.rows;
      }
    }
  }

  /** Once the file-level rows are found, the id and the delimiter are those of the
      earliest row of the source. */
  lemma ResolveFirstRow(fileAll: Sheet, columnAll: Sheet, source: string) returns (i: nat)
    requires Resolve(fileAll, columnAll, source).NoColumnConfig? || Resolve(fileAll, columnAll, source).Resolved?
    ensures var res := Resolve(fileAll, columnAll, source);
      i < |fileAll.rows| && CellOf(fileAll.rows[i], "Source") == Value(source)
      && (forall j :: 0 <= j < i ==> CellOf(fileAll.rows[j], "Source") != Value(source))
      && res.id == CellOf(fileAll.rows[i], "ConfigurationFileID")
      && res.delimiter == CellOf(fileAll.rows[i], "Delimiter")
  {
    var sel := SelectBySource(fileAll, source).value;
    assert sel.rows[0] in sel.rows;
    assert Where(fileAll.rows, "Source", source) != [];
    i := SourceRowIsFirst(fileAll, source, "ConfigurationFileID");
    var i2 := SourceRowIsFirst(fileAll, source, "Delimiter");
    assert i2 == i;
  }

  /** With the id found, the source resolves exactly when some column-level row carries it. */
  lemma ResolveColumns(fileAll: Sheet, columnAll: Sheet, source: string)
    requires Resolve(fileAll, columnAll, source).NoColumnConfig? || Resolve(fileAll, columnAll, source).Resolved?
    ensures var res := Resolve(fileAll, columnAll, source);
      "ConfigurationFileID" in columnAll.columns && IntOf(res.id).Ok?
      && (forall row :: row in res.columnRows.rows <==> row in columnAll.rows && Carries(row, IntOf(res.id).value))
      && (res.Resolved? <==> exists k :: 0 <= k < |columnAll.rows| && Carries(columnAll.rows[k], IntOf(res.id).value))
  {
    var res := Resolve(fileAll, columnAll, source);
    var cols := SelectById(columnAll, res.id).value;
    if res.Resolved? {
      assert cols.rows[0] in cols.rows;
      var k :| 0 <= k < |columnAll.rows| && columnAll.rows[k] == cols.rows[0];
      assert Carries(columnAll.rows[k], IntOf(res.id).value);
    } else {
      forall k | 0 <= k < |columnAll.rows| ensures !Carries(columnAll.rows[k], IntOf(res.id).value) {
        assert columnAll.rows[k] in columnAll.rows;
      }
    }
  }

  /** The column-level row `row` belongs to the configuration with id `n`. */
  predicate Carries(row: Row, n: int) {
    "ConfigurationFileID" in row && ParseInt(row["ConfigurationFileID"]) == Some(n)
  }

  /** The result of a source that no file-level row names. */
  function NoFileConfigMessage(source: string, configurationsFile: string): (r: string)
    ensures r != ResultSuccess && EndsWith(r, configurationsFile)
  {
    var head := "No configuration records were found for source \"";
    var r := head + source + "\" in file " + configurationsFile;
    assert r[0] == head[0];
    assert r[|r| - |configurationsFile|..] == configurationsFile;
    r
  }

  /** The result of a source whose id no column-level row carries. */
  function NoColumnConfigMessage(id: Cell, configurationsColumn: string): (r: string)
    ensures r != ResultSuccess && EndsWith(r, configurationsColumn)
  {
    var head := "No configuration records were found for ConfigurationFileID ";
    var r := head + CellText(id) + " in file " + configurationsColumn;
    assert r[0] == head[0];
    assert r[|r| - |configurationsColumn|..] == configurationsColumn;
    r
  }

  /** The result of `ValidateRootParameters` when the source folder it was given was
      missing and has been created. */
  function CreatedMessage(folder: string): (r: string)
    ensures r != ResultSuccess && EndsWith(r, folder)
  {
    HeadedPath("Folder path specified was not found and therefore created: ", folder)
  }

  /** What `ProcessInboundFile` leaves behind for a file of disposition `d`, from the files
      `files0` before it to the files `files` after it: its result `r`, the change to the
      files and the log entries `notes` written before its closing Info entry. */
  ghost predicate Effect(d: Disposition, scriptFile: string, path: string, r: string,
                         files0: map<string, Content>, files: map<string, Content>, notes: seq<Note>)
  {
    match d
    case Failed(line, error) =>
      r == BuildErrorMessage("ProcessInboundFile", scriptFile, line, error, true, "")
      && files == files0 && notes == []
    case Skipped => r == ResultSuccess && files == files0 && notes == []
    case EmptyFile(_) => r == ResultSuccess && files == files0 && notes == []
    case Accepted(actual, expected) =>
      r == ResultSuccess && files == files0 && notes == JoinedNotes(actual, expected)
    case Rejected(actual, expected, _, target) =>
      notes == JoinedNotes(actual, expected) + [Outcome(r, None)]
      && (r == ResultSuccess ==> Rejoined(path) in files0 && files == Moved(files0, Rejoined(path), Rejoined(target)))
      && (r != ResultSuccess ==> files == files0)
  }

  /** The entries the file loop logs for a file of disposition `d` at `path` whose
      `ProcessInboundFile` returned `r`: the header notes of a checked file and the outcome
      of a rejected file's move, then the file's closing Info entry. */
  function TurnNotes(d: Disposition, path: string, r: string): (notes: seq<Note>)
    ensures |notes| >= 1 && notes[|notes| - 1] == FileDone(r, path)
  {
    (match d
     case Accepted(actual, expected) => JoinedNotes(actual, expected)
     case Rejected(actual, expected, _, _) => JoinedNotes(actual, expected) + [Outcome(r, None)]
     case _ => [])
    + [FileDone(r, path)]
  }

  /** Lines 123-124 of `Main`: every Inbound sub-folder is walked when no source folder is
      given, only the given one when it does not contain the root path, and when it does,
      neither branch assigns the choice (`None`), so reading it raises. */
  function AllFolders(folder: string, root: string): Option<bool> {
    if folder == "" then Some(true)
    else if !Contains(folder, root) then Some(false)
    else None
  }

  /** The choice is made exactly when the folder is empty or does not name the root: a
      source folder given as a full path below the root leaves it unassigned. */
  lemma AllFoldersAssigned(folder: string, root: string)
    ensures AllFolders(folder, root).Some? <==> folder == "" || !Contains(folder, root)
    ensures AllFolders(folder, root) == Some(true) <==> folder == ""
    ensures folder != "" && StartsWith(folder, root) ==> AllFolders(folder, root) == None
  {
    if folder != "" && StartsWith(folder, root) {
      assert OccursAt(folder, root, 0);
    }
  }
}
