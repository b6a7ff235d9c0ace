/** The shared helpers of the later scripts (Utilities.py): the log buffer, moving a file,
    retrieving the file-level and column-level configuration rows (reading a configuration
    file only while the caller's copy of it is still empty), the overwriting-style header
    check, validating the log file and writing the buffered entries to it. Every helper
    catches its own exceptions, logs them and hands back `str(e)`, except the two
    configuration retrievals: their `finally` clause returns a local that a failed `try`
    never bound, so they raise instead of returning. */
module Utilities {
  import opened Wrappers
  import opened Text
  import opened Paths
  import opened Tables
  import opened Logging
  import opened Headers
  import opened Files
  import opened Config

  /** What a configuration retrieval returns: its result, the whole table (which the caller
      passes in again next time) and the selected rows. */
  datatype Retrieved = Retrieved(result: string, all: Sheet, selected: Sheet)

  /** The table a retrieval selects from: the caller's, unless it has no rows, in which case
      the configuration file as read. */
  function Working(all: Sheet, read: Result<Frame>): (r: Result<Sheet>)
    requires read.Ok? ==> WellFormed(read.value)
    requires read.Raised? ==> read.error != ResultSuccess
    ensures r.Raised? ==> r.error != ResultSuccess && |all.rows| == 0 && read == Raised(r.error)
    ensures |all.rows| > 0 ==> r == Ok(all)
    ensures r.Ok? && |all.rows| == 0 ==>
      read.Ok? && r.value.columns == read.value.columns && |r.value.rows| == |read.value.rows|
  {
    if |all.rows| > 0 then Ok(all)
    else match read
      case Raised(e) => Raised(e)
      case Ok(f) => Ok(SheetOf(f))
  }

  /** The `try` of `RetrieveConfigurations_Column`: the working table and its rows of the id. */
  function ColumnSelection(all: Sheet, read: Result<Frame>, id: Cell): (r: Result<(Sheet, Sheet)>)
    requires read.Ok? ==> WellFormed(read.value)
    requires read.Raised? ==> read.error != ResultSuccess
    ensures r.Raised? ==> r.error != ResultSuccess
  {
    match Working(all, read)
    case Raised(e) => Raised(e)
    case Ok(t) =>
      match SelectById(t, id)
      case Raised(e) => Raised(e)
      case Ok(s) => Ok((t, s))
  }

  /** The `try` of `RetrieveConfigurations_File`: the working table and its rows of the source. */
  function SourceSelection(all: Sheet, read: Result<Frame>, source: string): (r: Result<(Sheet, Sheet)>)
    requires read.Ok? ==> WellFormed(read.value)
    requires read.Raised? ==> read.error != ResultSuccess
    ensures r.Raised? ==> r.error != ResultSuccess
  {
    match Working(all, read)
    case Raised(e) => Raised(e)
    case Ok(t) =>
      match SelectBySource(t, source)
      case Raised(e) => Raised(e)
      case Ok(s) => Ok((t, s))
  }

  /** The column-level selection succeeds exactly when the working table is at hand, has a
      `ConfigurationFileID` column and the id converts to an integer; it then holds the rows
      of the working table whose id is that integer, all of them, under the same columns. */
  lemma ColumnSelectionRows(all: Sheet, read: Result<Frame>, id: Cell)
    requires read.Ok? ==> WellFormed(read.value)
    requires read.Raised? ==> read.error != ResultSuccess
    ensures ColumnSelection(all, read, id).Ok? <==>
      Working(all, read).Ok? && "ConfigurationFileID" in Working(all, read).value.columns && IntOf(id).Ok?
    ensures ColumnSelection(all, read, id).Ok? ==>
      var r := ColumnSelection(all, read, id).value;
      var w := Working(all, read).value;
      r.0 == w && r.1.columns == w.columns
      && forall row :: row in r.1.rows <==>
        row in w.rows && "ConfigurationFileID" in row && ParseInt(row["ConfigurationFileID"]) == Some(IntOf(id).value)
  {
  }

  /** The file-level selection succeeds exactly when the working table is at hand and has a
      `Source` column; it then holds the rows of the working table of that source, all of
      them, under the same columns. */
  lemma SourceSelectionRows(all: Sheet, read: Result<Frame>, source: string)
    requires read.Ok? ==> WellFormed(read.value)
    requires read.Raised? ==> read.error != ResultSuccess
    ensures SourceSelection(all, read, source).Ok? <==>
      Working(all, read).Ok? && "Source" in Working(all, read).value.columns
    ensures SourceSelection(all, read, source).Ok? ==>
      var r := SourceSelection(all, read, source).value;
      var w := Working(all, read).value;
      r.0 == w && r.1.columns == w.columns
      && forall row :: row in r.1.rows <==> row in w.rows && CellOf(row, "Source") == Value(source)
  {
  }

  /** What a retrieval hands back: "Success" with both tables, or, when its `try` failed, the
      `UnboundLocalError` of reading `local` in the `finally` clause. */
  function Handed(selection: Result<(Sheet, Sheet)>, local: string): (r: Result<Retrieved>)
    ensures r.Ok? <==> selection.Ok?
    ensures r.Ok? ==> r.value == Retrieved(ResultSuccess, selection.value.0, selection.value.1)
    ensures r.Raised? ==> r.error == UnboundLocal(local)
  {
    match selection
    case Raised(_) => Raised(UnboundLocal(local))
    case Ok((t, s)) => Ok(Retrieved(ResultSuccess, t, s))
  }

  /** The entry a retrieval logs: Info "Success", or Error with the exception's text. */
  function SelectionNote(selection: Result<(Sheet, Sheet)>): Note {
    match selection
    case Ok(_) => InfoNote(ResultSuccess)
    case Raised(e) => ErrorNote(e)
  }

  /** Once a retrieval has returned a table with rows, handing that table back in makes every
      later retrieval select from it, whatever the configuration file holds by then: each
      configuration file is read at most once per run. */
  lemma {:induction false} ReadOnce(all: Sheet, read: Result<Frame>, later: Result<Frame>, id: Cell, source: string)
    requires read.Ok? ==> WellFormed(read.value)
    requires read.Raised? ==> read.error != ResultSuccess
    requires later.Ok? ==> WellFormed(later.value)
    requires later.Raised? ==> later.error != ResultSuccess
    requires Working(all, read).Ok? && |Working(all, read).value.rows| > 0
    ensures var t := Working(all, read).value;
      ColumnSelection(t, later, id) == ColumnSelection(t, read, id)
      && SourceSelection(t, later, source) == SourceSelection(t, read, source)
  {
    var t := Working(all, read).value;
    assert Working(t, later) == Ok(t) == Working(t, read);
  }

  /** A retrieval that returns always reports "Success": every failure of its `try` ends in
      the escaping `UnboundLocalError`, never in a returned error text. */
  lemma ReturnedMeansSuccess(selection: Result<(Sheet, Sheet)>, local: string)
    ensures Handed(selection, local).Ok? ==> Handed(selection, local).value.result == ResultSuccess
    ensures selection.Raised? ==> Handed(selection, local) == Raised(UnboundLocal(local))
  {
  }

  /** The header line of the log file: one field per log column. */
  function LogHeader(): (h: Record)
    ensures |h| == |LogFileDefinition|
    ensures forall i :: 0 <= i < |h| ==> h[i] == Value(LogFileDefinition[i])
  {
    seq(|LogFileDefinition|, i requires 0 <= i < |LogFileDefinition| => Value(LogFileDefinition[i]))
  }

  /** The create branch of `ValidateLogFile` as written: the first `open` writes the header
      line, the second empties the file again and its `write` is handed the list of names. */
  function CreatedAsWritten(files: map<string, Content>, p: string): (r: map<string, Content>)
    ensures p in r && r[p] == []
    ensures r - {p} == files - {p}
  {
    UpdateElsewhere(files, p, []);
    files[p := []]
  }

  /** The create branch as evidently intended: the file holds the header line only. */
  function CreatedIntended(files: map<string, Content>, p: string): (r: map<string, Content>)
    ensures p in r && r[p] == [LogHeader()]
    ensures r - {p} == files - {p}
  {
    UpdateElsewhere(files, p, [LogHeader()]);
    files[p := [LogHeader()]]
  }

  /** The log file the create branch leaves behind is empty, so every later validation
      fails to read it and the log never becomes valid. */
  lemma CreatedLogFileNeverValid(files: map<string, Content>, dirs: set<string>, p: string)
    ensures CsvAt(CreatedAsWritten(files, p), dirs, p) == Raised("No columns to parse from file")
    ensures !LogFileValid(CsvAt(CreatedAsWritten(files, p), dirs, p))
  {
  }

  /** A log file created with its header line only reads as the log columns with no rows,
      and validates. */
  lemma {:induction false} CreatedLogFileValid(files: map<string, Content>, dirs: set<string>, p: string)
    ensures var read := CsvAt(CreatedIntended(files, p), dirs, p);
      read.Ok? && read.value.columns == LogFileDefinition && |read.value.rows| == 0 && LogFileValid(read)
  {
    var read := CsvAt(CreatedIntended(files, p), dirs, p);
    assert read == Parse([LogHeader()]);
    assert read.value.columns == HeaderNames(LogHeader());
    assert HeaderNames(LogHeader()) == LogFileDefinition;
    MatchesIffSameNames(Names(LogFileDefinition), Names(LogFileDefinition));
  }

  /** The log file is valid exactly when it reads and its header holds the same names as the
      log columns, in any order. */
  lemma ValidIffSameNames(read: Result<Frame>)
    ensures LogFileValid(read) <==>
      read.Ok? && forall c :: c in Names(read.value.columns) <==> c in Names(LogFileDefinition)
  {
    if read.Ok? {
      MatchesIffSameNames(Names(read.value.columns), Names(LogFileDefinition));
    }
  }

  /** The module state of Utilities.py: the log path and its validity flag, both set by
      `ValidateLogFile`. The file system, the clock and id generator and the log buffer are
      shared with the calling script. */
  class Utilities {
    const fs: FileSystem
    const env: Environment
    const log: LogBuffer
    /** `os.path.realpath(__file__)` of this module, recorded as `Caller` in every entry. */
    const caller: string

    var fullPathLogFile: string
    var isValidLogFile: bool

    constructor(fs: FileSystem, env: Environment, log: LogBuffer, caller: string)
      ensures this.fs == fs && this.env == env && this.log == log && this.caller == caller
      ensures fullPathLogFile == "" && !isValidLogFile
    {
      this.fs := fs;
      this.env := env;
      this.log := log;
      this.caller := caller;
      fullPathLogFile := "";
      isValidLogFile := false;
    }

    /** Appends exactly one entry; an empty id is replaced by a fresh one. */
    method LogStep(begin: string, callStack: string, guid: string, parameters: string, v: Varied)
      modifies log, env
      ensures Appended(old(log.entries), log.entries, [Note(v.severity, v.result, v.file)])
      ensures var e := log.entries[|log.entries| - 1];
        e.caller == caller && e.callStack == callStack && e.begin == begin && e.parameters == parameters
        && e.parentExecutionGuid == v.parent
        && e.executionGuid == (if guid == "" then GuidText(old(env.issued)) else guid)
    {
      Logging.Record(log, env, begin, caller, callStack, guid, parameters, v);
    }

    /** `os.rename`, returning "Success" or the error text; one entry is logged either way. */
    method MoveFile(callStack: string, source: string, target: string, parent: string) returns (r: string)
      requires fs.Valid()
      modifies fs, log, env
      ensures fs.Valid() && fs.dirs == old(fs.dirs)
      ensures r == ResultSuccess <==>
        source in old(fs.files) && old(fs.ParentExists(target)) && !old(fs.Exists(target))
      ensures r == ResultSuccess ==> fs.files == old(fs.files) - {source} + map[target := old(fs.files)[source]]
      ensures r != ResultSuccess ==> fs.files == old(fs.files)
      ensures Appended(old(log.entries), log.entries, [Outcome(r, None)])
    {
      var begin := env.Now();
      var stack := callStack + " > MoveFile";
      var guid := env.NewGuid();
      var parameters := DictText([("FullPath_SourceFile", Repr(source)), ("FullPath_TargetFile", Repr(target)),
                                  ("ParentExecutionGUID", Repr(parent))]);
      var err := fs.Rename(source, target);
      r := if err.Some? then err.value else ResultSuccess;
      LogStep(begin, stack, guid, parameters, Step(Some(parent), Outcome(r, None).severity.value, r, None));
    }

    /** `RetrieveConfigurations_Column`: selects the rows of the `ConfigurationFileID` from the
        caller's table, reading the file first when that table has no rows. A failure is
        logged as an Error and then escapes as an `UnboundLocalError`. */
    method RetrieveConfigurationsColumn(callStack: string, id: Cell, all: Sheet, path: string, parent: string)
      returns (out: Result<Retrieved>)
      modifies log, env
      ensures out == Handed(ColumnSelection(all, fs.ReadCsv(path), id), "Configurations_Column_OneFile")
      ensures Appended(old(log.entries), log.entries, [SelectionNote(ColumnSelection(all, fs.ReadCsv(path), id))])
    {
      var begin := env.Now();
      var stack := callStack + " > RetrieveConfigurations_Column";
      var guid := env.NewGuid();
      var parameters := DictText([("ConfigurationFileID", Repr(CellText(id))),
                                  ("FullPath_Configurations_Column", Repr(path)), ("ParentExecutionGUID", Repr(parent))]);
      var working := WorkingTable(all, path);
      var selection: Result<(Sheet, Sheet)>;
      if working.Raised? {
        selection := Raised(working.error);
      } else {
        var selected := SelectById(working.value, id);
        selection := if selected.Raised? then Raised(selected.error) else Ok((working.value, selected.value));
      }
      LogSelection(begin, stack, guid, parameters, parent, selection);
      if selection.Raised? {
        return Raised(UnboundLocal("Configurations_Column_OneFile"));
      }
      out := Ok(Retrieved(ResultSuccess, selection.value.0, selection.value.1));
    }

    /** `RetrieveConfigurations_File`: selects the rows of the source from the caller's table,
        reading the file first when that table has no rows. A failure is logged as an Error
        and then escapes as an `UnboundLocalError`. */
    method RetrieveConfigurationsFile(callStack: string, all: Sheet, path: string, parent: string, source: string)
      returns (out: Result<Retrieved>)
      modifies log, env
      ensures out == Handed(SourceSelection(all, fs.ReadCsv(path), source), "Configurations_File_OneFile")
      ensures Appended(old(log.entries), log.entries, [SelectionNote(SourceSelection(all, fs.ReadCsv(path), source))])
    {
      var begin := env.Now();
      var stack := callStack + " > RetrieveConfigurations_File";
      var guid := env.NewGuid();
      var parameters := DictText([("FullPath_Configurations_File", Repr(path)), ("ParentExecutionGUID", Repr(parent)),
                                  ("Source", Repr(source))]);
      var working := WorkingTable(all, path);
      var selection: Result<(Sheet, Sheet)>;
      if working.Raised? {
        selection := Raised(working.error);
      } else {
        var selected := SelectBySource(working.value, source);
        selection := if selected.Raised? then Raised(selected.error) else Ok((working.value, selected.value));
      }
      LogSelection(begin, stack, guid, parameters, parent, selection);
      if selection.Raised? {
        return Raised(UnboundLocal("Configurations_File_OneFile"));
      }
      out := Ok(Retrieved(ResultSuccess, selection.value.0, selection.value.1));
    }

    /** Logs the outcome of a retrieval's `try`: Info "Success", or Error with the text of
        the exception. */
    method LogSelection(begin: string, stack: string, guid: string, parameters: string, parent: string,
                        selection: Result<(Sheet, Sheet)>)
      modifies log, env
      ensures Appended(old(log.entries), log.entries, [SelectionNote(selection)])
    {
      if selection.Raised? {
        LogStep(begin, stack, guid, parameters, Step(Some(parent), SeverityError, selection.error, None));
      } else {
        LogStep(begin, stack, guid, parameters, Step(Some(parent), SeverityInfo, ResultSuccess, None));
      }
    }

    /** The caller's table, or the configuration file read afresh when that table has no rows. */
    method WorkingTable(all: Sheet, path: string) returns (t: Result<Sheet>)
      ensures t == Working(all, fs.ReadCsv(path))
    {
      if |all.rows| > 0 {
        return Ok(all);
      }
      var read := fs.ReadCsv(path);
      if read.Raised? {
        return Raised(read.error);
      }
      t := Ok(SheetOf(read.value));
    }

    /** Compares the actual with the expected header; the missing-columns message overwrites
        the extra-columns message, and each kind of mismatch is logged as an Error. */
    method ValidateColumnHeader(actual: seq<Cell>, callStack: string, expected: seq<Cell>, parent: string)
      returns (r: string)
      modifies log, env
      ensures r == OverwritingResult(actual, expected)
      ensures Appended(old(log.entries), log.entries, OverwritingNotes(actual, expected))
    {
      var begin := env.Now();
      var stack := callStack + " > ValidateColumnHeader";
      var guid := env.NewGuid();
      var parameters := DictText([("ActualColumnsAsList", Render(actual)), ("ExpectedColumnsAsList", Render(expected)),
                                  ("ParentExecutionGUID", Repr(parent))]);
      var extra := ExtraColumns(actual, expected);
      var missing := MissingColumns(actual, expected);
      ghost var log0 := log.entries;
      r := ResultSuccess;
      ghost var notes: seq<Note> := [];
      if |extra| > 0 {
        r := ExtraMessage(extra);
        LogStep(begin, stack, guid, parameters, Step(Some(parent), SeverityError, r, None));
        notes := [ErrorNote(r)];
      }
      assert Appended(log0, log.entries, notes);
      ghost var log1 := log.entries;
      if |missing| > 0 {
        r := MissingMessage(missing);
        LogStep(begin, stack, guid, parameters, Step(Some(parent), SeverityError, r, None));
        AppendedChain(log0, log1, log.entries, notes, [ErrorNote(r)]);
        notes := notes + [ErrorNote(r)];
      }
      ghost var log2 := log.entries;
      if |extra| + |missing| == 0 {
        LogStep(begin, stack, guid, parameters, Step(Some(parent), SeverityInfo, r, None));
        AppendedChain(log0, log2, log.entries, notes, [InfoNote(r)]);
        notes := notes + [InfoNote(r)];
      }
    }

    /** `ValidateLogFile`: points the log path at `Admin/Log.txt` below the root. A missing
        log file is created (its folder first) and the step fails; an existing one is read
        and its header validated, the flag set to whether it matched, and the outcome logged
        as Info with the log path as `File`. A failure is logged as an Error and leaves the
        flag as it was. */
    method ValidateLogFile(callStack: string, root: string, parent: string) returns (r: string, path: string, isValid: bool)
      requires fs.Valid()
      modifies this, fs, log, env
      ensures fs.Valid() && old(fs.dirs) <= fs.dirs
      ensures path == fullPathLogFile == Join3(root, "Admin", "Log.txt")
      ensures isValid == isValidLogFile
      ensures path != "" && !old(fs.Exists(path)) ==>
        r != ResultSuccess && isValidLogFile == old(isValidLogFile)
        && Appended(old(log.entries), log.entries, [ErrorNote(r)])
        && ((r == WriteListError && fs.files == CreatedAsWritten(old(fs.files), path)) || fs.files == old(fs.files))
        && (old(fs.FolderTree(DirName(path))) ==>
              r == WriteListError && fs.files == CreatedAsWritten(old(fs.files), path))
      ensures path == "" || old(fs.Exists(path)) ==>
        fs.files == old(fs.files) && fs.dirs == old(fs.dirs)
        && match old(fs.ReadCsv(path))
           case Raised(e) => r == e && isValidLogFile == old(isValidLogFile)
             && Appended(old(log.entries), log.entries, [ErrorNote(e)])
           case Ok(f) => (r == OverwritingResult(Names(f.columns), Names(LogFileDefinition))
             && (isValidLogFile <==> r == ResultSuccess)
             && Appended(old(log.entries), log.entries,
                         OverwritingNotes(Names(f.columns), Names(LogFileDefinition))
                         + [Note(Some(SeverityInfo), Some(r), Some(path))]))
    {
      var begin := env.Now();
      var stack := callStack + " > ValidateLogFile";
      var guid := env.NewGuid();
      var parameters := DictText([("ParentExecutionGUID", Repr(parent))]);
      fullPathLogFile := Join3(root, "Admin", "Log.txt");
      path := fullPathLogFile;
      if path != "" && !fs.Exists(path) {
        r := CreateLogFile(path);
        LogStep(begin, stack, guid, parameters, Step(Some(parent), SeverityError, r, None));
      } else {
        r := CheckLogFile(begin, stack, guid, parameters, parent, path);
      }
      isValid := isValidLogFile;
    }

    /** The create branch of `ValidateLogFile`: the folder is made, the file opened for
        writing twice, and the second `write` raises; the text of whichever step raised is
        returned. */
    method CreateLogFile(p: string) returns (r: string)
      requires fs.Valid() && !fs.Exists(p)
      modifies fs
      ensures fs.Valid() && old(fs.dirs) <= fs.dirs
      ensures r != ResultSuccess
      ensures (r == WriteListError && fs.files == CreatedAsWritten(old(fs.files), p)) || fs.files == old(fs.files)
      ensures old(fs.FolderTree(DirName(p))) ==>
        r == WriteListError && fs.files == CreatedAsWritten(old(fs.files), p)
    {
      if fs.FolderTree(DirName(p)) {
        fs.TreeFree(DirName(p));
      }
      var err := fs.MakeDirs(DirName(p));
      if err.Some? {
        return err.value;
      }
      DirNameIsKey(p);
      err := fs.Truncate(p);
      if err.Some? {
        return err.value;
      }
      err := fs.Truncate(p);
      r := WriteListError;
    }

    /** The create branch as evidently intended: the folder is made and the file written
        with the header line only; the warning is returned and validation goes on. */
    method CreateLogFileIntended(p: string) returns (r: string, failed: bool)
      requires fs.Valid() && !fs.Exists(p)
      modifies fs
      ensures fs.Valid() && old(fs.dirs) <= fs.dirs
      ensures !failed ==>
        r == "Log file was not found and therefore created: " + p && fs.files == CreatedIntended(old(fs.files), p)
      ensures failed ==> r != ResultSuccess && fs.files == old(fs.files)
      ensures old(fs.FolderTree(DirName(p))) ==> !failed
    {
      if fs.FolderTree(DirName(p)) {
        fs.TreeFree(DirName(p));
      }
      var err := fs.MakeDirs(DirName(p));
      if err.Some? {
        return err.value, true;
      }
      DirNameIsKey(p);
      err := WriteHeader(p);
      if err.Some? {
        return err.value, true;
      }
      r, failed := "Log file was not found and therefore created: " + p, false;
    }

    /** `open(p, 'w')` and a write of the header line. */
    method WriteHeader(p: string) returns (err: Option<string>)
      requires fs.Valid()
      modifies fs
      ensures fs.Valid() && fs.dirs == old(fs.dirs)
      ensures err.None? ==> fs.files == CreatedIntended(old(fs.files), p)
      ensures err.None? <==> !old(fs.IsDir(p)) && old(fs.ParentExists(p))
      ensures err.Some? ==> err.value != ResultSuccess && fs.files == old(fs.files)
    {
      ghost var files0 := fs.files;
      err := fs.Truncate(p);
      if err.Some? {
        return;
      }
      var header: Content := [LogHeader()];
      ghost var emptied := fs.files;
      assert emptied[p] == [];
      err := fs.AppendRecords(p, header);
      assert err.None?;
      assert emptied[p] + header == header;
      assert fs.files == emptied[p := header];
      assert emptied[p := header] == files0[p := header];
    }

    /** The branch of `ValidateLogFile` for an existing log path: read, validate the header,
        set the flag and log the outcome. */
    method CheckLogFile(begin: string, stack: string, guid: string, parameters: string, parent: string, p: string)
      returns (r: string)
      modifies this`isValidLogFile, log, env
      ensures match fs.ReadCsv(p)
        case Raised(e) => r == e && isValidLogFile == old(isValidLogFile)
          && Appended(old(log.entries), log.entries, [ErrorNote(e)])
        case Ok(f) => (r == OverwritingResult(Names(f.columns), Names(LogFileDefinition))
          && (isValidLogFile <==> r == ResultSuccess)
          && Appended(old(log.entries), log.entries,
                      OverwritingNotes(Names(f.columns), Names(LogFileDefinition))
                      + [Note(Some(SeverityInfo), Some(r), Some(p))]))
    {
      var read := fs.ReadCsv(p);
      if read.Raised? {
        r := read.error;
        LogStep(begin, stack, guid, parameters, Step(Some(parent), SeverityError, r, None));
        return;
      }
      ghost var log0 := log.entries;
      var actual := Names(read.value.columns);
      r := ValidateColumnHeader(actual, stack, Names(LogFileDefinition), parent);
      isValidLogFile := r == ResultSuccess;
      ghost var log1 := log.entries;
      LogStep(begin, stack, guid, parameters, Step(Some(parent), SeverityInfo, r, Some(p)));
      AppendedChain(log0, log1, log.entries, OverwritingNotes(actual, Names(LogFileDefinition)),
                    [Note(Some(SeverityInfo), Some(r), Some(p))]);
    }

    /** `WriteToLogFile`: appends the buffered entries, ordered by `Begin`, to the file at
        `path`. An empty buffer and a failed write are passed over without an entry. */
    method WriteToLogFile(path: string)
      requires fs.Valid()
      modifies fs
      ensures fs.Valid() && fs.dirs == old(fs.dirs)
      ensures if |log.entries| > 0 && !old(fs.IsDir(path)) && old(fs.ParentExists(path)) then
          fs.files == old(fs.files)[path := (if path in old(fs.files) then old(fs.files)[path] else [])
                                            + EntryRecords(SortByBegin(log.entries))]
        else fs.files == old(fs.files)
      ensures fs.files - {path} == old(fs.files) - {path}
      ensures |log.entries| > 0 && path in fs.files && !fs.IsDir(path) && fs.ParentExists(path) ==>
        EndsWithRecords(fs.files[path], EntryRecords(SortByBegin(log.entries)))
    {
      if |log.entries| > 0 {
        ghost var files0 := fs.files;
        var err := fs.AppendRecords(path, EntryRecords(SortByBegin(log.entries)));
        if err.None? {
          UpdateElsewhere(files0, path, fs.files[path]);
        }
      }
    }
  }
}
