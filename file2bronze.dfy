/** `File2Bronze.py`: the earliest variant of the Bronze load. It checks its three required
    parameters, walks every Inbound sub-folder (or the one named by `FullPath_Source`), and
    for every `.csv`/`.txt` file looks up the file's configuration by its source folder and
    validates its column header against the configured file columns. Nothing is copied or
    moved: the only file the script writes is the log, `Admin/Log.txt` below the root.

    The script parameters and the module-level values derived from them at import become
    the constants of `Script`; the file system, the clock and the log buffer are objects it
    holds. */
module File2Bronze {
  import opened Wrappers
  import opened Text
  import opened Paths
  import opened Tables
  import opened Logging
  import opened Headers
  import opened Files
  import opened Config
  import LoadFileToBronze
  import Seqs

  /** Lines 246 and 260-261: the module-level choice starts false and is set true only for an
      empty source; a source that does not contain the root sets it false again, and one
      that does leaves it false. */
  function AllInboundFolders(source: string, root: string): (all: bool)
    ensures all <==> source == ""
  {
    var all := false;
    if source == "" then true
    else if !Contains(source, root) then false
    else all
  }

  /** The Error entries of Main's parameter checks, in order: one per empty parameter. */
  function MissingNotes(columnFile: string, fileFile: string, root: string): (r: seq<Note>)
    ensures r == [] <==> columnFile != "" && fileFile != "" && root != ""
    ensures |r| == (if columnFile == "" then 1 else 0) + (if fileFile == "" then 1 else 0) + (if root == "" then 1 else 0)
    ensures forall n :: n in r ==> n.severity == Some(SeverityError) && n.file == None
  {
    MissingNote(columnFile, "ConfigurationColumn") + MissingNote(fileFile, "ConfigurationFile")
    + MissingNote(root, "FullPath_Root")
  }

  /** The entry of one parameter check: an Error naming the parameter when its value is
      empty, nothing otherwise. */
  function MissingNote(value: string, parameter: string): (r: seq<Note>)
    ensures r == [] <==> value != ""
  {
    if value == "" then [ErrorNote("Script parameter value missing: " + parameter)] else []
  }

  /** The error a configuration lookup that raised leaves behind: it returns `None`, which
      the next subscript then rejects. */
  const NotSubscriptable: string := "'NoneType' object is not subscriptable"

  /** The text `ProcessFile` raises when the header check did not succeed. */
  const HeaderError: string := "Error in ValidateColumnHeader"

  /** The note a configuration lookup logs: Info "Success" or Error with the failure. */
  function LookupNote(r: Result<Sheet>): (n: Note)
    requires r.Raised? ==> r.error != ResultSuccess
    ensures n.file == None
    ensures n.severity == Some(SeverityInfo) <==> r.Ok?
  {
    Outcome(if r.Ok? then ResultSuccess else r.error, None)
  }

  /** What `ProcessFile` does with a `.csv`/`.txt` file before its closing entry: the
      entries logged on the way, the outcome ("Success" or the text of the exception), and
      the `ConfigurationFileID` taken from the configuration, if it got that far. */
  datatype Attempt = Attempt(notes: seq<Note>, result: string, id: Option<Cell>, delimiter: Option<Cell>)

  /** A read as `pandas.read_csv` leaves it: a well-formed table, or an error text. */
  predicate Readable(read: Result<Frame>) {
    (read.Ok? ==> WellFormed(read.value)) && (read.Raised? ==> read.error != ResultSuccess)
  }

  /** Lines 119-144 for the file `name` in `folder`: the file-level configuration of the
      file's source, then the rest from the three reads it depends on. */
  function Attempted(files: map<string, Content>, dirs: set<string>, inbound: string, folder: string, name: string,
                     columnPath: string, filePath: string): (a: Attempt)
  {
    AttemptFrom(LoadFileToBronze.FileConfigFor(CsvAt(files, dirs, filePath), LoadFileToBronze.SourceOf(folder, inbound)),
                CsvAt(files, dirs, Join(folder, name)), CsvAt(files, dirs, columnPath))
  }

  /** Lines 125-144 given the file-level rows `fc` of the source, the read of the file and
      the read of the column-level configuration: the id and delimiter from the first row,
      the column-level rows of that id, the file's header, and the header check. */
  function AttemptFrom(fc: Result<Sheet>, read: Result<Frame>, columns: Result<Frame>): (a: Attempt)
    requires fc.Raised? ==> fc.error != ResultSuccess
    requires Readable(read) && Readable(columns)
  {
    var notes := [LookupNote(fc)];
    if fc.Raised? then Attempt(notes, NotSubscriptable, None, None)
    else
      match Pick(fc.value, "ConfigurationFileID")
      case Raised(e) => Attempt(notes, e, None, None)
      case Ok(id) =>
        match Pick(fc.value, "Delimiter")
        case Raised(e) => Attempt(notes, e, Some(id), None)
        case Ok(delimiter) =>
          HeaderChecked(read, LoadFileToBronze.ColumnConfigFor(columns, id), notes, id, delimiter)
  }

  /** Lines 132-144 once the id is known: the column-level lookup is logged, the file is
      read, and its header is checked against the configured `ColumnName_File` values. */
  function HeaderChecked(read: Result<Frame>, cc: Result<Sheet>, notes: seq<Note>, id: Cell, delimiter: Cell): (a: Attempt)
    requires read.Raised? ==> read.error != ResultSuccess
    requires cc.Raised? ==> cc.error != ResultSuccess
    ensures a.id == Some(id) && a.delimiter == Some(delimiter)
    ensures |a.notes| > |notes| && a.notes[..|notes| + 1] == notes + [LookupNote(cc)]
    ensures a.result == ResultSuccess <==>
      read.Ok? && cc.Ok? && Column(cc.value, "ColumnName_File").Ok?
      && Matches(Names(read.value.columns), Column(cc.value, "ColumnName_File").value)
    ensures a.result == ResultSuccess ==> a.notes[|a.notes| - 1] == InfoNote(ResultSuccess)
  {
    var notes := notes + [LookupNote(cc)];
    match read
    case Raised(e) => Attempt(notes, e, Some(id), Some(delimiter))
    case Ok(frame) =>
      if cc.Raised? then Attempt(notes, NotSubscriptable, Some(id), Some(delimiter))
      else
        match Column(cc.value, "ColumnName_File")
        case Raised(e) => Attempt(notes, e, Some(id), Some(delimiter))
        case Ok(expected) =>
          var actual := Names(frame.columns);
          Attempt(notes + OverwritingNotes(actual, expected),
                  if Matches(actual, expected) then ResultSuccess else HeaderError, Some(id), Some(delimiter))
  }

  /** The walk of Main completes exactly when every folder it lists can be listed: the
      Inbound folder and each of its entries, or the one named sub-folder. */
  predicate WalkCompletes(fs: FileSystem, inbound: string, all: bool, source: string)
    reads fs
  {
    if all then fs.IsDir(inbound) && EntriesAreFolders(fs.files, fs.dirs, inbound)
    else fs.IsDir(Join(inbound, source))
  }

  /** Every entry of the folder `inbound` is itself a folder. */
  predicate EntriesAreFolders(files: map<string, Content>, dirs: set<string>, inbound: string) {
    forall n :: n in ListingOf(files, dirs, DirKey(inbound)) ==>
      Join(inbound, n) in dirs || DirKey(Join(inbound, n)) in dirs
  }

  /** `ProcessFile` succeeds on a `.csv`/`.txt` file only when the file and both
      configurations could be read and the file's header matches the configured one; the
      validator's Info entry is then the last entry before `ProcessFile`'s own. */
  lemma SuccessMeansHeaderMatches(fc: Result<Sheet>, read: Result<Frame>, columns: Result<Frame>)
    requires fc.Raised? ==> fc.error != ResultSuccess
    requires Readable(read) && Readable(columns)
    ensures var a := AttemptFrom(fc, read, columns);
      a.result == ResultSuccess ==>
        fc.Ok? && a.id.Some? && read.Ok?
        && var cc := LoadFileToBronze.ColumnConfigFor(columns, a.id.value);
        cc.Ok? && Column(cc.value, "ColumnName_File").Ok?
        && Matches(Names(read.value.columns), Column(cc.value, "ColumnName_File").value)
        && a.notes[|a.notes| - 1] == InfoNote(ResultSuccess)
  {
    if fc.Ok? && Pick(fc.value, "ConfigurationFileID").Ok? && Pick(fc.value, "Delimiter").Ok? {
      var id := Pick(fc.value, "ConfigurationFileID").value;
      assert AttemptFrom(fc, read, columns)
          == HeaderChecked(read, LoadFileToBronze.ColumnConfigFor(columns, id), [LookupNote(fc)], id,
                           Pick(fc.value, "Delimiter").value);
    }
  }

  /** A file whose header does not match its configuration ends with the validator's Error
      entries and the fixed text of `ProcessFile`'s own exception; nothing logs Info. */
  lemma HeaderMismatchIsError(read: Result<Frame>, cc: Result<Sheet>, notes: seq<Note>, id: Cell, delimiter: Cell)
    requires read.Ok? && cc.Ok? && Column(cc.value, "ColumnName_File").Ok?
    requires !Matches(Names(read.value.columns), Column(cc.value, "ColumnName_File").value)
    ensures var a := HeaderChecked(read, cc, notes, id, delimiter);
      a.result == HeaderError && |a.notes| > |notes| + 1
      && forall k :: |notes| + 1 <= k < |a.notes| ==> a.notes[k].severity == Some(SeverityError)
  {
    var actual := Names(read.value.columns);
    var expected := Column(cc.value, "ColumnName_File").value;
    Headers.MismatchLogsErrors(actual, expected);
    var a := HeaderChecked(read, cc, notes, id, delimiter);
    HeaderCheckedRead(read, cc, notes, id, delimiter);
    var o := OverwritingNotes(actual, expected);
    var tail := [LookupNote(cc)] + o;
    assert a.notes == notes + tail;
    forall k | |notes| + 1 <= k < |a.notes| ensures a.notes[k].severity == Some(SeverityError) {
      assert a.notes[k] == tail[k - |notes|] == o[k - |notes| - 1];
      assert o[k - |notes| - 1] in o;
    }
  }

  /** Lines 128-130: the id and the delimiter come from the earliest configuration row of
      the file's source. */
  lemma {:induction false} FirstSourceRowConfigures(s: Sheet, source: string, fc: Result<Sheet>,
                                                   read: Result<Frame>, columns: Result<Frame>) returns (i: nat)
    requires "Source" in s.columns && "ConfigurationFileID" in s.columns && "Delimiter" in s.columns
    requires Where(s.rows, "Source", source) != []
    requires fc == Ok(SelectBySource(s, source).value)
    requires Readable(read) && Readable(columns)
    ensures var a := AttemptFrom(fc, read, columns);
      i < |s.rows| && CellOf(s.rows[i], "Source") == Value(source)
      && (forall j :: 0 <= j < i ==> CellOf(s.rows[j], "Source") != Value(source))
      && a.id == Some(CellOf(s.rows[i], "ConfigurationFileID"))
      && a.delimiter == Some(CellOf(s.rows[i], "Delimiter"))
  {
    i := SourceRowIsFirst(s, source, "ConfigurationFileID");
    var k := SourceRowIsFirst(s, source, "Delimiter");
    var id := CellOf(s.rows[i], "ConfigurationFileID");
    var delimiter := CellOf(s.rows[i], "Delimiter");
    assert Pick(fc.value, "ConfigurationFileID") == Ok(id);
    assert Pick(fc.value, "Delimiter") == Ok(delimiter);
    assert AttemptFrom(fc, read, columns)
        == HeaderChecked(read, LoadFileToBronze.ColumnConfigFor(columns, id), [LookupNote(fc)], id, delimiter);
  }

  /** A file whose source has no file-level row gets the lookup's Info entry, then fails
      on the positional pick of its id, before any column-level lookup. */
  lemma NoSourceRowFails(fc: Result<Sheet>, read: Result<Frame>, columns: Result<Frame>)
    requires fc.Ok? && "ConfigurationFileID" in fc.value.columns && fc.value.rows == []
    requires Readable(read) && Readable(columns)
    ensures var a := AttemptFrom(fc, read, columns);
      a.result == "single positional indexer is out-of-bounds" && a.id == None && a.delimiter == None
      && a.notes == [InfoNote(ResultSuccess)]
  {
    assert Pick(fc.value, "ConfigurationFileID") == Raised("single positional indexer is out-of-bounds");
  }

  /** `HeaderChecked` once both reads succeeded: the column lookup, then the comparison. */
  lemma HeaderCheckedRead(read: Result<Frame>, cc: Result<Sheet>, notes: seq<Note>, id: Cell, delimiter: Cell)
    requires read.Ok? && cc.Ok?
    ensures var a := HeaderChecked(read, cc, notes, id, delimiter);
      var expected := Column(cc.value, "ColumnName_File");
      var actual := Names(read.value.columns);
      (expected.Raised? ==> a == Attempt(notes + [LookupNote(cc)], expected.error, Some(id), Some(delimiter)))
      && (expected.Ok? ==>
            a == Attempt(notes + ([LookupNote(cc)] + OverwritingNotes(actual, expected.value)),
                         if Matches(actual, expected.value) then ResultSuccess else HeaderError, Some(id), Some(delimiter)))
  {
    var expected := Column(cc.value, "ColumnName_File");
    var actual := Names(read.value.columns);
    if expected.Ok? {
      assert notes + [LookupNote(cc)] + OverwritingNotes(actual, expected.value)
          == notes + ([LookupNote(cc)] + OverwritingNotes(actual, expected.value));
    }
  }

  /** The entries `ProcessFile` logs for `name`: the entries of the attempt for a `.csv` or
      `.txt` file, then its closing entry. */
  function FileNotes(files: map<string, Content>, dirs: set<string>, inbound: string, folder: string, name: string,
                     columnPath: string, filePath: string): (r: seq<Note>)
    ensures |r| >= 1
  {
    var a := Attempted(files, dirs, inbound, folder, name, columnPath, filePath);
    var result := if LoadFileToBronze.Ingestible(name) then a.result else ResultSuccess;
    (if LoadFileToBronze.Ingestible(name) then a.notes else []) + [LoadFileToBronze.FileNote(result, Join(folder, name))]
  }

  /** The entries of the files `names` of `folder`, processed in that order. */
  function FolderNotes(files: map<string, Content>, dirs: set<string>, inbound: string, folder: string,
                       names: seq<string>, columnPath: string, filePath: string): (r: seq<Note>)
    ensures |r| >= |names|
  {
    if names == [] then []
    else FolderNotes(files, dirs, inbound, folder, names[..|names| - 1], columnPath, filePath)
         + FileNotes(files, dirs, inbound, folder, names[|names| - 1], columnPath, filePath)
  }

  /** Processing one more name appends that file's entries. */
  lemma FolderNotesStep(files: map<string, Content>, dirs: set<string>, inbound: string, folder: string,
                        names: seq<string>, i: nat, columnPath: string, filePath: string)
    requires i < |names|
    ensures FolderNotes(files, dirs, inbound, folder, names[..i + 1], columnPath, filePath)
         == FolderNotes(files, dirs, inbound, folder, names[..i], columnPath, filePath)
            + FileNotes(files, dirs, inbound, folder, names[i], columnPath, filePath)
  {
    assert names[..i + 1][..i] == names[..i];
  }

  /** `names` is what `os.listdir` reports for the folder `folder`: each of its entries,
      once. */
  ghost predicate ListedAs(files: map<string, Content>, dirs: set<string>, folder: string, names: seq<string>) {
    (folder in dirs || DirKey(folder) in dirs)
    && (forall n :: n in names <==> n in ListingOf(files, dirs, DirKey(folder)))
    && (forall i, j :: 0 <= i < j < |names| ==> names[i] != names[j])
  }

  /** The folders Main's walk processed, in order, with the names listed in each: entries
      of the Inbound folder when all folders are walked, and all of them when the walk
      completed; otherwise the named sub-folder when it could be listed. */
  ghost predicate Walked(files: map<string, Content>, dirs: set<string>, inbound: string, all: bool, source: string,
                         completed: bool, folders: seq<string>, listings: seq<seq<string>>)
  {
    Visited(files, dirs, inbound, folders, listings)
    && (!all ==> folders == (if completed then [source] else []))
    && (all ==> forall n :: n in folders ==> n in ListingOf(files, dirs, DirKey(inbound)))
    && (all && completed ==> forall n :: n in ListingOf(files, dirs, DirKey(inbound)) ==> n in folders)
  }

  /** Each sub-folder `folders[k]` of `inbound` was listed as `listings[k]`. */
  ghost predicate Visited(files: map<string, Content>, dirs: set<string>, inbound: string, folders: seq<string>,
                          listings: seq<seq<string>>)
  {
    |listings| == |folders|
    && forall k {:trigger ListedAs(files, dirs, Join(inbound, folders[k]), listings[k])} :: 0 <= k < |folders| ==>
         ListedAs(files, dirs, Join(inbound, folders[k]), listings[k])
  }

  /** The entries of the walk over the sub-folders `folders` of `inbound`, whose names are
      `listings`, folder after folder. */
  function WalkNotes(files: map<string, Content>, dirs: set<string>, inbound: string, folders: seq<string>,
                     listings: seq<seq<string>>, columnPath: string, filePath: string): (r: seq<Note>)
    requires |listings| == |folders|
  {
    if folders == [] then []
    else WalkNotes(files, dirs, inbound, folders[..|folders| - 1], listings[..|listings| - 1], columnPath, filePath)
         + FolderNotes(files, dirs, inbound, Join(inbound, folders[|folders| - 1]), listings[|listings| - 1],
                       columnPath, filePath)
  }

  /** The last name taken by a walk that listed `listings`, or `file0` when none was. */
  function LastFile(file0: string, listings: seq<seq<string>>): (file: string)
    ensures file == file0 || exists k, i :: 0 <= k < |listings| && 0 <= i < |listings[k]| && file == listings[k][i]
  {
    if listings == [] then file0
    else if listings[|listings| - 1] == [] then LastFile(file0, listings[..|listings| - 1])
    else listings[|listings| - 1][|listings[|listings| - 1]| - 1]
  }

  /** Walking one more folder appends that folder's entries, and its last name, if any,
      becomes the last file taken. */
  lemma WalkNotesStep(files: map<string, Content>, dirs: set<string>, inbound: string, folders: seq<string>,
                      listings: seq<seq<string>>, f: string, names: seq<string>, columnPath: string, filePath: string,
                      file0: string)
    requires |listings| == |folders|
    ensures WalkNotes(files, dirs, inbound, folders + [f], listings + [names], columnPath, filePath)
         == WalkNotes(files, dirs, inbound, folders, listings, columnPath, filePath)
            + FolderNotes(files, dirs, inbound, Join(inbound, f), names, columnPath, filePath)
    ensures LastFile(file0, listings + [names]) == (if names == [] then LastFile(file0, listings) else names[|names| - 1])
  {
    assert (folders + [f])[..|folders|] == folders;
    assert (listings + [names])[..|listings|] == listings;
  }

  /** The closing entry of `Main`: Info "Success", or Error with the escaped error and the
      last file name taken. */
  function Closing(result: string, file: string): (n: Note)
    ensures n.severity == Some(SeverityInfo) <==> result == ResultSuccess
    ensures n.result == Some(result)
  {
    if result == ResultSuccess then InfoNote(ResultSuccess) else Note(Some(SeverityError), Some(result), Some(file))
  }

  /** Listing one more folder extends the folders visited. */
  lemma VisitedStep(files: map<string, Content>, dirs: set<string>, inbound: string, folders: seq<string>,
                    listings: seq<seq<string>>, name: string, names: seq<string>)
    requires Visited(files, dirs, inbound, folders, listings)
    requires ListedAs(files, dirs, Join(inbound, name), names)
    ensures Visited(files, dirs, inbound, folders + [name], listings + [names])
  {
    var fs', ls := folders + [name], listings + [names];
    forall k | 0 <= k < |fs'|
      ensures ListedAs(files, dirs, Join(inbound, fs'[k]), ls[k])
    {
      if k < |folders| {
        assert fs'[k] == folders[k] && ls[k] == listings[k];
      }
    }
  }

  /** The walk over the Inbound entries `entries`, as listed, visited `folders`: all of them
      when it completed, otherwise those before the first entry that is not a folder. It
      completed exactly when every entry of the Inbound folder is a folder. */
  lemma {:induction false} EntriesWalked(files: map<string, Content>, dirs: set<string>, inbound: string, source: string,
                                         entries: seq<string>, completed: bool, folders: seq<string>,
                                         listings: seq<seq<string>>)
    requires forall n :: n in entries <==> n in ListingOf(files, dirs, DirKey(inbound))
    requires Seqs.Distinct(entries)
    requires Visited(files, dirs, inbound, folders, listings)
    requires completed ==> folders == entries
    requires !completed ==>
      |folders| < |entries| && folders == entries[..|folders|]
      && !(Join(inbound, entries[|folders|]) in dirs || DirKey(Join(inbound, entries[|folders|])) in dirs)
    ensures Walked(files, dirs, inbound, true, source, completed, folders, listings)
    ensures Seqs.Distinct(folders)
    ensures completed <==> EntriesAreFolders(files, dirs, inbound)
  {
    forall n | n in folders
      ensures n in ListingOf(files, dirs, DirKey(inbound))
    {
      var k :| 0 <= k < |folders| && folders[k] == n;
      if !completed {
        assert entries[k] == n;
      }
    }
    if completed {
      forall n | n in ListingOf(files, dirs, DirKey(inbound))
        ensures Join(inbound, n) in dirs || DirKey(Join(inbound, n)) in dirs
      {
        var k :| 0 <= k < |folders| && folders[k] == n;
        assert ListedAs(files, dirs, Join(inbound, folders[k]), listings[k]);
      }
    } else {
      assert entries[|folders|] in ListingOf(files, dirs, DirKey(inbound));
    }
  }

  /** Every file ends with one entry of its own: Info with an empty `File` when it was passed
      over or its header matched, otherwise Error with the failure and the file's path. A
      file that is not `.csv`/`.txt` logs that one entry and nothing else. */
  lemma FileEndsWithOwnNote(files: map<string, Content>, dirs: set<string>, inbound: string, folder: string, name: string,
                            columnPath: string, filePath: string)
    ensures var r := FileNotes(files, dirs, inbound, folder, name, columnPath, filePath);
      var a := Attempted(files, dirs, inbound, folder, name, columnPath, filePath);
      var last := r[|r| - 1];
      (last.severity == Some(SeverityInfo) <==> !LoadFileToBronze.Ingestible(name) || a.result == ResultSuccess)
      && (last.severity == Some(SeverityInfo) ==> last == Note(Some(SeverityInfo), Some(ResultSuccess), Some("")))
      && (last.severity != Some(SeverityInfo) ==>
            last == Note(Some(SeverityError), Some(a.result), Some(Join(folder, name))))
      && (!LoadFileToBronze.Ingestible(name) ==> r == [Note(Some(SeverityInfo), Some(ResultSuccess), Some(""))])
  {
  }

  class Script {
    const fs: FileSystem
    const env: Environment
    const log: LogBuffer
    /** `os.path.realpath(__file__)`. */
    const caller: string
    /** The script parameters `ConfigurationColumn`, `ConfigurationFile`, `FullPath_Root` and
        `FullPath_Source`. */
    const columnFile: string
    const fileFile: string
    const root: string
    const source: string
    /** The module-level values derived from the parameters at import. */
    const inbound: string
    const configurationsColumn: string
    const configurationsFile: string
    const logFile: string
    const allInboundFolders: bool

    constructor(fs: FileSystem, env: Environment, log: LogBuffer, caller: string,
                columnFile: string, fileFile: string, root: string, source: string)
      ensures this.fs == fs && this.env == env && this.log == log && this.caller == caller
      ensures this.columnFile == columnFile && this.fileFile == fileFile
      ensures this.root == root && this.source == source
      ensures inbound == Join(root, "Inbound")
      ensures configurationsColumn == Join(Join(root, "Admin"), columnFile)
      ensures configurationsFile == Join(Join(root, "Admin"), fileFile)
      ensures logFile == Join3(root, "Admin", "Log.txt")
      ensures allInboundFolders == AllInboundFolders(source, root)
    {
      this.fs := fs;
      this.env := env;
      this.log := log;
      this.caller := caller;
      this.columnFile := columnFile;
      this.fileFile := fileFile;
      this.root := root;
      this.source := source;
      inbound := Join(root, "Inbound");
      configurationsColumn := Join(Join(root, "Admin"), columnFile);
      configurationsFile := Join(Join(root, "Admin"), fileFile);
      logFile := Join3(root, "Admin", "Log.txt");
      allInboundFolders := AllInboundFolders(source, root);
    }

    /** Appends exactly one entry; an empty id is replaced by a fresh one. */
    method LogStep(begin: string, callStack: string, guid: string, parameters: string, v: Varied)
      modifies log, env
      ensures Appended(old(log.entries), log.entries, [Note(v.severity, v.result, v.file)])
      ensures var e := log.entries[|log.entries| - 1];
        e.caller == caller && e.callStack == callStack && e.begin == begin && e.parameters == parameters
    {
      Logging.Record(log, env, begin, caller, callStack, guid, parameters, v);
    }

    /** Reads the file-level configuration and returns its rows for `source`; a failure is
        logged and yields `None`. */
    method RetrieveConfigurationsFile(callStack: string, path: string, parent: string, source: string)
      returns (sheet: Option<Sheet>)
      modifies log, env
      ensures var fc := LoadFileToBronze.FileConfigFor(fs.ReadCsv(path), source);
        (sheet.Some? <==> fc.Ok?) && (fc.Ok? ==> sheet.value == fc.value)
        && Appended(old(log.entries), log.entries, [LookupNote(fc)])
    {
      var begin := env.Now();
      var stack := callStack + " > RetrieveConfigurations_File";
      var guid := env.NewGuid();
      var parameters := DictText([("FullPath_Configurations_File", Repr(path)), ("ParentExecutionGUID", Repr(parent)),
                                  ("Source", Repr(source))]);
      var fc := LoadFileToBronze.FileConfigFor(fs.ReadCsv(path), source);
      if fc.Ok? {
        LogStep(begin, stack, guid, parameters, Step(Some(parent), SeverityInfo, ResultSuccess, None));
        sheet := Some(fc.value);
      } else {
        LogStep(begin, stack, guid, parameters, Step(Some(parent), SeverityError, fc.error, None));
        sheet := None;
      }
    }

    /** Reads the column-level configuration and returns its rows for the id `id`; a
        failure is logged and yields `None`. */
    method RetrieveConfigurationsColumn(callStack: string, id: Cell, path: string, parent: string)
      returns (sheet: Option<Sheet>)
      modifies log, env
      ensures var cc := LoadFileToBronze.ColumnConfigFor(fs.ReadCsv(path), id);
        (sheet.Some? <==> cc.Ok?) && (cc.Ok? ==> sheet.value == cc.value)
        && Appended(old(log.entries), log.entries, [LookupNote(cc)])
    {
      var begin := env.Now();
      var stack := callStack + " > RetrieveConfigurations_Column";
      var guid := env.NewGuid();
      var parameters := DictText([("ConfigurationFileID", Repr(CellText(id))),
                                  ("FullPath_Configurations_Column", Repr(path)), ("ParentExecutionGUID", Repr(parent))]);
      var cc := LoadFileToBronze.ColumnConfigFor(fs.ReadCsv(path), id);
      if cc.Ok? {
        LogStep(begin, stack, guid, parameters, Step(Some(parent), SeverityInfo, ResultSuccess, None));
        sheet := Some(cc.value);
      } else {
        LogStep(begin, stack, guid, parameters, Step(Some(parent), SeverityError, cc.error, None));
        sheet := None;
      }
    }

    /** Compares the actual with the expected header; the missing-columns message overwrites
        the extra-columns message, and each kind of mismatch is logged as an Error. */
    method ValidateColumnHeader(actual: seq<Cell>, callStack: string, expected: seq<Cell>, parent: string)
      returns (r: string)
      modifies log, env
      ensures r == OverwritingResult(actual, expected)
      ensures Appended(old(log.entries), log.entries, OverwritingNotes(actual, expected))
    {
      var begin := env.Now();
      var stack := callStack + " > ValidateColumnHeader";
      var guid := env.NewGuid();
      var parameters := DictText([("ActualColumnsAsList", Render(actual)), ("ExpectedColumnsAsList", Render(expected)),
                                  ("ParentExecutionGUID", Repr(parent))]);
      var extra := ExtraColumns(actual, expected);
      var missing := MissingColumns(actual, expected);
      ghost var log0 := log.entries;
      r := ResultSuccess;
      ghost var notes: seq<Note> := [];
      if |extra| > 0 {
        r := ExtraMessage(extra);
        LogStep(begin, stack, guid, parameters, Step(Some(parent), SeverityError, r, None));
        notes := [ErrorNote(r)];
      }
      assert Appended(log0, log.entries, notes);
      ghost var log1 := log.entries;
      if |missing| > 0 {
        r := MissingMessage(missing);
        LogStep(begin, stack, guid, parameters, Step(Some(parent), SeverityError, r, None));
        AppendedChain(log0, log1, log.entries, notes, [ErrorNote(r)]);
        notes := notes + [ErrorNote(r)];
      }
      ghost var log2 := log.entries;
      if |extra| + |missing| == 0 {
        LogStep(begin, stack, guid, parameters, Step(Some(parent), SeverityInfo, r, None));
        AppendedChain(log0, log2, log.entries, notes, [InfoNote(r)]);
        notes := notes + [InfoNote(r)];
      }
    }

    /** `ProcessFile`: a `.csv`/`.txt` file is configured and its header checked, anything
        else is passed over. The step closes with one entry: Info with an empty `File` on
        success, otherwise Error with the exception's text and the file's path. The method
        cannot change any file: it only reads. */
    method ProcessFile(callStack: string, name: string, columnPath: string, filePath: string,
                       folder: string, parent: string)
      modifies log, env
      ensures Appended(old(log.entries), log.entries, FileNotes(fs.files, fs.dirs, inbound, folder, name, columnPath, filePath))
    {
      var begin := env.Now();
      var stack := callStack + " > ProcessFile";
      var guid := env.NewGuid();
      var parameters := DictText([("DelimiterDefault", Repr(DelimiterDefault)), ("FileName", Repr(name)),
                                  ("FullPath_Configurations_Column", Repr(columnPath)),
                                  ("FullPath_Configurations_File", Repr(filePath)), ("InboundFolder", Repr(folder)),
                                  ("ParentExecutionGUID", Repr(parent))]);
      var r := ResultSuccess;
      var inboundFile := "";
      ghost var notes: seq<Note> := [];
      ghost var log0 := log.entries;
      if LoadFileToBronze.Ingestible(name) {
        inboundFile := Join(folder, name);
        r, notes := Ingest(stack, name, columnPath, filePath, folder, parent);
      }
      ghost var log1 := log.entries;
      if r == ResultSuccess {
        inboundFile := "";
        LogStep(begin, stack, guid, parameters, Step(Some(parent), SeverityInfo, r, Some(inboundFile)));
      } else {
        LogStep(begin, stack, guid, parameters, Step(Some(parent), SeverityError, r, Some(inboundFile)));
      }
      AppendedChain(log0, log1, log.entries, notes, [LoadFileToBronze.FileNote(r, Join(folder, name))]);
    }

    /** Lines 119-144 of `ProcessFile` for a `.csv`/`.txt` file: the file-level lookup and
        the id and delimiter of its first row; `r` is "Success" or the exception's text. */
    method Ingest(stack: string, name: string, columnPath: string, filePath: string, folder: string, parent: string)
      returns (r: string, ghost notes: seq<Note>)
      modifies log, env
      ensures var a := Attempted(fs.files, fs.dirs, inbound, folder, name, columnPath, filePath);
        r == a.result && notes == a.notes
      ensures Appended(old(log.entries), log.entries, notes)
    {
      var source := LoadFileToBronze.SourceOf(folder, inbound);
      ghost var fc := LoadFileToBronze.FileConfigFor(CsvAt(fs.files, fs.dirs, filePath), source);
      var sheet := RetrieveConfigurationsFile(stack, filePath, parent, source);
      notes := [LookupNote(fc)];
      if sheet.None? {
        return NotSubscriptable, notes;
      }
      var id := Pick(sheet.value, "ConfigurationFileID");
      if id.Raised? {
        return id.error, notes;
      }
      var delimiter := Pick(sheet.value, "Delimiter");
      if delimiter.Raised? {
        return delimiter.error, notes;
      }
      ghost var log1 := log.entries;
      ghost var more;
      r, more := Check(stack, name, columnPath, folder, parent, id.value, delimiter.value, notes);
      AppendedChain(old(log.entries), log1, log.entries, notes, more);
      notes := notes + more;
    }

    /** Lines 132-144 of `ProcessFile` once the id is known: the column-level lookup, the
        read of the file, and the header check, whose failure raises a fixed text. */
    method Check(stack: string, name: string, columnPath: string, folder: string, parent: string,
                 id: Cell, delimiter: Cell, ghost notes0: seq<Note>)
      returns (r: string, ghost notes: seq<Note>)
      modifies log, env
      ensures var a := HeaderChecked(CsvAt(fs.files, fs.dirs, Join(folder, name)),
                                     LoadFileToBronze.ColumnConfigFor(CsvAt(fs.files, fs.dirs, columnPath), id),
                                     notes0, id, delimiter);
        r == a.result && notes0 + notes == a.notes
      ensures Appended(old(log.entries), log.entries, notes)
    {
      ghost var cc := LoadFileToBronze.ColumnConfigFor(CsvAt(fs.files, fs.dirs, columnPath), id);
      var sheet := RetrieveConfigurationsColumn(stack, id, columnPath, parent);
      ghost var log1 := log.entries;
      ghost var more;
      r, more := CheckRead(stack, name, folder, parent, sheet, cc, id, delimiter, notes0);
      AppendedChain(old(log.entries), log1, log.entries, [LookupNote(cc)], more);
      notes := [LookupNote(cc)] + more;
    }

    /** Lines 134-144 with the column-level rows `sheet` (of the lookup `cc`) in hand. */
    method CheckRead(stack: string, name: string, folder: string, parent: string, sheet: Option<Sheet>,
                     ghost cc: Result<Sheet>, id: Cell, delimiter: Cell, ghost notes0: seq<Note>)
      returns (r: string, ghost notes: seq<Note>)
      requires cc.Raised? ==> cc.error != ResultSuccess
      requires (sheet.Some? <==> cc.Ok?) && (cc.Ok? ==> sheet.value == cc.value)
      modifies log, env
      ensures var a := HeaderChecked(CsvAt(fs.files, fs.dirs, Join(folder, name)), cc, notes0, id, delimiter);
        r == a.result && a.notes == notes0 + ([LookupNote(cc)] + notes)
      ensures Appended(old(log.entries), log.entries, notes)
    {
      var read := fs.ReadCsv(Join(folder, name));
      ghost var a := HeaderChecked(read, cc, notes0, id, delimiter);
      if read.Raised? {
        assert a == Attempt(notes0 + [LookupNote(cc)], read.error, Some(id), Some(delimiter));
        return read.error, [];
      }
      if sheet.None? {
        assert a == Attempt(notes0 + [LookupNote(cc)], NotSubscriptable, Some(id), Some(delimiter));
        return NotSubscriptable, [];
      }
      r, notes := Compare(stack, Names(read.value.columns), sheet.value, parent);
      HeaderCheckedRead(read, cc, notes0, id, delimiter);
    }

    /** Lines 136-144 of `ProcessFile`: the configured column names against the file's
        header; a mismatch is raised with a fixed text after the validator's entries. */
    method Compare(stack: string, actual: seq<Cell>, sheet: Sheet, parent: string)
      returns (r: string, ghost notes: seq<Note>)
      modifies log, env
      ensures var expected := Column(sheet, "ColumnName_File");
        (expected.Raised? ==> r == expected.error && notes == [])
        && (expected.Ok? ==>
              r == (if Matches(actual, expected.value) then ResultSuccess else HeaderError)
              && notes == OverwritingNotes(actual, expected.value))
      ensures Appended(old(log.entries), log.entries, notes)
    {
      var expected := Column(sheet, "ColumnName_File");
      if expected.Raised? {
        return expected.error, [];
      }
      r := ValidateColumnHeader(actual, stack, expected.value, parent);
      notes := OverwritingNotes(actual, expected.value);
      if r != ResultSuccess {
        r := HeaderError;
      }
    }

    /** The inner loop of `Main` over one folder: every name `os.listdir` reports goes
        through `ProcessFile`, which never raises; `file` follows the name in hand. A folder
        that cannot be listed raises before any name is taken. */
    method ProcessFolder(folder: string, guid: string, file0: string)
      returns (err: Option<string>, file: string, ghost names: seq<string>)
      modifies log, env
      ensures err.None? <==> fs.IsDir(folder)
      ensures err.Some? ==>
        err.value == (if folder in fs.files then WinError("267", InvalidDirectoryText, folder)
                      else WinError("3", PathNotFoundText, folder))
        && file == file0 && log.entries == old(log.entries)
      ensures err.None? ==>
        (forall n :: n in names <==> n in fs.Listing(DirKey(folder)))
        && (forall i, j :: 0 <= i < j < |names| ==> names[i] != names[j])
        && file == (if names == [] then file0 else names[|names| - 1])
        && Appended(old(log.entries), log.entries,
                    FolderNotes(fs.files, fs.dirs, inbound, folder, names, configurationsColumn, configurationsFile))
    {
      file := file0;
      names := [];
      var listing := fs.ListDir(folder);
      if listing.Raised? {
        err := Some(listing.error);
        return;
      }
      names := listing.value;
      file := ProcessNames(listing.value, folder, guid, file0);
      err := None;
    }

    /** The inner loop of `Main` over the names of `folder`, in the order listed. */
    method ProcessNames(names: seq<string>, folder: string, guid: string, file0: string) returns (file: string)
      modifies log, env
      ensures file == (if names == [] then file0 else names[|names| - 1])
      ensures Appended(old(log.entries), log.entries,
                       FolderNotes(fs.files, fs.dirs, inbound, folder, names, configurationsColumn, configurationsFile))
    {
      file := file0;
      var i := 0;
      while i < |names|
        invariant 0 <= i <= |names|
        invariant file == (if i == 0 then file0 else names[i - 1])
        invariant Appended(old(log.entries), log.entries,
                           FolderNotes(fs.files, fs.dirs, inbound, folder, names[..i], configurationsColumn, configurationsFile))
      {
        file := names[i];
        ProcessNext(names, i, folder, guid, old(log.entries));
        i := i + 1;
      }
      assert names[..i] == names;
    }

    /** One turn of the inner loop of `Main`: the `i`-th name goes through `ProcessFile`. */
    method ProcessNext(names: seq<string>, i: nat, folder: string, guid: string, ghost log0: seq<LogEntry>)
      requires i < |names|
      requires Appended(log0, log.entries,
                        FolderNotes(fs.files, fs.dirs, inbound, folder, names[..i], configurationsColumn, configurationsFile))
      modifies log, env
      ensures Appended(log0, log.entries,
                       FolderNotes(fs.files, fs.dirs, inbound, folder, names[..i + 1], configurationsColumn, configurationsFile))
    {
      ghost var log1 := log.entries;
      ProcessFile("Main", names[i], configurationsColumn, configurationsFile, folder, guid);
      AppendedChain(log0, log1, log.entries,
                    FolderNotes(fs.files, fs.dirs, inbound, folder, names[..i], configurationsColumn, configurationsFile),
                    FileNotes(fs.files, fs.dirs, inbound, folder, names[i], configurationsColumn, configurationsFile));
      FolderNotesStep(fs.files, fs.dirs, inbound, folder, names, i, configurationsColumn, configurationsFile);
    }

    /** `ProcessFolder` as the walk sees it: it completes exactly on a folder, and a listing
        error leaves the log and the last file name alone. */
    method Visit(folder: string, guid: string, file0: string)
      returns (err: Option<string>, file: string, ghost names: seq<string>)
      modifies log, env
      ensures err.None? <==> fs.IsDir(folder)
      ensures err.Some? ==> err.value != ResultSuccess && file == file0 && log.entries == old(log.entries)
      ensures err.None? ==>
        ListedAs(fs.files, fs.dirs, folder, names) && file == (if names == [] then file0 else names[|names| - 1])
        && Appended(old(log.entries), log.entries,
                    FolderNotes(fs.files, fs.dirs, inbound, folder, names, configurationsColumn, configurationsFile))
      ensures GrewBy(old(log.entries), log.entries, 0)
    {
      err, file, names := ProcessFolder(folder, guid, file0);
    }

    /** The folder walk of `Main`: every entry of the Inbound folder, or the one named by
        `FullPath_Source`. It completes exactly when every folder it lists can be listed;
        otherwise the listing error escapes to `Main`. `folders` are the folders processed
        and `listings` the names listed in each. */
    method Walk(guid: string)
      returns (err: Option<string>, file: string, ghost folders: seq<string>, ghost listings: seq<seq<string>>)
      modifies log, env
      ensures err.None? <==> WalkCompletes(fs, inbound, allInboundFolders, source)
      ensures err.Some? ==> err.value != ResultSuccess
      ensures Walked(fs.files, fs.dirs, inbound, allInboundFolders, source, err.None?, folders, listings)
      ensures Seqs.Distinct(folders)
      ensures file == LastFile("", listings)
      ensures Appended(old(log.entries), log.entries,
                       WalkNotes(fs.files, fs.dirs, inbound, folders, listings, configurationsColumn, configurationsFile))
    {
      if !allInboundFolders {
        err, file, folders, listings := WalkSource(guid);
      } else {
        err, file, folders, listings := WalkEntries(guid);
      }
    }

    /** The walk of `Main` with a source folder named: that one sub-folder. */
    method WalkSource(guid: string)
      returns (err: Option<string>, file: string, ghost folders: seq<string>, ghost listings: seq<seq<string>>)
      modifies log, env
      ensures err.None? <==> fs.IsDir(Join(inbound, source))
      ensures err.Some? ==> err.value != ResultSuccess
      ensures Walked(fs.files, fs.dirs, inbound, false, source, err.None?, folders, listings)
      ensures Seqs.Distinct(folders)
      ensures file == LastFile("", listings)
      ensures Appended(old(log.entries), log.entries,
                       WalkNotes(fs.files, fs.dirs, inbound, folders, listings, configurationsColumn, configurationsFile))
    {
      ghost var names;
      folders, listings := [], [];
      err, file, names := Visit(Join(inbound, source), guid, "");
      if err.None? {
        folders, listings := [source], [names];
        WalkNotesStep(fs.files, fs.dirs, inbound, [], [], source, names, configurationsColumn, configurationsFile, "");
        assert ListedAs(fs.files, fs.dirs, Join(inbound, folders[0]), listings[0]);
      } else {
        assert log.entries[|old(log.entries)|..] == [];
      }
    }

    /** The walk of `Main` over every entry of the Inbound folder, in the order listed; the
        first entry that cannot be listed stops it. */
    method WalkEntries(guid: string)
      returns (err: Option<string>, file: string, ghost folders: seq<string>, ghost listings: seq<seq<string>>)
      modifies log, env
      ensures err.None? <==> WalkCompletes(fs, inbound, true, source)
      ensures err.Some? ==> err.value != ResultSuccess
      ensures Walked(fs.files, fs.dirs, inbound, true, source, err.None?, folders, listings)
      ensures Seqs.Distinct(folders)
      ensures file == LastFile("", listings)
      ensures Appended(old(log.entries), log.entries,
                       WalkNotes(fs.files, fs.dirs, inbound, folders, listings, configurationsColumn, configurationsFile))
    {
      var entries := fs.ListDir(inbound);
      if entries.Raised? {
        file, folders, listings := "", [], [];
        assert log.entries[|old(log.entries)|..] == [];
        return Some(entries.error), file, folders, listings;
      }
      err, file, folders, listings := WalkList(entries.value, guid);
      EntriesWalked(fs.files, fs.dirs, inbound, source, entries.value, err.None?, folders, listings);
    }

    /** The loop of `Main` over the Inbound entries `entries`: each goes through
        `ProcessFolder` until one cannot be listed. */
    method WalkList(entries: seq<string>, guid: string)
      returns (err: Option<string>, file: string, ghost folders: seq<string>, ghost listings: seq<seq<string>>)
      modifies log, env
      ensures Visited(fs.files, fs.dirs, inbound, folders, listings)
      ensures err.None? ==> folders == entries
      ensures err.Some? ==>
        err.value != ResultSuccess && |folders| < |entries| && folders == entries[..|folders|]
        && !fs.IsDir(Join(inbound, entries[|folders|]))
      ensures file == LastFile("", listings)
      ensures Appended(old(log.entries), log.entries,
                       WalkNotes(fs.files, fs.dirs, inbound, folders, listings, configurationsColumn, configurationsFile))
    {
      file, folders, listings := "", [], [];
      assert log.entries[|old(log.entries)|..] == [];
      var i := 0;
      while i < |entries|
        invariant 0 <= i <= |entries| && folders == entries[..i]
        invariant Visited(fs.files, fs.dirs, inbound, folders, listings)
        invariant file == LastFile("", listings)
        invariant Appended(old(log.entries), log.entries,
                           WalkNotes(fs.files, fs.dirs, inbound, folders, listings, configurationsColumn, configurationsFile))
      {
        err, file, folders, listings := WalkNext(entries[i], guid, file, folders, listings, old(log.entries));
        if err.Some? {
          return;
        }
        Seqs.PrefixExtended(entries, i);
        i := i + 1;
      }
      assert folders == entries;
      err := None;
    }

    /** One turn of the walk over the Inbound entries: the folder `name` after the folders
        `folders`; an error leaves everything as it was. */
    method WalkNext(name: string, guid: string, file0: string, ghost folders: seq<string>,
                    ghost listings: seq<seq<string>>, ghost log0: seq<LogEntry>)
      returns (err: Option<string>, file: string, ghost folders': seq<string>, ghost listings': seq<seq<string>>)
      requires Visited(fs.files, fs.dirs, inbound, folders, listings)
      requires file0 == LastFile("", listings)
      requires Appended(log0, log.entries,
                        WalkNotes(fs.files, fs.dirs, inbound, folders, listings, configurationsColumn, configurationsFile))
      modifies log, env
      ensures err.None? <==> fs.IsDir(Join(inbound, name))
      ensures err.Some? ==> err.value != ResultSuccess && file == file0 && folders' == folders && listings' == listings
                            && log.entries == old(log.entries)
      ensures err.None? ==> folders' == folders + [name]
      ensures Visited(fs.files, fs.dirs, inbound, folders', listings')
      ensures file == LastFile("", listings')
      ensures Appended(log0, log.entries,
                       WalkNotes(fs.files, fs.dirs, inbound, folders', listings', configurationsColumn, configurationsFile))
    {
      ghost var log1 := log.entries;
      ghost var names;
      folders', listings' := folders, listings;
      err, file, names := Visit(Join(inbound, name), guid, file0);
      if err.None? {
        AppendedChain(log0, log1, log.entries,
                      WalkNotes(fs.files, fs.dirs, inbound, folders, listings, configurationsColumn, configurationsFile),
                      FolderNotes(fs.files, fs.dirs, inbound, Join(inbound, name), names, configurationsColumn,
                                  configurationsFile));
        WalkNotesStep(fs.files, fs.dirs, inbound, folders, listings, name, names, configurationsColumn,
                      configurationsFile, "");
        VisitedStep(fs.files, fs.dirs, inbound, folders, listings, name, names);
        folders', listings' := folders + [name], listings + [names];
      }
    }

    /** The parameter checks of `Main`: one Error entry per empty required parameter. */
    method LogMissing(begin: string, guid: string) returns (missing: bool)
      modifies log, env
      ensures missing <==> MissingNotes(columnFile, fileFile, root) != []
      ensures Appended(old(log.entries), log.entries, MissingNotes(columnFile, fileFile, root))
    {
      var m1 := CheckParameter(begin, guid, columnFile, "ConfigurationColumn");
      ghost var log1 := log.entries;
      var m2 := CheckParameter(begin, guid, fileFile, "ConfigurationFile");
      AppendedChain(old(log.entries), log1, log.entries, MissingNote(columnFile, "ConfigurationColumn"),
                    MissingNote(fileFile, "ConfigurationFile"));
      ghost var log2 := log.entries;
      var m3 := CheckParameter(begin, guid, root, "FullPath_Root");
      AppendedChain(old(log.entries), log2, log.entries,
                    MissingNote(columnFile, "ConfigurationColumn") + MissingNote(fileFile, "ConfigurationFile"),
                    MissingNote(root, "FullPath_Root"));
      missing := m1 || m2 || m3;
    }

    /** One parameter check of `Main`: an Error entry when the value is empty. */
    method CheckParameter(begin: string, guid: string, value: string, parameter: string) returns (missing: bool)
      modifies log, env
      ensures missing <==> value == ""
      ensures Appended(old(log.entries), log.entries, MissingNote(value, parameter))
    {
      missing := value == "";
      if missing {
        LogStep(begin, "Main", guid, "", Step(None, SeverityError, "Script parameter value missing: " + parameter, None));
      } else {
        assert log.entries[..|log.entries|] == log.entries;
      }
    }

    /** `Main`: the parameter checks, the folder walk when all three parameters are set, the
        closing entry (Info "Success", or Error with the escaped listing error and the last
        file name taken), then the log file write. Nothing but the log file changes. */
    method Run()
      returns (result: string, file: string, ghost folders: seq<string>, ghost listings: seq<seq<string>>)
      requires fs.Valid()
      modifies log, env, fs
      ensures MissingNotes(columnFile, fileFile, root) != [] ==> folders == [] && listings == []
      ensures Seqs.Distinct(folders)
      ensures MissingNotes(columnFile, fileFile, root) == [] ==>
        old(Walked(fs.files, fs.dirs, inbound, allInboundFolders, source, result == ResultSuccess, folders, listings))
        && file == LastFile("", listings)
        && Appended(old(log.entries), log.entries,
                    old(WalkNotes(fs.files, fs.dirs, inbound, folders, listings, configurationsColumn, configurationsFile))
                    + [Closing(result, file)])
      ensures fs.Valid() && fs.dirs == old(fs.dirs)
      ensures fs.files - {logFile} == old(fs.files) - {logFile}
      ensures MissingNotes(columnFile, fileFile, root) != [] ==>
        result == ResultSuccess
        && Appended(old(log.entries), log.entries, MissingNotes(columnFile, fileFile, root) + [InfoNote(ResultSuccess)])
      ensures MissingNotes(columnFile, fileFile, root) == [] ==>
        (result == ResultSuccess <==> old(WalkCompletes(fs, inbound, allInboundFolders, source)))
      ensures result == ResultSuccess ==> EndsWithNote(old(log.entries), log.entries, InfoNote(ResultSuccess))
      ensures result != ResultSuccess ==>
        EndsWithNote(old(log.entries), log.entries, Note(Some(SeverityError), Some(result), Some(file)))
      ensures logFile in fs.files ==> EndsWithRecords(fs.files[logFile], EntryRecords(SortByBegin(log.entries)))
    {
      result, file, folders, listings := Steps();
      WriteToLogFile();
    }

    /** `Main` up to its `finally`: everything it logs, and the result it ends with. */
    method Steps()
      returns (result: string, file: string, ghost folders: seq<string>, ghost listings: seq<seq<string>>)
      modifies log, env
      ensures MissingNotes(columnFile, fileFile, root) != [] ==> folders == [] && listings == []
      ensures Seqs.Distinct(folders)
      ensures MissingNotes(columnFile, fileFile, root) == [] ==>
        Walked(fs.files, fs.dirs, inbound, allInboundFolders, source, result == ResultSuccess, folders, listings)
        && file == LastFile("", listings)
        && Appended(old(log.entries), log.entries,
                    WalkNotes(fs.files, fs.dirs, inbound, folders, listings, configurationsColumn, configurationsFile)
                    + [Closing(result, file)])
      ensures MissingNotes(columnFile, fileFile, root) != [] ==>
        result == ResultSuccess
        && Appended(old(log.entries), log.entries, MissingNotes(columnFile, fileFile, root) + [InfoNote(ResultSuccess)])
      ensures MissingNotes(columnFile, fileFile, root) == [] ==>
        (result == ResultSuccess <==> WalkCompletes(fs, inbound, allInboundFolders, source))
      ensures result == ResultSuccess ==> EndsWithNote(old(log.entries), log.entries, InfoNote(ResultSuccess))
      ensures result != ResultSuccess ==>
        EndsWithNote(old(log.entries), log.entries, Note(Some(SeverityError), Some(result), Some(file)))
    {
      folders, listings := [], [];
      var begin := env.Now();
      var guid := env.NewGuid();
      var missing := LogMissing(begin, guid);
      ghost var log1 := log.entries;
      if missing {
        result, file := CloseUnwalked(begin, guid, old(log.entries));
      } else {
        assert log1 == log1[..|old(log.entries)|] == old(log.entries);
        result, file, folders, listings := WalkAndClose(begin, guid);
      }
    }

    /** The end of `Main` when a parameter is missing: nothing is walked, and the
        run closes with an Info "Success" entry after the missing-parameter entries. */
    method CloseUnwalked(begin: string, guid: string, ghost log0: seq<LogEntry>)
      returns (result: string, file: string)
      requires Appended(log0, log.entries, MissingNotes(columnFile, fileFile, root))
      modifies log, env
      ensures result == ResultSuccess && file == ""
      ensures Appended(log0, log.entries, MissingNotes(columnFile, fileFile, root) + [InfoNote(ResultSuccess)])
      ensures EndsWithNote(log0, log.entries, InfoNote(ResultSuccess))
    {
      ghost var log1 := log.entries;
      result, file := ResultSuccess, "";
      Close(begin, guid, result, file);
      AppendedChain(log0, log1, log.entries, MissingNotes(columnFile, fileFile, root), [InfoNote(ResultSuccess)]);
      EndsWithLast(log0, log1, log.entries, |MissingNotes(columnFile, fileFile, root)|, InfoNote(ResultSuccess));
    }

    /** The walk of `Main` and its closing entry, which the walk's error replaces. */
    method WalkAndClose(begin: string, guid: string)
      returns (result: string, file: string, ghost folders: seq<string>, ghost listings: seq<seq<string>>)
      modifies log, env
      ensures result == ResultSuccess <==> WalkCompletes(fs, inbound, allInboundFolders, source)
      ensures Walked(fs.files, fs.dirs, inbound, allInboundFolders, source, result == ResultSuccess, folders, listings)
      ensures Seqs.Distinct(folders)
      ensures file == LastFile("", listings)
      ensures Appended(old(log.entries), log.entries,
                       WalkNotes(fs.files, fs.dirs, inbound, folders, listings, configurationsColumn, configurationsFile)
                       + [Closing(result, file)])
      ensures EndsWithNote(old(log.entries), log.entries, Closing(result, file))
    {
      result := ResultSuccess;
      var err;
      err, file, folders, listings := Walk(guid);
      if err.Some? {
        result := err.value;
      }
      ghost var log1 := log.entries;
      Close(begin, guid, result, file);
      AppendedChain(old(log.entries), log1, log.entries,
                    WalkNotes(fs.files, fs.dirs, inbound, folders, listings, configurationsColumn, configurationsFile),
                    [Closing(result, file)]);
      EndsWithLast(old(log.entries), log1, log.entries, 0, Closing(result, file));
    }

    /** The closing entry of `Main`. */
    method Close(begin: string, guid: string, result: string, file: string)
      modifies log, env
      ensures Appended(old(log.entries), log.entries, [Closing(result, file)])
    {
      if result == ResultSuccess {
        LogStep(begin, "Main", guid, "", Step(None, SeverityInfo, result, None));
      } else {
        LogStep(begin, "Main", guid, "", Step(None, SeverityError, result, Some(file)));
      }
    }

    /** Appends the buffered entries, ordered by `Begin`, to the log file. An empty buffer
        and a failed write are passed over silently. */
    method WriteToLogFile()
      requires fs.Valid()
      modifies fs
      ensures fs.Valid() && fs.dirs == old(fs.dirs)
      ensures |log.entries| > 0 && logFile in fs.files ==>
        EndsWithRecords(fs.files[logFile], EntryRecords(SortByBegin(log.entries)))
      ensures |log.entries| > 0 && !old(fs.IsDir(logFile)) && old(fs.ParentExists(logFile)) ==>
        fs.files == old(fs.files)[logFile := (if logFile in old(fs.files) then old(fs.files)[logFile] else [])
                                             + EntryRecords(SortByBegin(log.entries))]
      ensures !(|log.entries| > 0 && !old(fs.IsDir(logFile)) && old(fs.ParentExists(logFile))) ==>
        fs.files == old(fs.files)
      ensures fs.files - {logFile} == old(fs.files) - {logFile}
    {
      if |log.entries| > 0 {
        if logFile in fs.files {
          assert Placed(fs.dirs, logFile);
        }
        ghost var files0 := fs.files;
        var err := fs.AppendRecords(logFile, EntryRecords(SortByBegin(log.entries)));
        if err.None? {
          UpdateElsewhere(files0, logFile, fs.files[logFile]);
        }
      }
    }
  }
}
