/** The shared helpers of the Admin scripts (Admin/Utilities.py): the folder layout under the
    repository root, the log buffer, moving files, reading or creating the configuration and
    log files, caching the configuration tables, the joined-style header check and the log
    write. Every helper catches its own exceptions and turns them into an error message that
    names the script, the function and the line the exception passed through. */
module AdminUtilities {
  import opened Wrappers
  import opened Text
  import opened Paths
  import opened Tables
  import opened Logging
  import opened Headers
  import opened Files
  import opened Config

  /** Columns of `ConfigurationColumn.txt`. */
  const ColumnFileDefinition: seq<string> := [
    "ColumnName_Bronze", "ColumnName_File", "ColumnName_Silver", "ColumnName_Gold",
    "ConfigurationColumnOrder", "ConfigurationFileID", "Datatype", "Transformation_FileToBronze"
  ]

  /** Columns of `ConfigurationFile.txt`. */
  const FileFileDefinition: seq<string> := [
    "Account", "ConfigurationFileID", "DefaultCategory", "Delimiter", "Source", "TextQualifier"
  ]

  /** The common head of both error-message forms. */
  function ErrorHead(currentFunction: string, scriptFile: string, line: nat): string {
    "Error in " + scriptFile + " > " + currentFunction + "() on line " + Decimal(line)
  }

  /** `BuildErrorMessage`: the one-line form for the log, or the multi-line form (error and
      parameters on their own lines) for the console. `line` is the line of the handling
      function the exception passed through. */
  function BuildErrorMessage(currentFunction: string, scriptFile: string, line: nat, message: string,
                             logError: bool, parameters: string): (r: string)
    ensures StartsWith(r, ErrorHead(currentFunction, scriptFile, line))
    ensures r != ResultSuccess
    ensures logError ==> EndsWith(r, ": " + message)
    ensures !logError ==> EndsWith(r, "\r\nError: " + message + "\r\nParameters: " + parameters)
  {
    var head := ErrorHead(currentFunction, scriptFile, line);
    var r := if logError then head + (": " + message)
             else head + ("\r\nError: " + message + "\r\nParameters: " + parameters);
    assert r[..|head|] == head;
    assert r[0] == 'E';
    r
  }

  /** The two forms differ only after the common head, and the line is readable from it. */
  lemma ErrorFormsShareHead(currentFunction: string, scriptFile: string, line: nat, message: string,
                            parameters: string)
    ensures var logged := BuildErrorMessage(currentFunction, scriptFile, line, message, true, parameters);
      var shown := BuildErrorMessage(currentFunction, scriptFile, line, message, false, parameters);
      var head := ErrorHead(currentFunction, scriptFile, line);
      logged[..|head|] == shown[..|head|]
      && logged == head + ": " + message
      && shown == head + "\r\nError: " + message + "\r\nParameters: " + parameters
  {
  }

  /** The folders `SetGlobalVariables` derives, and the three files in the Admin folder. */
  datatype Folders = Folders(
    root: string, admin: string,
    bronze: string, bronzeArchive: string, bronzeError: string, bronzeInbound: string,
    gold: string, goldDimensions: string, goldError: string, goldFacts: string, goldInbound: string,
    silver: string, silverDimensions: string, silverError: string, silverFacts: string, silverInbound: string,
    configurationsColumn: string, configurationsFile: string, logFile: string)

  /** The module's initial values: every path empty. */
  const NoFolders: Folders := Folders("", "", "", "", "", "", "", "", "", "", "", "", "", "", "", "", "", "", "")

  /** The folders `SetGlobalVariables` builds below `base`, the parent of the Admin folder:
      the root is `base` joined with an empty name (so it ends with a separator), and each
      layer and its sub-folders are joined below it. */
  predicate FolderTree(f: Folders, base: string) {
    f.root == Join(base, "") && f.admin == Join(f.root, "Admin")
    && f.bronze == Join(f.root, "Bronze") && f.bronzeArchive == Join(f.bronze, "Archive")
    && f.bronzeError == Join(f.bronze, "Error") && f.bronzeInbound == Join(f.bronze, "Inbound")
    && f.gold == Join(f.root, "Gold") && f.goldDimensions == Join(f.gold, "Dimensions")
    && f.goldError == Join(f.gold, "Error") && f.goldFacts == Join(f.gold, "Facts") && f.goldInbound == Join(f.gold, "Inbound")
    && f.silver == Join(f.root, "Silver") && f.silverDimensions == Join(f.silver, "Dimensions")
    && f.silverError == Join(f.silver, "Error") && f.silverFacts == Join(f.silver, "Facts")
    && f.silverInbound == Join(f.silver, "Inbound")
  }

  /** The configuration and log files sit in the Admin folder. */
  predicate AdminFiles(f: Folders) {
    f.configurationsColumn == Join(f.admin, "ConfigurationColumn.txt")
    && f.configurationsFile == Join(f.admin, "ConfigurationFile.txt")
    && f.logFile == Join(f.admin, "Log.txt")
  }

  /** The complete layout below `base`. */
  predicate IsLayout(f: Folders, base: string) {
    FolderTree(f, base) && AdminFiles(f)
  }

  /** Below a base folder written without a trailing separator, the root is that folder
      with one separator added, the layers and the Admin folder sit directly in it, and a
      file named without separators is found in the Admin folder under that name. */
  lemma {:induction false} AdminPlacement(f: Folders, base: string, name: string)
    requires FolderTree(f, base)
    requires base != [] && !IsSep(base[|base| - 1])
    requires NoSep(name)
    ensures f.root == base + [Sep] && f.admin == f.root + "Admin"
    ensures f.bronze == f.root + "Bronze" && f.gold == f.root + "Gold" && f.silver == f.root + "Silver"
    ensures DirName(Join(f.admin, name)) == f.admin && BaseName(Join(f.admin, name)) == name
  {
    assert f.root == base + [Sep];
    assert f.admin[|f.admin| - 1] == 'n';
    JoinSplit(f.admin, name);
  }

  /** Line 164 or 165 of `MoveFile` on the folder `d`: `os.makedirs` is called only when the
      folder is given and does not exist, and then succeeds exactly when it can make it. */
  predicate MakeOk(files: map<string, Content>, dirs: set<string>, d: string) {
    d == "" || PresentIn(files, dirs, d) || Makeable(files, d)
  }

  /** The folders after line 164 or 165 of `MoveFile` on the folder `d` succeeded. */
  function DirsAfterMake(files: map<string, Content>, dirs: set<string>, d: string): set<string> {
    if d == "" || PresentIn(files, dirs, d) then dirs else dirs + {DirKey(d)} + AncestorsOf(DirKey(d))
  }

  /** The folders after both folder steps of `MoveFile(source, target)`, the source's first. */
  function DirsAfterMove(files: map<string, Content>, dirs: set<string>, source: string, target: string): set<string> {
    DirsAfterMake(files, DirsAfterMake(files, dirs, DirName(source)), DirName(target))
  }

  /** `MoveFile(source, target)` moves its file: both paths are given, the missing folders of
      the source and then of the target can be made, the re-joined source is a file, and once
      the folders are made the re-joined target's folder exists and the target does not. */
  predicate MoveSucceeds(files: map<string, Content>, dirs: set<string>, source: string, target: string) {
    var d1 := DirsAfterMake(files, dirs, DirName(source));
    var d2 := DirsAfterMove(files, dirs, source, target);
    var tgt := Join(DirName(target), BaseName(target));
    source != "" && target != ""
    && MakeOk(files, dirs, DirName(source)) && MakeOk(files, d1, DirName(target))
    && Join(DirName(source), BaseName(source)) in files
    && ParentIn(d2, tgt) && !PresentIn(files, d2, tgt)
  }

  /** Between folders that exist, `MoveFile` makes no folder, and it moves its file exactly
      when the re-joined source is a file and the re-joined target is free. */
  lemma MoveBetweenFolders(files: map<string, Content>, dirs: set<string>, source: string, target: string)
    requires DirName(source) in dirs && DirName(target) in dirs
    ensures DirsAfterMove(files, dirs, source, target) == dirs
    ensures MoveSucceeds(files, dirs, source, target) <==>
      source != "" && target != "" && Join(DirName(source), BaseName(source)) in files
      && ParentIn(dirs, Join(DirName(target), BaseName(target)))
      && !PresentIn(files, dirs, Join(DirName(target), BaseName(target)))
  {
  }

  /** Below a base folder written without a trailing separator, the log file is `Log.txt`
      directly in the Admin folder, which sits directly in the root. */
  predicate LogFilePlaced(f: Folders, base: string) {
    base != [] && !IsSep(base[|base| - 1]) ==>
      f.root == base + [Sep] && f.admin == f.root + "Admin"
      && DirName(f.logFile) == f.admin && BaseName(f.logFile) == "Log.txt"
  }

  /** In the layout below a base folder written without a trailing separator, the log file
      is placed as `LogFilePlaced` says. */
  lemma LayoutPlacesLog(f: Folders, base: string)
    requires FolderTree(f, base) && f.logFile == Join(f.admin, "Log.txt")
    ensures LogFilePlaced(f, base)
  {
    if base != [] && !IsSep(base[|base| - 1]) {
      AdminPlacement(f, base, "Log.txt");
    }
  }

  /** The file at the non-empty path `p` reads as a header with no rows. */
  predicate EmptyTable(p: string, files: map<string, Content>) {
    p != "" && p in files && Parse(files[p]).Ok? && |Parse(files[p]).value.rows| == 0
  }

  /** A file is retrievable when its path is not empty and it reads with at least one data
      row under exactly the expected columns. */
  predicate Retrievable(p: string, read: Result<Frame>, definition: seq<string>) {
    p != "" && read.Ok? && |read.value.rows| > 0 && Matches(Names(read.value.columns), Names(definition))
  }

  /** The module state of Admin/Utilities.py: the calling script, the folder layout, the
      cached configuration tables and the log-file validity flag. The file system, the clock
      and id generator and the log buffer are shared with the calling script. */
  class Utilities {
    const fs: FileSystem
    const env: Environment
    const log: LogBuffer
    /** `os.path.realpath(__file__)` of this module. */
    const scriptFile: string
    /** `str(Path(__file__).parent.parent)`. */
    const base: string

    var callingObject: string
    var folders: Folders
    var configurationsColumnAll: Sheet
    var configurationsFileAll: Sheet
    var isValidLogFile: bool

    constructor(fs: FileSystem, env: Environment, log: LogBuffer, scriptFile: string, base: string)
      ensures this.fs == fs && this.env == env && this.log == log
      ensures this.scriptFile == scriptFile && this.base == base
      ensures callingObject == "" && folders == NoFolders
      ensures configurationsColumnAll == NoSheet && configurationsFileAll == NoSheet
      ensures !isValidLogFile
    {
      this.fs := fs;
      this.env := env;
      this.log := log;
      this.scriptFile := scriptFile;
      this.base := base;
      callingObject := "";
      folders := NoFolders;
      configurationsColumnAll := NoSheet;
      configurationsFileAll := NoSheet;
      isValidLogFile := false;
    }

    /** Appends exactly one entry, recorded under the given caller; an empty id is replaced
        by a fresh one. */
    method LogStep(begin: string, caller: string, callStack: string, guid: string, parameters: string, v: Varied)
      modifies log, env
      ensures Appended(old(log.entries), log.entries, [Note(v.severity, v.result, v.file)])
      ensures var e := log.entries[|log.entries| - 1];
        e.caller == caller && e.callStack == callStack && e.begin == begin && e.parameters == parameters
        && e.parentExecutionGuid == v.parent
        && e.executionGuid == (if guid == "" then GuidText(old(env.issued)) else guid)
    {
      Logging.Record(log, env, begin, caller, callStack, guid, parameters, v);
    }

    /** Logs the error a handler of `currentFunction` built for an exception that passed
        through `line`, and returns it. */
    method Fail(begin: string, currentFunction: string, stack: string, guid: string, parameters: string,
                parent: string, line: nat, message: string) returns (r: string)
      modifies log, env
      ensures r == BuildErrorMessage(currentFunction, scriptFile, line, message, true, "")
      ensures Appended(old(log.entries), log.entries, [ErrorNote(r)])
    {
      r := BuildErrorMessage(currentFunction, scriptFile, line, message, true, "");
      LogStep(begin, callingObject, stack, guid, parameters, Step(Some(parent), SeverityError, r, None));
    }

    /** One creation step of `BuildFolderPath`: a non-empty missing folder is created and
        the creation logged as Info; the error of a failed creation is handed back unlogged. */
    method CreateFolder(begin: string, stack: string, guid: string, parameters: string, parent: string, p: string)
      returns (err: Option<string>)
      requires fs.Valid()
      modifies log, env, fs
      ensures fs.Valid() && fs.files == old(fs.files) && old(fs.dirs) <= fs.dirs
      ensures err.None? ==> p == "" || fs.Exists(p)
      ensures p == "" || old(fs.Exists(p)) ==> err.None? && fs.dirs == old(fs.dirs) && log.entries == old(log.entries)
      ensures err.Some? ==> err.value != ResultSuccess && log.entries == old(log.entries)
      ensures GrewBy(old(log.entries), log.entries, 0) && |log.entries| <= |old(log.entries)| + 1
    {
      err := None;
      if p != "" && !fs.Exists(p) {
        err := fs.MakeDirs(p);
        if err.None? {
          LogStep(begin, callingObject, stack, guid, parameters, Step(Some(parent), SeverityInfo, "Created " + p, None));
        }
      }
    }

    /** `BuildFolderPath`: creates `folder` and then `folder` joined with `sub` where they
        are missing, logging an Info entry per creation. A failure creating `folder` leaves
        the joined path unassigned, so the function itself raises (`Raised`) after logging. */
    method BuildFolderPath(callStack: string, folder: string, sub: string, parent: string)
      returns (r: string, fullPath: Result<string>)
      requires fs.Valid()
      modifies log, env, fs
      ensures fs.Valid() && fs.files == old(fs.files) && old(fs.dirs) <= fs.dirs
      ensures fullPath.Ok? ==> fullPath.value == Join(folder, sub) && (folder == "" || fs.Exists(folder))
      ensures fullPath.Raised? ==> fullPath.error == UnboundLocal("FullPath") && r != ResultSuccess
      ensures r == ResultSuccess ==>
        fullPath.Ok? && (folder == "" || fs.Exists(folder)) && (Join(folder, sub) == "" || fs.Exists(Join(folder, sub)))
      ensures (folder == "" || old(fs.Exists(folder))) && (Join(folder, sub) == "" || old(fs.Exists(Join(folder, sub)))) ==>
        r == ResultSuccess && fullPath.Ok? && fs.dirs == old(fs.dirs) && log.entries == old(log.entries)
      ensures GrewBy(old(log.entries), log.entries, 0) && |log.entries| <= |old(log.entries)| + 2
      ensures r != ResultSuccess ==> EndsWithNote(old(log.entries), log.entries, ErrorNote(r))
    {
      var begin := env.Now();
      var stack := callStack + " > BuildFolderPath";
      var guid := env.NewGuid();
      var parameters := DictText([("Folder", Repr(folder)), ("ParentExecutionGUID", Repr(parent)), ("SubFolder", Repr(sub))]);
      r := ResultSuccess;
      var err := CreateFolder(begin, stack, guid, parameters, parent, folder);
      if err.Some? {
        r := Fail(begin, "BuildFolderPath", stack, guid, parameters, parent, 92, err.value);
        fullPath := Raised(UnboundLocal("FullPath"));
        return;
      }
      var full := Join(folder, sub);
      fullPath := Ok(full);
      ghost var log1 := log.entries;
      ghost var dirs1 := fs.dirs;
      err := CreateFolder(begin, stack, guid, parameters, parent, full);
      assert folder == "" || fs.Exists(folder) by {
        assert dirs1 <= fs.dirs;
      }
      if err.Some? {
        r := Fail(begin, "BuildFolderPath", stack, guid, parameters, parent, 96, err.value);
        EndsWithLast(old(log.entries), log1, log.entries, 0, ErrorNote(r));
      }
    }

    /** One step of `SetGlobalVariables`: `BuildFolderPath` called from `line`, whose
        raising ends the sequence. */
    method BuildStep(stack: string, parent: string, folder: string, sub: string, line: nat)
      returns (r: string, raised: Option<nat>, path: string)
      requires fs.Valid()
      modifies log, env, fs
      ensures fs.Valid() && fs.files == old(fs.files) && old(fs.dirs) <= fs.dirs
      ensures raised.None? ==> path == Join(folder, sub) && (folder == "" || fs.Exists(folder))
      ensures raised.None? && r == ResultSuccess ==> path == "" || fs.Exists(path)
      ensures raised.Some? ==> raised.value == line
      ensures GrewBy(old(log.entries), log.entries, 0)
    {
      var p: Result<string>;
      r, p := BuildFolderPath(stack, folder, sub, parent);
      if p.Raised? {
        return r, Some(line), "";
      }
      return r, None, p.value;
    }

    /** The root and Admin steps of `SetGlobalVariables`. */
    method BuildRootFolders(stack: string, parent: string) returns (r: string, raised: Option<nat>)
      requires fs.Valid()
      modifies this, log, env, fs
      ensures isValidLogFile == old(isValidLogFile)
      ensures fs.Valid() && fs.files == old(fs.files) && old(fs.dirs) <= fs.dirs
      ensures callingObject == old(callingObject)
      ensures raised.None? ==> folders == old(folders).(root := Join(base, ""), admin := Join(Join(base, ""), "Admin"))
      ensures raised.Some? ==> raised.value in {329, 330}
      ensures GrewBy(old(log.entries), log.entries, 0)
    {
      var root, admin;
      r, raised, root := BuildStep(stack, parent, base, "", 329);
      if raised.Some? { return; }
      ghost var log1 := log.entries;
      r, raised, admin := BuildStep(stack, parent, root, "Admin", 330);
      GrewChain(old(log.entries), log1, log.entries, 0, 0);
      if raised.Some? { return; }
      folders := folders.(root := root, admin := admin);
    }

    /** The Bronze steps of `SetGlobalVariables`: the layer and its Archive, Error and
        Inbound sub-folders. */
    method BuildBronzeFolders(stack: string, parent: string) returns (r: string, raised: Option<nat>)
      requires fs.Valid()
      modifies this, log, env, fs
      ensures isValidLogFile == old(isValidLogFile)
      ensures fs.Valid() && fs.files == old(fs.files) && old(fs.dirs) <= fs.dirs
      ensures callingObject == old(callingObject)
      ensures var b := Join(old(folders.root), "Bronze");
        raised.None? ==> folders == old(folders).(bronze := b, bronzeArchive := Join(b, "Archive"),
                                                   bronzeError := Join(b, "Error"), bronzeInbound := Join(b, "Inbound"))
      ensures raised.Some? ==> 331 <= raised.value <= 334
      ensures GrewBy(old(log.entries), log.entries, 0)
    {
      var bronze, archive, error, inbound;
      r, raised, bronze := BuildStep(stack, parent, folders.root, "Bronze", 331);
      if raised.Some? { return; }
      ghost var log1 := log.entries;
      r, raised, archive := BuildStep(stack, parent, bronze, "Archive", 332);
      GrewChain(old(log.entries), log1, log.entries, 0, 0);
      if raised.Some? { return; }
      ghost var log2 := log.entries;
      r, raised, error := BuildStep(stack, parent, bronze, "Error", 333);
      GrewChain(old(log.entries), log2, log.entries, 0, 0);
      if raised.Some? { return; }
      ghost var log3 := log.entries;
      r, raised, inbound := BuildStep(stack, parent, bronze, "Inbound", 334);
      GrewChain(old(log.entries), log3, log.entries, 0, 0);
      if raised.Some? { return; }
      folders := folders.(bronze := bronze, bronzeArchive := archive, bronzeError := error, bronzeInbound := inbound);
    }

    /** The Gold or Silver steps of `SetGlobalVariables`: the layer and its Dimensions,
        Error, Facts and Inbound sub-folders, in that order, from `line` on. Each call
        after the first re-creates the layer folder if it is missing, so when none raises
        the layer folder exists at the end. */
    method BuildLayerFolders(stack: string, parent: string, layer: string, line: nat)
      returns (r: string, raised: Option<nat>, paths: seq<string>)
      requires fs.Valid()
      modifies log, env, fs
      ensures fs.Valid() && fs.files == old(fs.files) && old(fs.dirs) <= fs.dirs
      ensures raised.None? ==>
        |paths| == 5 && paths[0] == Join(folders.root, layer)
        && paths[1] == Join(paths[0], "Dimensions") && paths[2] == Join(paths[0], "Error")
        && paths[3] == Join(paths[0], "Facts") && paths[4] == Join(paths[0], "Inbound")
        && (paths[0] == "" || fs.Exists(paths[0]))
      ensures raised.None? && r == ResultSuccess ==> fs.Exists(paths[4])
      ensures raised.Some? ==> line <= raised.value < line + 5
      ensures GrewBy(old(log.entries), log.entries, 0)
    {
      paths := [];
      var top, dimensions, error, facts, inbound;
      r, raised, top := BuildStep(stack, parent, folders.root, layer, line);
      if raised.Some? { return; }
      ghost var log1 := log.entries;
      r, raised, dimensions := BuildStep(stack, parent, top, "Dimensions", line + 1);
      GrewChain(old(log.entries), log1, log.entries, 0, 0);
      if raised.Some? { return; }
      ghost var log2 := log.entries;
      r, raised, error := BuildStep(stack, parent, top, "Error", line + 2);
      GrewChain(old(log.entries), log2, log.entries, 0, 0);
      if raised.Some? { return; }
      ghost var log3 := log.entries;
      r, raised, facts := BuildStep(stack, parent, top, "Facts", line + 3);
      GrewChain(old(log.entries), log3, log.entries, 0, 0);
      if raised.Some? { return; }
      ghost var log4 := log.entries;
      r, raised, inbound := BuildStep(stack, parent, top, "Inbound", line + 4);
      GrewChain(old(log.entries), log4, log.entries, 0, 0);
      if raised.Some? { return; }
      paths := [top, dimensions, error, facts, inbound];
    }

    /** The sixteen folder steps of `SetGlobalVariables`, in source order, then the paths
        of the configuration and log files; `raised` names the line of a step that raised,
        which ends the sequence. */
    method BuildAllFolders(stack: string, parent: string) returns (r: string, raised: Option<nat>)
      requires fs.Valid()
      modifies this, log, env, fs
      ensures isValidLogFile == old(isValidLogFile)
      ensures fs.Valid() && fs.files == old(fs.files) && old(fs.dirs) <= fs.dirs
      ensures callingObject == old(callingObject)
      ensures raised.None? ==> IsLayout(folders, base) && LogFilePlaced(folders, base)
      ensures raised.None? && r == ResultSuccess ==> fs.Exists(folders.silver) && fs.Exists(folders.silverInbound)
      ensures raised.Some? ==> 329 <= raised.value <= 344
      ensures GrewBy(old(log.entries), log.entries, 0)
    {
      r, raised := BuildRootFolders(stack, parent);
      if raised.Some? { return; }
      ghost var log1 := log.entries;
      r, raised := BuildBronzeFolders(stack, parent);
      GrewChain(old(log.entries), log1, log.entries, 0, 0);
      if raised.Some? { return; }
      ghost var log2 := log.entries;
      var gold;
      r, raised, gold := BuildLayerFolders(stack, parent, "Gold", 335);
      GrewChain(old(log.entries), log2, log.entries, 0, 0);
      if raised.Some? { return; }
      folders := folders.(gold := gold[0], goldDimensions := gold[1], goldError := gold[2], goldFacts := gold[3],
                          goldInbound := gold[4]);
      ghost var log3 := log.entries;
      var silver;
      r, raised, silver := BuildLayerFolders(stack, parent, "Silver", 340);
      GrewChain(old(log.entries), log3, log.entries, 0, 0);
      if raised.Some? { return; }
      var admin := folders.admin;
      folders := folders.(silver := silver[0], silverDimensions := silver[1], silverError := silver[2],
                          silverFacts := silver[3], silverInbound := silver[4],
                          configurationsColumn := Join(admin, "ConfigurationColumn.txt"),
                          configurationsFile := Join(admin, "ConfigurationFile.txt"),
                          logFile := Join(admin, "Log.txt"));
      LayoutPlacesLog(folders, base);
    }

    /** `SetGlobalVariables`: records the calling script, derives and creates the whole
        folder layout below the base folder, then names the three Admin files, and ends with
        an Info entry. Each folder step overwrites the local result, so the result returned
        and logged is only the last step's (Silver/Inbound). A step that raises ends the
        sequence with an Error entry naming the line of that step, which the ghost `raisedAt`
        reports. */
    method SetGlobalVariables(caller: string, callStack: string, parent: string)
      returns (r: string, ghost raisedAt: Option<nat>)
      requires fs.Valid()
      modifies this, log, env, fs
      ensures isValidLogFile == old(isValidLogFile)
      ensures fs.Valid() && fs.files == old(fs.files) && old(fs.dirs) <= fs.dirs
      ensures callingObject == caller
      ensures GrewBy(old(log.entries), log.entries, 1)
      ensures raisedAt.None? ==> IsLayout(folders, base)
      ensures raisedAt.None? ==> EndsWithNote(old(log.entries), log.entries, InfoNote(r))
      ensures raisedAt.Some? ==>
        329 <= raisedAt.value <= 344
        && r == BuildErrorMessage("SetGlobalVariables", scriptFile, raisedAt.value, UnboundLocal("FullPath"), true, "")
      ensures raisedAt.Some? ==> EndsWithNote(old(log.entries), log.entries, ErrorNote(r))
      ensures r == ResultSuccess ==> raisedAt.None? && fs.Exists(folders.silver) && fs.Exists(folders.silverInbound)
      ensures raisedAt.None? ==> LogFilePlaced(folders, base)
    {
      var begin := env.Now();
      var stack := callStack + " > SetGlobalVariables";
      var guid := env.NewGuid();
      var parameters := DictText([("ParentExecutionGUID", Repr(parent))]);
      callingObject := caller;
      var raised;
      r, raised := BuildAllFolders(stack, parent);
      ghost var log0 := log.entries;
      if raised.Some? {
        r := Fail(begin, "SetGlobalVariables", stack, guid, parameters, parent, raised.value, UnboundLocal("FullPath"));
        EndsWithLast(old(log.entries), log0, log.entries, 0, ErrorNote(r));
        return r, raised;
      }
      LogStep(begin, caller, stack, guid, parameters, Step(Some(parent), SeverityInfo, r, None));
      EndsWithLast(old(log.entries), log0, log.entries, 0, InfoNote(r));
      raisedAt := None;
    }

    /** `MoveFile`: both paths must be non-empty (the source is checked first); missing
        parent folders are created; then the file is renamed. Exactly one entry is logged:
        Info with "Success", or Error with the message. */
    method MoveFile(callStack: string, source: string, target: string, parent: string) returns (r: string)
      requires fs.Valid()
      modifies log, env, fs
      ensures fs.Valid() && old(fs.dirs) <= fs.dirs
      ensures source == "" ==> r == BuildErrorMessage("MoveFile", scriptFile, 154, "FullPath_SourceFile cannot be empty", true, "")
      ensures source != "" && target == "" ==>
        r == BuildErrorMessage("MoveFile", scriptFile, 155, "FullPath_TargetFile cannot be empty", true, "")
      ensures source == "" || target == "" ==> fs.dirs == old(fs.dirs)
      ensures Appended(old(log.entries), log.entries, [Outcome(r, None)])
      ensures var src := Join(DirName(source), BaseName(source));
        var tgt := Join(DirName(target), BaseName(target));
        r == ResultSuccess ==> src in old(fs.files) && fs.files == Moved(old(fs.files), src, tgt)
      ensures r != ResultSuccess ==> fs.files == old(fs.files)
      ensures r == ResultSuccess <==> MoveSucceeds(old(fs.files), old(fs.dirs), source, target)
      ensures r == ResultSuccess ==> fs.dirs == DirsAfterMove(old(fs.files), old(fs.dirs), source, target)
    {
      var begin := env.Now();
      var stack := callStack + " > MoveFile";
      var guid := env.NewGuid();
      var parameters := DictText([("FullPath_SourceFile", Repr(source)), ("FullPath_TargetFile", Repr(target)),
                                  ("ParentExecutionGUID", Repr(parent))]);
      if source == "" {
        r := Fail(begin, "MoveFile", stack, guid, parameters, parent, 154, "FullPath_SourceFile cannot be empty");
        return;
      }
      if target == "" {
        r := Fail(begin, "MoveFile", stack, guid, parameters, parent, 155, "FullPath_TargetFile cannot be empty");
        return;
      }
      var sourceFolder := DirName(source);
      var targetFolder := DirName(target);
      var made := MakeFolder(sourceFolder);
      if made.Some? {
        r := Fail(begin, "MoveFile", stack, guid, parameters, parent, 164, made.value);
        return;
      }
      made := MakeFolder(targetFolder);
      if made.Some? {
        r := Fail(begin, "MoveFile", stack, guid, parameters, parent, 165, made.value);
        return;
      }
      var err := fs.Rename(Join(sourceFolder, BaseName(source)), Join(targetFolder, BaseName(target)));
      if err.Some? {
        r := Fail(begin, "MoveFile", stack, guid, parameters, parent, 172, err.value);
        return;
      }
      r := ResultSuccess;
      LogStep(begin, callingObject, stack, guid, parameters, Step(Some(parent), SeverityInfo, r, None));
    }

    /** One folder step of `MoveFile`: `os.makedirs(d, exist_ok = True)` when `d` is given and
        does not exist. */
    method MakeFolder(d: string) returns (err: Option<string>)
      requires fs.Valid()
      modifies fs
      ensures fs.Valid() && fs.files == old(fs.files)
      ensures err.Some? ==> err.value != ResultSuccess && fs.dirs == old(fs.dirs)
      ensures err.None? <==> MakeOk(old(fs.files), old(fs.dirs), d)
      ensures err.None? ==> fs.dirs == DirsAfterMake(old(fs.files), old(fs.dirs), d)
    {
      if d != "" && !fs.Exists(d) {
        err := fs.MakeDirs(d);
      } else {
        err := None;
      }
    }

    /** `ValidateColumnHeader`, joined style: the result starts as "Success", is replaced by
        the extra-columns message and has the missing-columns message appended after "; ";
        the `Issue` tag is built alongside. One Error entry per kind of mismatch, or one Info
        entry on a match. */
    method ValidateColumnHeader(actual: seq<Cell>, callStack: string, expected: seq<Cell>, parent: string)
      returns (r: string, issue: string)
      modifies log, env
      ensures r == JoinedResult(actual, expected)
      ensures issue == JoinedIssue(actual, expected)
      ensures Appended(old(log.entries), log.entries, JoinedNotes(actual, expected))
    {
      var begin := env.Now();
      var stack := callStack + " > ValidateColumnHeader";
      var guid := env.NewGuid();
      var parameters := DictText([("ActualColumnsAsList", Render(actual)), ("ExpectedColumnsAsList", Render(expected)),
                                  ("ParentExecutionGUID", Repr(parent))]);
      issue := "";
      r := ResultSuccess;
      var extra := ExtraColumns(actual, expected);
      var missing := MissingColumns(actual, expected);
      ghost var log0 := log.entries;
      ghost var notes: seq<Note> := [];
      if |extra| > 0 {
        issue := "ExtraColumns";
        r := ExtraMessage(extra);
        LogStep(begin, callingObject, stack, guid, parameters, Step(Some(parent), SeverityError, r, None));
        notes := [ErrorNote(r)];
      }
      assert Appended(log0, log.entries, notes);
      ghost var log1 := log.entries;
      if |missing| > 0 {
        // `Issue` is "" or "ExtraColumns" here; a second tag is joined to it with '.'.
        issue := if issue == "" then "MissingColumns" else "ExtraColumns.MissingColumns";
        if |r| > 0 {
          r := r + "; ";
        }
        r := r + MissingMessage(missing);
        LogStep(begin, callingObject, stack, guid, parameters, Step(Some(parent), SeverityError, r, None));
        AppendedChain(log0, log1, log.entries, notes, [ErrorNote(r)]);
        notes := notes + [ErrorNote(r)];
      }
      ghost var log2 := log.entries;
      if |extra| + |missing| == 0 {
        LogStep(begin, callingObject, stack, guid, parameters, Step(Some(parent), SeverityInfo, r, None));
        AppendedChain(log0, log2, log.entries, notes, [InfoNote(r)]);
        notes := notes + [InfoNote(r)];
      }
    }

    /** `RetrieveOrCreateFile`: reads the file at `p` and checks its header against the
        definition. An empty path, or a missing path that cannot be created as a folder,
        leaves the returned table unassigned, so the function raises after logging. A missing
        path is created as a folder, which then cannot be read; the table is then the empty
        frame. A file with a header and no rows takes the create branch: it is opened for
        writing twice, and the second write is handed the list of names, so it fails and
        leaves the file empty. The result is "Success" exactly when the file is retrievable,
        and the table is then the file's. */
    method RetrieveOrCreateFile(callStack: string, definition: seq<string>, p: string, parent: string)
      returns (r: string, file: Result<Sheet>)
      requires fs.Valid()
      modifies log, env, fs
      ensures fs.Valid() && old(fs.dirs) <= fs.dirs
      ensures r == ResultSuccess <==> Retrievable(p, old(fs.ReadCsv(p)), definition)
      ensures r == ResultSuccess ==>
        fs.files == old(fs.files) && fs.dirs == old(fs.dirs) && file == Ok(SheetOf(old(fs.ReadCsv(p)).value))
        && EndsWithNote(old(log.entries), log.entries, Note(Some(SeverityInfo), Some(r), Some(p)))
      ensures r != ResultSuccess ==> EndsWithNote(old(log.entries), log.entries, ErrorNote(r))
      ensures p == "" ==>
        file == Raised(UnboundLocal("File"))
        && r == BuildErrorMessage("RetrieveOrCreateFile", scriptFile, 197, "FullPath cannot be empty", true, "")
      ensures file.Raised? ==> file.error == UnboundLocal("File")
      ensures p != "" && old(fs.Exists(p)) ==> file.Ok?
      ensures EmptyTable(p, old(fs.files)) ==>
        (r == BuildErrorMessage("RetrieveOrCreateFile", scriptFile, 209, WriteListError, true, "")
         && fs.files == old(fs.files)[p := []])
        || (StartsWith(r, ErrorHead("RetrieveOrCreateFile", scriptFile, 207)) && fs.files == old(fs.files))
      ensures !EmptyTable(p, old(fs.files)) ==> fs.files == old(fs.files)
    {
      var begin := env.Now();
      var stack := callStack + " > RetrieveOrCreateFile";
      var guid := env.NewGuid();
      var parameters := DictText([("ParentExecutionGUID", Repr(parent))]);
      if p == "" {
        r := Fail(begin, "RetrieveOrCreateFile", stack, guid, parameters, parent, 197, "FullPath cannot be empty");
        return r, Raised(UnboundLocal("File"));
      }
      r, file := Open(begin, stack, guid, parameters, parent, p, definition);
    }

    /** `RetrieveOrCreateFile` for a non-empty path: a missing path is created as a folder
        tree first, then the path is read and its table checked. */
    method Open(begin: string, stack: string, guid: string, parameters: string, parent: string,
                p: string, definition: seq<string>) returns (r: string, file: Result<Sheet>)
      requires fs.Valid() && p != ""
      modifies log, env, fs
      ensures fs.Valid() && old(fs.dirs) <= fs.dirs
      ensures r == ResultSuccess <==> Retrievable(p, old(fs.ReadCsv(p)), definition)
      ensures r == ResultSuccess ==>
        fs.files == old(fs.files) && fs.dirs == old(fs.dirs) && file == Ok(SheetOf(old(fs.ReadCsv(p)).value))
        && EndsWithNote(old(log.entries), log.entries, Note(Some(SeverityInfo), Some(r), Some(p)))
      ensures r != ResultSuccess ==> EndsWithNote(old(log.entries), log.entries, ErrorNote(r))
      ensures file.Raised? ==> file.error == UnboundLocal("File")
      ensures old(fs.Exists(p)) ==> file.Ok?
      ensures EmptyTable(p, old(fs.files)) ==>
        (r == BuildErrorMessage("RetrieveOrCreateFile", scriptFile, 209, WriteListError, true, "")
         && fs.files == old(fs.files)[p := []])
        || (StartsWith(r, ErrorHead("RetrieveOrCreateFile", scriptFile, 207)) && fs.files == old(fs.files))
      ensures !EmptyTable(p, old(fs.files)) ==> fs.files == old(fs.files)
    {
      if !fs.Exists(p) {
        var err := fs.MakeDirs(p);
        if err.Some? {
          r := Fail(begin, "RetrieveOrCreateFile", stack, guid, parameters, parent, 200, err.value);
          return r, Raised(UnboundLocal("File"));
        }
      }
      var read := fs.ReadCsv(p);
      if read.Raised? {
        r := Fail(begin, "RetrieveOrCreateFile", stack, guid, parameters, parent, 204, read.error);
        return r, Ok(NoSheet);
      }
      var frame := read.value;
      file := Ok(SheetOf(frame));
      r := CheckHeader(begin, stack, guid, parameters, parent, p, frame, definition);
    }

    /** `RetrieveOrCreateFile` once the file at `p` has been read as `frame`: with no rows
        the create branch is taken; otherwise the header is checked, and the outcome logged
        with the path as `File`. */
    method CheckHeader(begin: string, stack: string, guid: string, parameters: string, parent: string,
                       p: string, frame: Frame, definition: seq<string>) returns (r: string)
      requires fs.Valid() && p in fs.files && fs.ReadCsv(p) == Ok(frame)
      modifies log, env, fs
      ensures fs.Valid() && old(fs.dirs) <= fs.dirs
      ensures r == ResultSuccess <==> |frame.rows| > 0 && Matches(Names(frame.columns), Names(definition))
      ensures r == ResultSuccess ==>
        EndsWithNote(old(log.entries), log.entries, Note(Some(SeverityInfo), Some(r), Some(p)))
      ensures r != ResultSuccess ==> EndsWithNote(old(log.entries), log.entries, ErrorNote(r))
      ensures |frame.rows| > 0 ==> fs.files == old(fs.files) && fs.dirs == old(fs.dirs)
      ensures |frame.rows| == 0 ==>
        (r == BuildErrorMessage("RetrieveOrCreateFile", scriptFile, 209, WriteListError, true, "")
         && fs.files == old(fs.files)[p := []])
        || (StartsWith(r, ErrorHead("RetrieveOrCreateFile", scriptFile, 207)) && fs.files == old(fs.files))
    {
      if |frame.rows| == 0 {
        r := Recreate(begin, stack, guid, parameters, parent, p);
        AppendedGrows(old(log.entries), log.entries, [ErrorNote(r)]);
        return;
      }
      var issue;
      r, issue := ValidateColumnHeader(Names(frame.columns), stack, Names(definition), parent);
      AppendedGrows(old(log.entries), log.entries, JoinedNotes(Names(frame.columns), Names(definition)));
      ghost var log1 := log.entries;
      if r != ResultSuccess {
        r := Fail(begin, "RetrieveOrCreateFile", stack, guid, parameters, parent, 216, "Error in ValidateColumnHeader");
        EndsWithLast(old(log.entries), log1, log.entries, 1, ErrorNote(r));
        return;
      }
      LogStep(begin, callingObject, stack, guid, parameters, Step(Some(parent), SeverityInfo, r, Some(p)));
      EndsWithLast(old(log.entries), log1, log.entries, 1, Note(Some(SeverityInfo), Some(r), Some(p)));
    }

    /** The create branch of `RetrieveOrCreateFile` for a file that reads with no rows: its
        folder is made (already there), the file is opened for writing (emptying it) and the
        header written, then opened for writing again and handed the list of names, which
        raises. */
    method Recreate(begin: string, stack: string, guid: string, parameters: string, parent: string, p: string)
      returns (r: string)
      requires fs.Valid() && p in fs.files
      modifies log, env, fs
      ensures fs.Valid() && old(fs.dirs) <= fs.dirs
      ensures (r == BuildErrorMessage("RetrieveOrCreateFile", scriptFile, 209, WriteListError, true, "")
               && fs.files == old(fs.files)[p := []])
              || (StartsWith(r, ErrorHead("RetrieveOrCreateFile", scriptFile, 207)) && fs.files == old(fs.files))
      ensures r != ResultSuccess && Appended(old(log.entries), log.entries, [ErrorNote(r)])
    {
      var err := fs.MakeDirs(DirName(p));
      if err.Some? {
        r := Fail(begin, "RetrieveOrCreateFile", stack, guid, parameters, parent, 207, err.value);
        return;
      }
      assert Placed(fs.dirs, p);
      err := fs.Truncate(p);
      r := Fail(begin, "RetrieveOrCreateFile", stack, guid, parameters, parent, 209, WriteListError);
    }

    /** The body the two configuration retrievals and `ValidateLogFile` share: the file at
        `p` is retrieved; a raise out of `RetrieveOrCreateFile` (at `line` of
        `currentFunction`) is logged as an Error, otherwise the result is logged as Info
        with the path as `File`, whatever it is. The table is handed back only on "Success". */
    method Retrieve(begin: string, currentFunction: string, stack: string, guid: string, parameters: string,
                    parent: string, line: nat, definition: seq<string>, p: string)
      returns (r: string, sheet: Option<Sheet>)
      requires fs.Valid()
      modifies log, env, fs
      ensures fs.Valid()
      ensures r == ResultSuccess <==> Retrievable(p, old(fs.ReadCsv(p)), definition)
      ensures sheet == if r == ResultSuccess then Some(SheetOf(old(fs.ReadCsv(p)).value)) else None
      ensures r == ResultSuccess ==> fs.files == old(fs.files)
      ensures GrewBy(old(log.entries), log.entries, 1) && NoteOf(log.entries[|log.entries| - 1]).result == Some(r)
      ensures r == ResultSuccess ==> NoteOf(log.entries[|log.entries| - 1]) == Note(Some(SeverityInfo), Some(r), Some(p))
      ensures p == "" ==>
        r == BuildErrorMessage(currentFunction, scriptFile, line, UnboundLocal("File"), true, "")
        && NoteOf(log.entries[|log.entries| - 1]) == ErrorNote(r)
    {
      var file;
      r, file := RetrieveOrCreateFile(stack, definition, p, parent);
      ghost var log1 := log.entries;
      assert GrewBy(old(log.entries), log1, 0);
      if file.Raised? {
        r := Fail(begin, currentFunction, stack, guid, parameters, parent, line, file.error);
        EndsWithLast(old(log.entries), log1, log.entries, 0, ErrorNote(r));
        return r, None;
      }
      sheet := if r == ResultSuccess then Some(file.value) else None;
      LogStep(begin, callingObject, stack, guid, parameters, Step(Some(parent), SeverityInfo, r, Some(p)));
      EndsWithLast(old(log.entries), log1, log.entries, 0, Note(Some(SeverityInfo), Some(r), Some(p)));
    }

    /** `RetrieveConfigurations_Column`: retrieves `ConfigurationColumn.txt` and caches it
        only on "Success"; the step is logged as Info whatever the result. */
    method RetrieveConfigurationsColumn(callStack: string, parent: string) returns (r: string)
      requires fs.Valid()
      modifies this, log, env, fs
      ensures fs.Valid() && folders == old(folders) && callingObject == old(callingObject)
      ensures r == ResultSuccess <==>
        Retrievable(folders.configurationsColumn, old(fs.ReadCsv(folders.configurationsColumn)), ColumnFileDefinition)
      ensures configurationsColumnAll ==
        if r == ResultSuccess then SheetOf(old(fs.ReadCsv(folders.configurationsColumn)).value) else old(configurationsColumnAll)
      ensures configurationsFileAll == old(configurationsFileAll) && isValidLogFile == old(isValidLogFile)
      ensures r == ResultSuccess ==> fs.files == old(fs.files)
      ensures folders.configurationsColumn == "" ==>
        r == BuildErrorMessage("RetrieveConfigurations_Column", scriptFile, 245, UnboundLocal("File"), true, "")
      ensures GrewBy(old(log.entries), log.entries, 1) && NoteOf(log.entries[|log.entries| - 1]).result == Some(r)
    {
      var begin := env.Now();
      var stack := callStack + " > RetrieveConfigurations_Column";
      var guid := env.NewGuid();
      var parameters := DictText([("ParentExecutionGUID", Repr(parent))]);
      var p := folders.configurationsColumn;
      var sheet;
      r, sheet := Retrieve(begin, "RetrieveConfigurations_Column", stack, guid, parameters, parent, 245,
                           ColumnFileDefinition, p);
      if sheet.Some? {
        configurationsColumnAll := sheet.value;
      }
    }

    /** `RetrieveConfigurations_File`: the same for `ConfigurationFile.txt`. */
    method RetrieveConfigurationsFile(callStack: string, parent: string) returns (r: string)
      requires fs.Valid()
      modifies this, log, env, fs
      ensures fs.Valid() && folders == old(folders) && callingObject == old(callingObject)
      ensures r == ResultSuccess <==>
        Retrievable(folders.configurationsFile, old(fs.ReadCsv(folders.configurationsFile)), FileFileDefinition)
      ensures configurationsFileAll ==
        if r == ResultSuccess then SheetOf(old(fs.ReadCsv(folders.configurationsFile)).value) else old(configurationsFileAll)
      ensures configurationsColumnAll == old(configurationsColumnAll) && isValidLogFile == old(isValidLogFile)
      ensures r == ResultSuccess ==> fs.files == old(fs.files)
      ensures folders.configurationsFile == "" ==>
        r == BuildErrorMessage("RetrieveConfigurations_File", scriptFile, 276, UnboundLocal("File"), true, "")
      ensures GrewBy(old(log.entries), log.entries, 1) && NoteOf(log.entries[|log.entries| - 1]).result == Some(r)
    {
      var begin := env.Now();
      var stack := callStack + " > RetrieveConfigurations_File";
      var guid := env.NewGuid();
      var parameters := DictText([("FullPath_Configurations_File", Repr(folders.configurationsFile)),
                                  ("ParentExecutionGUID", Repr(parent))]);
      var p := folders.configurationsFile;
      ghost var read := fs.ReadCsv(p);
      var sheet;
      r, sheet := Retrieve(begin, "RetrieveConfigurations_File", stack, guid, parameters, parent, 276,
                           FileFileDefinition, p);
      assert r == ResultSuccess ==> sheet == Some(SheetOf(read.value));
      if sheet.Some? {
        configurationsFileAll := sheet.value;
      }
    }

    /** `ValidateLogFile`: the flag is cleared, then set exactly when the log file is
        retrievable with the log columns. */
    method ValidateLogFile(callStack: string, parent: string) returns (r: string)
      requires fs.Valid()
      modifies this, log, env, fs
      ensures fs.Valid() && folders == old(folders) && callingObject == old(callingObject)
      ensures isValidLogFile <==> r == ResultSuccess
      ensures r == ResultSuccess <==> Retrievable(folders.logFile, old(fs.ReadCsv(folders.logFile)), LogFileDefinition)
      ensures configurationsColumnAll == old(configurationsColumnAll) && configurationsFileAll == old(configurationsFileAll)
      ensures r == ResultSuccess ==> fs.files == old(fs.files)
      ensures folders.logFile == "" ==>
        r == BuildErrorMessage("ValidateLogFile", scriptFile, 421, UnboundLocal("File"), true, "")
      ensures GrewBy(old(log.entries), log.entries, 1) && NoteOf(log.entries[|log.entries| - 1]).result == Some(r)
    {
      var begin := env.Now();
      var stack := callStack + " > ValidateLogFile";
      var guid := env.NewGuid();
      var parameters := DictText([("ParentExecutionGUID", Repr(parent))]);
      isValidLogFile := false;
      var sheet;
      r, sheet := Retrieve(begin, "ValidateLogFile", stack, guid, parameters, parent, 421, LogFileDefinition, folders.logFile);
      isValidLogFile := r == ResultSuccess;
    }

    /** `WriteToLogFile`: points the log path at `Admin/Log.txt` below the root and appends
        the buffered entries, ordered by `Begin`; an empty buffer and a failed write are
        passed over without a log entry. */
    method WriteToLogFile()
      requires fs.Valid()
      modifies this, fs
      ensures fs.Valid() && fs.dirs == old(fs.dirs)
      ensures folders == old(folders).(logFile := Join3(old(folders.root), "Admin", "Log.txt"))
      ensures var p := folders.logFile;
        if |log.entries| > 0 && !old(fs.IsDir(p)) && old(fs.ParentExists(p)) then
          fs.files == old(fs.files)[p := (if p in old(fs.files) then old(fs.files)[p] else [])
                                         + EntryRecords(SortByBegin(log.entries))]
        else fs.files == old(fs.files)
      ensures fs.files - {folders.logFile} == old(fs.files) - {folders.logFile}
      ensures var p := folders.logFile;
        |log.entries| > 0 && !fs.IsDir(p) && fs.ParentExists(p) ==>
        p in fs.files && EndsWithRecords(fs.files[p], EntryRecords(SortByBegin(log.entries)))
      ensures isValidLogFile == old(isValidLogFile)
      ensures configurationsFileAll == old(configurationsFileAll) && configurationsColumnAll == old(configurationsColumnAll)
    {
      folders := folders.(logFile := Join3(folders.root, "Admin", "Log.txt"));
      AppendLog(folders.logFile);
    }

    /** The write of `WriteToLogFile`: appends the buffered entries, ordered by `Begin`, to
        the file at `p`; an empty buffer and a failed write change nothing. */
    method AppendLog(p: string)
      requires fs.Valid()
      modifies fs
      ensures fs.Valid() && fs.dirs == old(fs.dirs)
      ensures if |log.entries| > 0 && !old(fs.IsDir(p)) && old(fs.ParentExists(p)) then
          fs.files == old(fs.files)[p := (if p in old(fs.files) then old(fs.files)[p] else [])
                                         + EntryRecords(SortByBegin(log.entries))]
        else fs.files == old(fs.files)
      ensures fs.files - {p} == old(fs.files) - {p}
      ensures |log.entries| > 0 && !fs.IsDir(p) && fs.ParentExists(p) ==>
        p in fs.files && EndsWithRecords(fs.files[p], EntryRecords(SortByBegin(log.entries)))
    {
      if |log.entries| > 0 {
        ghost var files0 := fs.files;
        var err := fs.AppendRecords(p, EntryRecords(SortByBegin(log.entries)));
        if err.None? {
          UpdateElsewhere(files0, p, fs.files[p]);
        }
      }
    }
  }
}
