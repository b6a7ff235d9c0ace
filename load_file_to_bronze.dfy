/** `LoadFileToBronze.py`: walks the Inbound sub-folders of a root folder and, for every
    `.csv`/`.txt` file, looks up the file's configuration by its source folder, validates
    its column header, appends its new records to `Bronze/Bronze.<Source>.txt` and moves it
    to `Archive/<Source>/`. Every step is logged and the log is written to `Admin/Log.txt`.

    The module-level globals become the fields of `Script`; the file system, the clock and
    the log buffer are objects it holds. */
module LoadFileToBronze {
  import opened Wrappers
  import opened Text
  import opened Paths
  import opened Tables
  import opened Logging
  import opened Headers
  import opened Files
  import opened Frames
  import opened Bronze
  import opened Config
  import opened Seqs

  /** The folder layout Main derives from the script parameters. */
  datatype Layout = Layout(
    archive: string, bronze: string, configurations: string, configurationsColumn: string,
    configurationsFile: string, inbound: string, logFile: string)

  function LayoutOf(root: string, columnFile: string, fileFile: string): (l: Layout)
    ensures l.archive == Join(root, "Archive") && l.bronze == Join(root, "Bronze")
    ensures l.inbound == Join(root, "Inbound") && l.configurations == Join(root, "Admin")
    ensures l.configurationsColumn == Join(l.configurations, columnFile)
    ensures l.configurationsFile == Join(l.configurations, fileFile)
    ensures l.logFile == Join3(root, "Admin", "Log.txt")
  {
    var admin := Join(root, "Admin");
    Layout(Join(root, "Archive"), Join(root, "Bronze"), admin, Join(admin, columnFile),
           Join(admin, fileFile), Join(root, "Inbound"), Join3(root, "Admin", "Log.txt"))
  }

  /** Only names ending in `.csv` or `.txt` are processed; the test is case-sensitive. */
  predicate Ingestible(name: string) {
    EndsWith(name, ".csv") || EndsWith(name, ".txt")
  }

  /** A file's source: its folder path with every occurrence of the Inbound root and every
      backslash removed. */
  function SourceOf(folder: string, inbound: string): (r: string)
    ensures '\\' !in r
  {
    DropChar(ReplaceAll(folder, inbound, ""), '\\')
  }

  /** For a sub-folder of the Inbound root the source is the sub-folder's name. */
  lemma SourceOfSubfolder(inbound: string, name: string, k: int)
    requires inbound != [] && !IsSep(inbound[|inbound| - 1])
    requires 0 < k < |inbound| && IsSep(inbound[k])
    requires NoSep(name)
    ensures SourceOf(Join(inbound, name), inbound) == name
  {
    var tail := [Sep] + name;
    if name != [] {
      assert !IsSep(name[0]);
    }
    assert Join(inbound, name) == inbound + tail;
    ReplaceLeading(inbound, tail, "");
    assert ReplaceAll(Join(inbound, name), inbound, "") == ReplaceAll(tail, inbound, "");
    InboundNotInTail(inbound, name, k);
    ReplaceAbsent(tail, inbound, "");
    assert ReplaceAll(Join(inbound, name), inbound, "") == tail;
    SeparatorDropped(name);
  }

  /** A root with a separator inside it cannot occur in a separator followed by a name
      without one. */
  lemma InboundNotInTail(inbound: string, name: string, k: int)
    requires 0 < k < |inbound| && IsSep(inbound[k])
    requires NoSep(name)
    ensures !Contains([Sep] + name, inbound)
  {
    var tail := [Sep] + name;
    forall i | 0 <= i <= |tail| ensures !OccursAt(tail, inbound, i) {
      if i + k < |tail| {
        assert i + k > 0 && tail[i + k] == name[i + k - 1];
      }
    }
  }

  /** Dropping the backslashes from a separator followed by a name without one leaves the
      name. */
  lemma SeparatorDropped(name: string)
    requires NoSep(name)
    ensures DropChar([Sep] + name, '\\') == name
  {
    assert '\\' !in name by {
      forall j | 0 <= j < |name| ensures name[j] != '\\' {
        assert !IsSep(name[j]);
      }
    }
    DropAbsent(name, '\\');
    var tail := [Sep] + name;
    assert tail == ['\\'] + name;
    assert DropChar(tail, '\\') == DropChar(name, '\\') by {
      assert tail[1..] == name;
    }
  }

  function BronzePath(bronze: string, source: string): string {
    Join(bronze, "Bronze." + source + ".txt")
  }

  function ArchivePath(archive: string, source: string, name: string): string {
    Join3(archive, source, name)
  }

  /** The file-level configuration rows of a source, from the configuration file as read. */
  function FileConfigFor(read: Result<Frame>, source: string): (r: Result<Sheet>)
    requires read.Ok? ==> WellFormed(read.value)
    requires read.Raised? ==> read.error != ResultSuccess
    ensures r.Raised? ==> r.error != ResultSuccess
    ensures r.Ok? <==> read.Ok? && "Source" in read.value.columns
    ensures r.Ok? ==> r.value == SelectBySource(SheetOf(read.value), source).value
  {
    match read
    case Raised(e) => Raised(e)
    case Ok(f) => SelectBySource(SheetOf(f), source)
  }

  /** The column-level configuration rows of a `ConfigurationFileID`. */
  function ColumnConfigFor(read: Result<Frame>, id: Cell): (r: Result<Sheet>)
    requires read.Ok? ==> WellFormed(read.value)
    requires read.Raised? ==> read.error != ResultSuccess
    ensures r.Raised? ==> r.error != ResultSuccess
    ensures r.Ok? ==> read.Ok? && r == SelectById(SheetOf(read.value), id)
  {
    match read
    case Raised(e) => Raised(e)
    case Ok(f) => SelectById(SheetOf(f), id)
  }

  /** The rename map of the column-level configuration rows; a missing column raises. */
  function MappingOf(cfg: Sheet): (r: Result<map<string, string>>)
    ensures r.Raised? ==> r.error != ResultSuccess
    ensures r.Ok? <==> "ColumnName_File" in cfg.columns && "ColumnName_Bronze" in cfg.columns
  {
    match Column(cfg, "ColumnName_File")
    case Raised(e) => Raised(e)
    case Ok(keys) =>
      match Column(cfg, "ColumnName_Bronze")
      case Raised(e) => Raised(e)
      case Ok(vals) => Ok(ColumnMapping(keys, vals))
  }

  /** What `CopyToBronze` appends, given the Bronze file as read, the column configuration
      and the validated records; or the text of the exception it catches. */
  function CopyPlan(existing: Result<Frame>, cfg: Sheet, valid: Frame): (r: Result<Frame>)
    requires existing.Raised? ==> existing.error != ResultSuccess
    ensures r.Raised? ==> r.error != ResultSuccess
    ensures r.Ok? ==> existing.Ok? && MappingOf(cfg).Ok?
    ensures r.Ok? ==> r == ToCopy(valid, MappingOf(cfg).value, existing.value)
  {
    match existing
    case Raised(e) => Raised(e)
    case Ok(ex) =>
      match MappingOf(cfg)
      case Raised(e) => Raised(e)
      case Ok(mapping) =>
        var out := ToCopy(valid, mapping, ex);
        if out.Raised? then (assert MergeError != ResultSuccess; out) else out
  }

  /** How far `ProcessFile` gets with one file. */
  datatype Stage =
    | Skipped               // not a .csv/.txt name: nothing is done
    | NoFileConfig          // the file-level configuration could not be retrieved
    | Failed(error: string) // an exception inside ProcessFile itself
    | HeaderMismatch        // the header differs from the configured columns
    | CopyFailed            // the Bronze copy failed
    | Copied(rows: seq<Record>) // these records were appended to Bronze; archiving follows

  /** The stage a file reaches, and the two configuration globals afterwards. */
  datatype FilePlan = FilePlan(stage: Stage, fileSheet: Sheet, columnSheet: Sheet)

  /** `ProcessFile` as a function of what it reads, before anything is written. */
  function Plan(files: map<string, Content>, dirs: set<string>, layout: Layout, name: string, columnPath: string, filePath: string,
                folder: string, fileSheet: Sheet, columnSheet: Sheet): (p: FilePlan)
    ensures !Ingestible(name) <==> p.stage == Skipped
    ensures p.stage == Skipped || p.stage == NoFileConfig ==> p.fileSheet == fileSheet && p.columnSheet == columnSheet
    ensures p.stage.Failed? ==> p.stage.error != ResultSuccess
    ensures p.stage == HeaderMismatch || p.stage == CopyFailed || p.stage.Copied? ==>
      p.stage == LoadStage(files, dirs, layout, name, folder, p.columnSheet)
  {
    if !Ingestible(name) then FilePlan(Skipped, fileSheet, columnSheet)
    else
      var source := SourceOf(folder, layout.inbound);
      match FileConfigFor(CsvAt(files, dirs, filePath), source)
      case Raised(_) => FilePlan(NoFileConfig, fileSheet, columnSheet)
      case Ok(fc) => Configured(files, dirs, layout, name, columnPath, folder, fc, columnSheet)
  }

  /** `ProcessFile` once the file configuration `fc` of the source is retrieved. */
  function Configured(files: map<string, Content>, dirs: set<string>, layout: Layout, name: string, columnPath: string,
                      folder: string, fc: Sheet, columnSheet: Sheet): (p: FilePlan)
    ensures p.fileSheet == fc
  {
    match Pick(fc, "ConfigurationFileID")
    case Raised(e) => FilePlan(Failed(e), fc, columnSheet)
    case Ok(id) =>
      match Pick(fc, "Delimiter")
      case Raised(e) => FilePlan(Failed(e), fc, columnSheet)
      case Ok(_) =>
        var cc := ColumnConfigFor(CsvAt(files, dirs, columnPath), id);
        var cols := if cc.Ok? then cc.value else columnSheet;
        FilePlan(LoadStage(files, dirs, layout, name, folder, cols), fc, cols)
  }

  /** The stage a configured file reaches: it is read, its header is checked against the
      configured column names and its new records are computed. */
  function LoadStage(files: map<string, Content>, dirs: set<string>, layout: Layout, name: string, folder: string, cols: Sheet): (s: Stage)
    ensures s.Failed? || s == HeaderMismatch || s == CopyFailed || s.Copied?
    ensures s.Failed? ==> s.error != ResultSuccess
    ensures s == HeaderMismatch || s == CopyFailed || s.Copied? ==>
      CsvAt(files, dirs, Join(folder, name)).Ok?
      && Column(cols, "ColumnName_File").Ok?
      && (s == HeaderMismatch <==>
          !Matches(Names(CsvAt(files, dirs, Join(folder, name)).value.columns), Column(cols, "ColumnName_File").value))
    ensures s.Copied? ==>
      var source := SourceOf(folder, layout.inbound);
      var existing := CsvAt(files, dirs, BronzePath(layout.bronze, source));
      existing.Ok? && BronzePath(layout.bronze, source) in files && Join(folder, name) in files
      && CopyPlan(existing, cols, CsvAt(files, dirs, Join(folder, name)).value).Ok?
      && s.rows == CopyPlan(existing, cols, CsvAt(files, dirs, Join(folder, name)).value).value.rows
  {
    match CsvAt(files, dirs, Join(folder, name))
    case Raised(e) => Failed(e)
    case Ok(frame) =>
      match Column(cols, "ColumnName_File")
      case Raised(e) => Failed(e)
      case Ok(expected) =>
        if OverwritingResult(Names(frame.columns), expected) != ResultSuccess then HeaderMismatch
        else
          match CopyPlan(CsvAt(files, dirs, BronzePath(layout.bronze, SourceOf(folder, layout.inbound))), cols, frame)
          case Raised(_) => CopyFailed
          case Ok(out) => Copied(out.rows)
  }

  /** What `ProcessFile` returns for a file that is not archived: "Success" only for a
      skipped name, otherwise the message of the step that stopped it. */
  function StageResult(stage: Stage): (r: string)
    requires stage.Failed? ==> stage.error != ResultSuccess
    ensures r == ResultSuccess <==> stage == Skipped || stage.Copied?
    ensures stage.Failed? ==> r == stage.error
  {
    match stage
    case Skipped => ResultSuccess
    case NoFileConfig => "Error in ValidateColumnHeader"
    case HeaderMismatch => "Error in ValidateColumnHeader"
    case Failed(e) => e
    case CopyFailed => "Error in CopyToBronze"
    case Copied(_) => ResultSuccess
  }

  /** The note `ProcessFile` ends with: Info with an empty `File` on success, Error with the
      inbound file's path otherwise. */
  function FileNote(r: string, inboundFile: string): (n: Note)
    ensures n.result == Some(r)
    ensures n.severity == Some(SeverityInfo) <==> r == ResultSuccess
    ensures n.file == Some(if r == ResultSuccess then "" else inboundFile)
  {
    if r == ResultSuccess then Note(Some(SeverityInfo), Some(r), Some(""))
    else Note(Some(SeverityError), Some(r), Some(inboundFile))
  }

  /** The file system after the Bronze append of a copied file. */
  function AfterCopy(files: map<string, Content>, bronze: string, rows: seq<Record>): map<string, Content>
    requires bronze in files
  {
    files[bronze := files[bronze] + rows]
  }

  /** How a file whose records were appended to Bronze leaves the files: moved to the
      Archive target when it may be, otherwise left in place with "Error in MoveFile". */
  predicate CopiedThenMoved(files0: map<string, Content>, files1: map<string, Content>, r: string,
                            bronze: string, rows: seq<Record>, inbound: string, target: string, movable: bool)
    requires bronze in files0 && inbound in files0
  {
    (r == ResultSuccess <==> movable)
    && (movable ==> files1 == Moved(AfterCopy(files0, bronze, rows), inbound, target))
    && (!movable ==> r == "Error in MoveFile" && files1 == AfterCopy(files0, bronze, rows))
  }

  /** What processing one file may change: the files, the two configuration globals and
      the log. */
  datatype Moment = Moment(files: map<string, Content>, fileSheet: Sheet, columnSheet: Sheet,
                           log: seq<LogEntry>)

  /** `ProcessFile` of `name` in `folder` took `s0` to `s1` and returned `r`, the folders
      being `dirs`: the stage `Plan` predicts on `s0` decides the result and the files, and
      the log gains the file's note last (and nothing else for a skipped name). */
  predicate FileProcessed(dirs: set<string>, layout: Layout, s0: Moment, s1: Moment, name: string,
                          columnPath: string, filePath: string, folder: string, r: string)
  {
    var p := Plan(s0.files, dirs, layout, name, columnPath, filePath, folder, s0.fileSheet, s0.columnSheet);
    var source := SourceOf(folder, layout.inbound);
    var bronze := BronzePath(layout.bronze, source);
    var target := ArchivePath(layout.archive, source, name);
    var movable := (DirName(target) == [] || DirName(target) in dirs)
                   && target !in s0.files && target !in dirs && DirKey(target) !in dirs;
    s1.fileSheet == p.fileSheet && s1.columnSheet == p.columnSheet
    && (!p.stage.Copied? ==> r == StageResult(p.stage) && s1.files == s0.files)
    && (p.stage.Copied? ==>
          bronze in s0.files && Join(folder, name) in s0.files
          && CopiedThenMoved(s0.files, s1.files, r, bronze, p.stage.rows, Join(folder, name), target, movable))
    && (!Ingestible(name) ==> Appended(s0.log, s1.log, [FileNote(r, Join(folder, name))]))
    && EndsWithNote(s0.log, s1.log, FileNote(r, Join(folder, name)))
  }

  /** Every step of `trace` up to `i` is `ProcessFile` of the name at that place. */
  predicate StepsProcessed(dirs: set<string>, layout: Layout, names: seq<string>, trace: seq<Moment>,
                           results: seq<string>, folder: string, i: nat)
    requires i <= |names| && |trace| == i + 1 && |results| == i
  {
    forall k :: 0 <= k < i ==>
      FileProcessed(dirs, layout, trace[k], trace[k + 1], names[k],
                    layout.configurationsColumn, layout.configurationsFile, folder, results[k])
  }

  /** One more processed file extends a trace of processed files. */
  lemma Extended(dirs: set<string>, layout: Layout, names: seq<string>, trace: seq<Moment>,
                 results: seq<string>, s: Moment, r: string, folder: string, i: nat)
    requires i < |names| && |trace| == i + 1 && |results| == i
    requires StepsProcessed(dirs, layout, names, trace, results, folder, i)
    requires FileProcessed(dirs, layout, trace[i], s, names[i],
                           layout.configurationsColumn, layout.configurationsFile, folder, r)
    ensures StepsProcessed(dirs, layout, names, trace + [s], results + [r], folder, i + 1)
  {
    var t, rs := trace + [s], results + [r];
    forall k | 0 <= k < i + 1
      ensures FileProcessed(dirs, layout, t[k], t[k + 1], names[k],
                            layout.configurationsColumn, layout.configurationsFile, folder, rs[k])
    {
      if k < i {
        assert t[k] == trace[k] && t[k + 1] == trace[k + 1] && rs[k] == results[k];
      }
    }
  }

  const UnboundAllInboundFolders: string := UnboundLocal("AllInboundFolders")

  /** Main's folder choice: all Inbound sub-folders for an empty filter, the named one for a
      plain folder name; a filter containing the root path leaves the choice unmade. */
  function FolderChoice(filter: string, root: string): (r: Option<bool>)
    ensures r == Some(true) <==> filter == ""
    ensures r == Some(false) <==> filter != "" && !Contains(filter, root)
    ensures r == None <==> filter != "" && Contains(filter, root)
  {
    if filter == "" then Some(true)
    else if !Contains(filter, root) then Some(false)
    else None
  }

  /** A filter given as a full path below the root is never accepted. */
  lemma FullPathFilterUnbound(root: string, name: string)
    requires root != []
    requires name == [] || !IsSep(name[0])
    ensures FolderChoice(Join(root, name), root) == None
  {
    var f := Join(root, name);
    assert f[..|root|] == root;
    assert OccursAt(f, root, 0);
  }

  /** The messages of the parameter checks, in order. */
  function MissingParameters(columnFile: string, fileFile: string, root: string): (r: seq<Note>)
    ensures |r| <= 3
    ensures forall n :: n in r ==> n.severity == Some(SeverityError)
    ensures |r| == (if columnFile == "" then 1 else 0) + (if fileFile == "" then 1 else 0) + (if root == "" then 1 else 0)
  {
    (if columnFile == "" then [ErrorNote("Script parameter value missing: ColumnConfigurationFilename")] else [])
    + (if fileFile == "" then [ErrorNote("Script parameter value missing: FileConfigurationFilename")] else [])
    + (if root == "" then [ErrorNote("Script parameter value missing: FullPath_Root")] else [])
  }

  const CreatedPrefix: string := "Folder path was not found and therefore created: "

  /** The three folder checks of `ValidateRootParameters` pass. */
  predicate FoldersPresent(fs: FileSystem, root: string, inboundSourceFolder: string, configurations: string)
    reads fs
  {
    (root == "" || fs.Exists(root))
    && (inboundSourceFolder == "" || fs.Exists(inboundSourceFolder))
    && (configurations == "" || fs.Exists(configurations))
  }

  /** The note Main ends a run with: Info on success, otherwise Error with an empty `File`. */
  function MainNote(result: string): (n: Note)
    ensures n.result == Some(result)
    ensures n.severity == Some(SeverityInfo) <==> result == ResultSuccess
    ensures n.file == (if result == ResultSuccess then None else Some(""))
  {
    if result == ResultSuccess then InfoNote(result) else Note(Some(SeverityError), Some(result), Some(""))
  }

  /** How the folder walk of `Main` ends, given the folder choice and whether the Inbound
      folder was a directory or a file beforehand: an unusable filter leaves the choice
      unbound, an unlistable Inbound folder raises the listing error, and a walk that
      completes ends in "Success"; the two failures change no file. */
  predicate WalkEnded(choice: Option<bool>, inbound: string, wasDir: bool, wasFile: bool,
                      r: string, files0: map<string, Content>, files1: map<string, Content>)
  {
    (choice == None ==> r == UnboundAllInboundFolders && files1 == files0)
    && (choice == Some(true) && !wasDir ==>
          r == (if wasFile then WinError("267", InvalidDirectoryText, inbound)
                else WinError("3", PathNotFoundText, inbound))
          && files1 == files0)
    && (choice == Some(false) || (choice == Some(true) && wasDir) ==> r == ResultSuccess)
  }

  /** What one call of `ProcessInboundFolder` went through: whether the folder held
      anything, the names it listed, the state after each file and each file's result. */
  datatype FolderRun = FolderRun(found: bool, names: seq<string>, trace: seq<Moment>, results: seq<string>)

  /** `ProcessInboundFolder` of `folder` took `s0` to `s1` with result `r`, as `run` records,
      the folders being `dirs` throughout. A path that is not a folder gives the Windows
      listing error and an empty folder its message, each logged and changing no file. A
      folder with entries is found and gives "Success": each listed name, once, is a
      `FileProcessed` step from the state the previous one left, and one Info entry
      follows. */
  ghost predicate FolderWalked(dirs: set<string>, layout: Layout, folder: string, s0: Moment, s1: Moment, r: string,
                         run: FolderRun)
  {
    var isDir := folder in dirs || DirKey(folder) in dirs;
    var listing := ListingOf(s0.files, dirs, DirKey(folder));
    && |run.trace| == |run.names| + 1 && |run.results| == |run.names| && run.trace[0] == s0
    && (!isDir ==>
          !run.found && s1.files == s0.files
          && r == (if folder in s0.files then WinError("267", InvalidDirectoryText, folder)
                   else WinError("3", PathNotFoundText, folder))
          && Appended(s0.log, s1.log, [ErrorNote(r)]))
    && (isDir && listing == {} ==>
          !run.found && s1.files == s0.files && r == "No files were found for processing in " + folder
          && Appended(s0.log, s1.log, [InfoNote(r)]))
    && (isDir && listing != {} ==>
          run.found && r == ResultSuccess
          && Appended(run.trace[|run.names|].log, s1.log, [InfoNote(ResultSuccess)]))
    && (forall n :: n in run.names <==> isDir && n in listing)
    && (forall i, j :: 0 <= i < j < |run.names| ==> run.names[i] != run.names[j])
    && StepsProcessed(dirs, layout, run.names, run.trace, run.results, folder, |run.names|)
    && s1 == run.trace[|run.names|].(log := s1.log)
  }

  /** Each step `k` of `trace` is `ProcessInboundFolder` of the Inbound sub-folder
      `folders[k]`, with result `results[k]`, as `runs[k]` records. */
  ghost predicate FoldersWalked(dirs: set<string>, layout: Layout, inbound: string, folders: seq<string>,
                          trace: seq<Moment>, results: seq<string>, runs: seq<FolderRun>)
  {
    |trace| == |folders| + 1 && |results| == |folders| && |runs| == |folders|
    && forall k {:trigger FolderWalked(dirs, layout, Join(inbound, folders[k]), trace[k], trace[k + 1], results[k], runs[k])} ::
         0 <= k < |folders| ==>
         FolderWalked(dirs, layout, Join(inbound, folders[k]), trace[k], trace[k + 1], results[k], runs[k])
  }

  /** The folders Main's walk processes for the folder choice, each once: every entry of the
      Inbound folder `listing` when all are chosen and it is a folder, only the filter folder
      when one is named, and none when the choice is unmade or the Inbound folder is not one. */
  ghost predicate FoldersChosen(choice: Option<bool>, wasDir: bool, listing: set<string>, filter: string,
                          folders: seq<string>)
  {
    (forall i, j :: 0 <= i < j < |folders| ==> folders[i] != folders[j])
    && (choice == Some(true) && wasDir ==> forall n :: n in folders <==> n in listing)
    && (choice == Some(false) ==> folders == [filter])
    && (choice == None || (choice == Some(true) && !wasDir) ==> folders == [])
  }

  /** One more folder processed from the last state of the walk extends the walk. */
  lemma FolderAdded(dirs: set<string>, layout: Layout, inbound: string, folders: seq<string>,
                    trace: seq<Moment>, results: seq<string>, runs: seq<FolderRun>,
                    f: string, s: Moment, r: string, run: FolderRun)
    requires FoldersWalked(dirs, layout, inbound, folders, trace, results, runs)
    requires FolderWalked(dirs, layout, Join(inbound, f), trace[|folders|], s, r, run)
    ensures FoldersWalked(dirs, layout, inbound, folders + [f], trace + [s], results + [r], runs + [run])
  {
    var fs', t, rs, ru := folders + [f], trace + [s], results + [r], runs + [run];
    forall k | 0 <= k < |fs'|
      ensures FolderWalked(dirs, layout, Join(inbound, fs'[k]), t[k], t[k + 1], rs[k], ru[k])
    {
      if k < |folders| {
        assert fs'[k] == folders[k] && t[k] == trace[k] && t[k + 1] == trace[k + 1] && rs[k] == results[k] && ru[k] == runs[k];
      }
    }
  }

  class Script {
    const fs: FileSystem
    const env: Environment
    const log: LogBuffer
    /** `os.path.realpath(__file__)`. */
    const caller: string
    const columnConfigurationFilename: string
    const fileConfigurationFilename: string
    const root: string
    const inboundSourceFolder: string

    var paths: Layout
    var configurationsColumnCurrentFile: Sheet
    var configurationsFileCurrentFile: Sheet
    var inboundFileFound: bool

    constructor(fs: FileSystem, env: Environment, log: LogBuffer, caller: string,
                columnFile: string, fileFile: string, root: string, filter: string)
      ensures this.fs == fs && this.env == env && this.log == log && this.caller == caller
      ensures columnConfigurationFilename == columnFile && fileConfigurationFilename == fileFile
      ensures this.root == root && inboundSourceFolder == filter
      ensures paths == Layout("", "", "", "", "", "", "")
      ensures configurationsColumnCurrentFile == NoSheet && configurationsFileCurrentFile == NoSheet
      ensures !inboundFileFound
    {
      this.fs := fs;
      this.env := env;
      this.log := log;
      this.caller := caller;
      columnConfigurationFilename := columnFile;
      fileConfigurationFilename := fileFile;
      this.root := root;
      inboundSourceFolder := filter;
      paths := Layout("", "", "", "", "", "", "");
      configurationsColumnCurrentFile := NoSheet;
      configurationsFileCurrentFile := NoSheet;
      inboundFileFound := false;
    }

    /** The part of the state one file's processing may change. */
    function Snapshot(): (m: Moment)
      reads this, fs, log
      ensures m.files == fs.files && m.log == log.entries
    {
      Moment(fs.files, configurationsFileCurrentFile, configurationsColumnCurrentFile, log.entries)
    }

    /** Appends exactly one entry; an empty id is replaced by a fresh one. */
    method LogStep(begin: string, callStack: string, guid: string, parameters: string, v: Varied)
      modifies log, env
      ensures Appended(old(log.entries), log.entries, [Note(v.severity, v.result, v.file)])
      ensures var e := log.entries[|log.entries| - 1];
        e.caller == caller && e.callStack == callStack && e.begin == begin && e.parameters == parameters
        && e.executionGuid == (if guid == "" then GuidText(old(env.issued)) else guid)
    {
      Logging.Record(log, env, begin, caller, callStack, guid, parameters, v);
    }

    /** `os.rename`, returning "Success" or the error text; one entry is logged either way. */
    method MoveFile(callStack: string, source: string, target: string, parent: string) returns (r: string)
      requires fs.Valid()
      modifies fs, log, env
      ensures fs.Valid() && fs.dirs == old(fs.dirs)
      ensures r == ResultSuccess <==>
        source in old(fs.files) && old(fs.ParentExists(target)) && !old(fs.Exists(target))
      ensures r == ResultSuccess ==> fs.files == old(fs.files) - {source} + map[target := old(fs.files)[source]]
      ensures r != ResultSuccess ==> fs.files == old(fs.files)
      ensures Appended(old(log.entries), log.entries, [Outcome(r, None)])
    {
      var begin := env.Now();
      var stack := callStack + " > MoveFile";
      var guid := env.NewGuid();
      var parameters := DictText([("FullPath_SourceFile", Repr(source)), ("FullPath_TargetFile", Repr(target)),
                                  ("ParentExecutionGUID", Repr(parent))]);
      var err := fs.Rename(source, target);
      r := if err.Some? then err.value else ResultSuccess;
      LogStep(begin, stack, guid, parameters, Step(Some(parent), Outcome(r, None).severity.value, r, None));
    }

    /** Renames the columns of the caller's frame, drops its duplicate rows (both in place),
        removes the rows Bronze already holds and appends the rest to the Bronze file. */
    method CopyToBronze(callStack: string, cfg: Sheet, parent: string, source: string, records: DataFrame)
      returns (r: string)
      requires fs.Valid()
      modifies fs, log, env, records
      ensures fs.Valid() && fs.dirs == old(fs.dirs)
      ensures var plan := CopyPlan(old(fs.ReadCsv(BronzePath(paths.bronze, source))), cfg, old(records.Contents()));
        (r == ResultSuccess <==> plan.Ok?) && (plan.Raised? ==> r == plan.error)
      ensures var bronze := BronzePath(paths.bronze, source);
        var plan := CopyPlan(old(fs.ReadCsv(bronze)), cfg, old(records.Contents()));
        plan.Ok? ==> bronze in old(fs.files) && fs.files == AfterCopy(old(fs.files), bronze, plan.value.rows)
      ensures r != ResultSuccess ==> fs.files == old(fs.files)
      ensures old(fs.ReadCsv(BronzePath(paths.bronze, source))).Ok? && MappingOf(cfg).Ok? ==>
        records.columns == RenameColumns(old(records.columns), MappingOf(cfg).value)
        && records.rows == KeepLast(old(records.rows))
      ensures !(old(fs.ReadCsv(BronzePath(paths.bronze, source))).Ok? && MappingOf(cfg).Ok?) ==>
        records.Contents() == old(records.Contents())
      ensures Appended(old(log.entries), log.entries, [Outcome(r, None)])
    {
      var begin := env.Now();
      var stack := callStack + " > CopyToBronze";
      var guid := env.NewGuid();
      var parameters := DictText([("ParentExecutionGUID", Repr(parent)), ("Source", Repr(source))]);
      r := AppendNewRecords(BronzePath(paths.bronze, source), cfg, records);
      LogStep(begin, stack, guid, parameters, Step(Some(parent), Outcome(r, None).severity.value, r, None));
    }

    /** The body of `CopyToBronze` inside its `try`. */
    method AppendNewRecords(bronze: string, cfg: Sheet, records: DataFrame) returns (r: string)
      requires fs.Valid()
      modifies fs, records
      ensures fs.Valid() && fs.dirs == old(fs.dirs)
      ensures var plan := CopyPlan(old(fs.ReadCsv(bronze)), cfg, old(records.Contents()));
        (r == ResultSuccess <==> plan.Ok?) && (plan.Raised? ==> r == plan.error)
        && (plan.Ok? ==> bronze in old(fs.files) && fs.files == AfterCopy(old(fs.files), bronze, plan.value.rows))
      ensures r != ResultSuccess ==> fs.files == old(fs.files)
      ensures old(fs.ReadCsv(bronze)).Ok? && MappingOf(cfg).Ok? ==>
        records.columns == RenameColumns(old(records.columns), MappingOf(cfg).value)
        && records.rows == KeepLast(old(records.rows))
      ensures !(old(fs.ReadCsv(bronze)).Ok? && MappingOf(cfg).Ok?) ==>
        records.Contents() == old(records.Contents())
    {
      var existing := fs.ReadCsv(bronze);
      ghost var valid0 := records.Contents();
      ghost var plan := CopyPlan(existing, cfg, valid0);
      r := ResultSuccess;
      if existing.Raised? {
        r := existing.error;
        return;
      }
      var mapping := MappingOf(cfg);
      if mapping.Raised? {
        r := mapping.error;
        return;
      }
      records.Rename(mapping.value);
      records.DropDuplicatesKeepLast();
      assert records.Contents() == Frame(RenameColumns(valid0.columns, mapping.value), KeepLast(valid0.rows));
      var out: Result<Frame> := Ok(records.Contents());
      if |existing.value.rows| > 0 {
        out := AntiJoin(records.Contents(), existing.value);
      }
      assert out == plan;
      if out.Raised? {
        r := out.error;
        return;
      }
      assert bronze in fs.files && Placed(fs.dirs, bronze);
      var err := fs.AppendRecords(bronze, out.value.rows);
      assert err.None?;
    }

    /** Reads the file-level configuration and keeps the rows of `source` in the global. */
    method RetrieveConfigurationsFile(callStack: string, path: string, parent: string, source: string)
      returns (r: string)
      modifies this, log, env
      ensures paths == old(paths) && inboundFileFound == old(inboundFileFound)
      ensures configurationsColumnCurrentFile == old(configurationsColumnCurrentFile)
      ensures var fc := FileConfigFor(fs.ReadCsv(path), source);
        (fc.Ok? ==> r == ResultSuccess && configurationsFileCurrentFile == fc.value)
        && (fc.Raised? ==> r == fc.error && configurationsFileCurrentFile == old(configurationsFileCurrentFile))
      ensures Appended(old(log.entries), log.entries, [Outcome(r, None)])
    {
      var begin := env.Now();
      var stack := callStack + " > RetrieveConfigurations_File";
      var guid := env.NewGuid();
      var parameters := DictText([("FullPath_Configurations_File", Repr(path)), ("ParentExecutionGUID", Repr(parent)),
                                  ("Source", Repr(source))]);
      var fc := FileConfigFor(fs.ReadCsv(path), source);
      if fc.Ok? {
        configurationsFileCurrentFile := fc.value;
        r := ResultSuccess;
      } else {
        r := fc.error;
      }
      LogStep(begin, stack, guid, parameters, Step(Some(parent), Outcome(r, None).severity.value, r, None));
    }

    /** Reads the column-level configuration and keeps the rows of the id in the global. A
        failure is logged, yet the result stays "Success" and the global keeps its old rows. */
    method RetrieveConfigurationsColumn(callStack: string, id: Cell, path: string, parent: string)
      returns (r: string)
      modifies this, log, env
      ensures r == ResultSuccess
      ensures paths == old(paths) && inboundFileFound == old(inboundFileFound)
      ensures configurationsFileCurrentFile == old(configurationsFileCurrentFile)
      ensures var cc := ColumnConfigFor(fs.ReadCsv(path), id);
        configurationsColumnCurrentFile == (if cc.Ok? then cc.value else old(configurationsColumnCurrentFile))
      ensures var cc := ColumnConfigFor(fs.ReadCsv(path), id);
        Appended(old(log.entries), log.entries, [if cc.Ok? then InfoNote(ResultSuccess) else ErrorNote(cc.error)])
    {
      var begin := env.Now();
      var stack := callStack + " > RetrieveConfigurations_Column";
      var guid := env.NewGuid();
      var parameters := DictText([("ConfigurationFileID", Repr(CellText(id))),
                                  ("FullPath_Configurations_Column", Repr(path)), ("ParentExecutionGUID", Repr(parent))]);
      r := ResultSuccess;
      var cc := ColumnConfigFor(fs.ReadCsv(path), id);
      var step := if cc.Ok? then Step(Some(parent), SeverityInfo, r, None)
                  else Step(Some(parent), SeverityError, cc.error, None);
      LogStep(begin, stack, guid, parameters, step);
      if cc.Ok? {
        configurationsColumnCurrentFile := cc.value;
      }
    }

    /** Compares the actual with the expected header; the missing-columns message overwrites
        the extra-columns message, and each kind of mismatch is logged as an Error. */
    method ValidateColumnHeader(actual: seq<Cell>, callStack: string, expected: seq<Cell>, parent: string)
      returns (r: string)
      modifies log, env
      ensures r == OverwritingResult(actual, expected)
      ensures Appended(old(log.entries), log.entries, OverwritingNotes(actual, expected))
    {
      var begin := env.Now();
      var stack := callStack + " > ValidateColumnHeader";
      var guid := env.NewGuid();
      var parameters := DictText([("ActualColumnsAsList", Render(actual)), ("ExpectedColumnsAsList", Render(expected)),
                                  ("ParentExecutionGUID", Repr(parent))]);
      var extra := ExtraColumns(actual, expected);
      var missing := MissingColumns(actual, expected);
      ghost var log0 := log.entries;
      r := ResultSuccess;
      ghost var notes: seq<Note> := [];
      if |extra| > 0 {
        r := ExtraMessage(extra);
        LogStep(begin, stack, guid, parameters, Step(Some(parent), SeverityError, r, None));
        notes := [ErrorNote(r)];
      }
      assert Appended(log0, log.entries, notes);
      ghost var log1 := log.entries;
      if |missing| > 0 {
        r := MissingMessage(missing);
        LogStep(begin, stack, guid, parameters, Step(Some(parent), SeverityError, r, None));
        AppendedChain(log0, log1, log.entries, notes, [ErrorNote(r)]);
        notes := notes + [ErrorNote(r)];
      }
      ghost var log2 := log.entries;
      if |extra| + |missing| == 0 {
        LogStep(begin, stack, guid, parameters, Step(Some(parent), SeverityInfo, r, None));
        AppendedChain(log0, log2, log.entries, notes, [InfoNote(r)]);
        notes := notes + [InfoNote(r)];
      }
    }

    /** Creates the log path as a folder when it is missing (which then fails to open as a
        file); otherwise reads the log file and validates its header, logging the outcome with
        the log path as `File`. */
    method ValidateLogFile(callStack: string, parent: string) returns (r: string)
      requires fs.Valid()
      modifies fs, log, env
      ensures fs.Valid() && fs.files == old(fs.files)
      ensures r == ResultSuccess ==> fs.dirs == old(fs.dirs)
      ensures r == ResultSuccess <==> LogFileValid(old(fs.ReadCsv(paths.logFile)))
      ensures paths.logFile != "" && !old(fs.Exists(paths.logFile)) ==>
        EndsWithNote(old(log.entries), log.entries, ErrorNote(r))
      ensures paths.logFile == "" || old(fs.Exists(paths.logFile)) ==>
        match old(fs.ReadCsv(paths.logFile))
        case Raised(e) => r == e && Appended(old(log.entries), log.entries, [ErrorNote(e)])
        case Ok(f) => (r == OverwritingResult(Names(f.columns), Names(LogFileDefinition))
          && Appended(old(log.entries), log.entries,
                      OverwritingNotes(Names(f.columns), Names(LogFileDefinition))
                      + [Note(Some(SeverityInfo), Some(r), Some(paths.logFile))]))
    {
      var begin := env.Now();
      var stack := callStack + " > ValidateLogFile";
      var guid := env.NewGuid();
      var parameters := DictText([("ParentExecutionGUID", Repr(parent))]);
      var p := paths.logFile;
      if p != "" && !fs.Exists(p) {
        var err := fs.Mkdir(p);
        if err.Some? {
          r := err.value;
        } else {
          var denied := fs.Truncate(p);
          r := denied.value;
        }
        LogStep(begin, stack, guid, parameters, Step(Some(parent), SeverityError, r, None));
        AppendedGrows(old(log.entries), log.entries, [ErrorNote(r)]);
        return;
      }
      var read := fs.ReadCsv(p);
      if read.Raised? {
        r := read.error;
        LogStep(begin, stack, guid, parameters, Step(Some(parent), SeverityError, r, None));
        return;
      }
      ghost var log0 := log.entries;
      var actual := Names(read.value.columns);
      r := ValidateColumnHeader(actual, stack, Names(LogFileDefinition), parent);
      ghost var log1 := log.entries;
      LogStep(begin, stack, guid, parameters, Step(Some(parent), SeverityInfo, r, Some(p)));
      AppendedChain(log0, log1, log.entries, OverwritingNotes(actual, Names(LogFileDefinition)),
                    [Note(Some(SeverityInfo), Some(r), Some(p))]);
    }

    /** Logs an Error for each empty required parameter, creates a missing root or source
        folder (returning a warning), and fails when the configuration folder is missing. */
    method ValidateRootParameters(callStack: string, parent: string) returns (r: string)
      requires fs.Valid()
      modifies fs, log, env
      ensures fs.Valid() && fs.files == old(fs.files) && old(fs.dirs) <= fs.dirs
      ensures fs.dirs - old(fs.dirs) <= {DirKey(root), DirKey(inboundSourceFolder)}
      ensures r == ResultSuccess ==> fs.dirs == old(fs.dirs)
      ensures r == ResultSuccess <==> old(FoldersPresent(fs, root, inboundSourceFolder, paths.configurations))
      ensures var missing := MissingParameters(columnConfigurationFilename, fileConfigurationFilename, root);
        (r == ResultSuccess ==> Appended(old(log.entries), log.entries, missing))
        && (r != ResultSuccess ==>
              Appended(old(log.entries), log.entries, missing)
              || Appended(old(log.entries), log.entries, missing + [ErrorNote(r)]))
    {
      var begin := env.Now();
      var stack := callStack + " > ValidateRootParameters";
      var guid := env.NewGuid();
      var parameters := DictText([("ColumnConfigurationFilename", Repr(columnConfigurationFilename)),
                                  ("FileConfigurationFilename", Repr(fileConfigurationFilename)),
                                  ("FullPath_Root", Repr(root)), ("InboundSourceFolder", Repr(inboundSourceFolder)),
                                  ("ParentExecutionGUID", Repr(parent))]);
      LogMissingParameters(begin, stack, guid, parameters);
      ghost var log0 := log.entries;
      ghost var dirs0 := fs.dirs;
      var failed;
      r, failed := CreateIfMissing(root, ResultSuccess);
      ghost var dirs1 := fs.dirs;
      if !failed {
        r, failed := CreateIfMissing(inboundSourceFolder, r);
      }
      assert fs.dirs - dirs0 <= (fs.dirs - dirs1) + (dirs1 - dirs0);
      if !failed && paths.configurations != "" && !fs.Exists(paths.configurations) {
        r := "Error in FullPath_Configurations";
        failed := true;
      }
      if failed {
        LogStep(begin, stack, guid, parameters, Step(Some(parent), SeverityError, r, None));
        AppendedChain(old(log.entries), log0, log.entries,
                      MissingParameters(columnConfigurationFilename, fileConfigurationFilename, root), [ErrorNote(r)]);
      }
    }

    /** The three parameter checks of `ValidateRootParameters`, each logging an Error. */
    method LogMissingParameters(begin: string, stack: string, guid: string, parameters: string)
      modifies log, env
      ensures Appended(old(log.entries), log.entries,
                       MissingParameters(columnConfigurationFilename, fileConfigurationFilename, root))
    {
      ghost var notes: seq<Note> := [];
      if columnConfigurationFilename == "" {
        ghost var before := log.entries;
        var m := "Script parameter value missing: ColumnConfigurationFilename";
        LogStep(begin, stack, guid, parameters, Step(None, SeverityError, m, None));
        AppendedChain(old(log.entries), before, log.entries, notes, [ErrorNote(m)]);
        notes := notes + [ErrorNote(m)];
      }
      if fileConfigurationFilename == "" {
        ghost var before := log.entries;
        var m := "Script parameter value missing: FileConfigurationFilename";
        LogStep(begin, stack, guid, parameters, Step(None, SeverityError, m, None));
        AppendedChain(old(log.entries), before, log.entries, notes, [ErrorNote(m)]);
        notes := notes + [ErrorNote(m)];
      }
      if root == "" {
        ghost var before := log.entries;
        var m := "Script parameter value missing: FullPath_Root";
        LogStep(begin, stack, guid, parameters, Step(None, SeverityError, m, None));
        AppendedChain(old(log.entries), before, log.entries, notes, [ErrorNote(m)]);
        notes := notes + [ErrorNote(m)];
      }
    }

    /** `os.mkdir` of a given but missing folder: the warning that it was created, or the
        error that stops the validation; `r0` is kept when nothing is to be created. */
    method CreateIfMissing(p: string, r0: string) returns (r: string, failed: bool)
      requires fs.Valid()
      modifies fs
      ensures fs.Valid() && fs.files == old(fs.files) && old(fs.dirs) <= fs.dirs
      ensures fs.dirs - old(fs.dirs) <= {DirKey(p)}
      ensures p == "" || old(fs.Exists(p)) ==> r == r0 && !failed && fs.dirs == old(fs.dirs)
      ensures p != "" && !old(fs.Exists(p)) ==> r != ResultSuccess
      ensures !failed && p != "" && !old(fs.Exists(p)) ==> r == CreatedPrefix + p
    {
      r, failed := r0, false;
      if p != "" && !fs.Exists(p) {
        var err := fs.Mkdir(p);
        if err.Some? {
          r, failed := err.value, true;
        } else {
          r := CreatedPrefix + p;
          assert r[..|CreatedPrefix|] == CreatedPrefix;
        }
      }
    }

    /** Processes one file of an Inbound sub-folder: a `.csv`/`.txt` file is configured,
        validated, copied to Bronze and archived; anything else is passed over. */
    method ProcessFile(callStack: string, name: string, columnPath: string, filePath: string,
                       folder: string, parent: string) returns (r: string)
      requires fs.Valid()
      modifies this, fs, log, env
      ensures fs.Valid() && fs.dirs == old(fs.dirs)
      ensures paths == old(paths) && inboundFileFound == old(inboundFileFound)
      ensures FileProcessed(fs.dirs, paths, old(Snapshot()), Snapshot(), name, columnPath, filePath, folder, r)
    {
      var begin := env.Now();
      var stack := callStack + " > ProcessFile";
      var guid := env.NewGuid();
      var parameters := DictText([("FileName", Repr(name)), ("FullPath_Configurations_Column", Repr(columnPath)),
                                  ("FullPath_Configurations_File", Repr(filePath)), ("InboundFolder", Repr(folder)),
                                  ("ParentExecutionGUID", Repr(parent))]);
      r := ResultSuccess;
      ghost var log0 := log.entries;
      if Ingestible(name) {
        r := Ingest(stack, name, columnPath, filePath, folder, parent);
      }
      ghost var log1 := log.entries;
      var inboundFile := if r == ResultSuccess then "" else Join(folder, name);
      LogStep(begin, stack, guid, parameters,
              Step(Some(parent), FileNote(r, inboundFile).severity.value, r, Some(inboundFile)));
      assert Note(FileNote(r, inboundFile).severity, Some(r), Some(inboundFile)) == FileNote(r, Join(folder, name));
      EndsWithLast(log0, log1, log.entries, 0, FileNote(r, Join(folder, name)));
    }

    /** The steps of `ProcessFile` for a `.csv`/`.txt` file, up to the first that fails. */
    method Ingest(stack: string, name: string, columnPath: string, filePath: string,
                  folder: string, parent: string) returns (r: string)
      requires fs.Valid() && Ingestible(name)
      modifies this, fs, log, env
      ensures fs.Valid() && fs.dirs == old(fs.dirs)
      ensures paths == old(paths) && inboundFileFound == old(inboundFileFound)
      ensures var p := old(Plan(fs.files, fs.dirs, paths, name, columnPath, filePath, folder,
                                configurationsFileCurrentFile, configurationsColumnCurrentFile));
        configurationsFileCurrentFile == p.fileSheet && configurationsColumnCurrentFile == p.columnSheet
        && (!p.stage.Copied? ==> r == StageResult(p.stage) && fs.files == old(fs.files))
      ensures var p := old(Plan(fs.files, fs.dirs, paths, name, columnPath, filePath, folder,
                                configurationsFileCurrentFile, configurationsColumnCurrentFile));
        var source := SourceOf(folder, paths.inbound);
        var bronze := BronzePath(paths.bronze, source);
        var target := ArchivePath(paths.archive, source, name);
        p.stage.Copied? ==>
          bronze in old(fs.files) && Join(folder, name) in old(fs.files)
          && CopiedThenMoved(old(fs.files), fs.files, r, bronze, p.stage.rows, Join(folder, name), target,
                             old(fs.ParentExists(target)) && !old(fs.Exists(target)))
      ensures GrewBy(old(log.entries), log.entries, 0)
    {
      var source := SourceOf(folder, paths.inbound);
      r := RetrieveConfigurationsFile(stack, filePath, parent, source);
      if r != ResultSuccess {
        r := "Error in ValidateColumnHeader";
        return;
      }
      r := IngestConfigured(stack, name, columnPath, folder, parent);
    }

    /** `Ingest` once the configuration of the file's source is in
        `configurationsFileCurrentFile`: its id and delimiter are picked, the column
        configuration retrieved, and the file loaded. */
    method IngestConfigured(stack: string, name: string, columnPath: string, folder: string, parent: string)
      returns (r: string)
      requires fs.Valid()
      modifies this, fs, log, env
      ensures fs.Valid() && fs.dirs == old(fs.dirs)
      ensures paths == old(paths) && inboundFileFound == old(inboundFileFound)
      ensures var p := old(Configured(fs.files, fs.dirs, paths, name, columnPath, folder,
                                      configurationsFileCurrentFile, configurationsColumnCurrentFile));
        configurationsFileCurrentFile == p.fileSheet && configurationsColumnCurrentFile == p.columnSheet
        && (!p.stage.Copied? ==> r == StageResult(p.stage) && fs.files == old(fs.files))
      ensures var p := old(Configured(fs.files, fs.dirs, paths, name, columnPath, folder,
                                      configurationsFileCurrentFile, configurationsColumnCurrentFile));
        var source := SourceOf(folder, paths.inbound);
        var bronze := BronzePath(paths.bronze, source);
        var target := ArchivePath(paths.archive, source, name);
        p.stage.Copied? ==>
          bronze in old(fs.files) && Join(folder, name) in old(fs.files)
          && CopiedThenMoved(old(fs.files), fs.files, r, bronze, p.stage.rows, Join(folder, name), target,
                             old(fs.ParentExists(target)) && !old(fs.Exists(target)))
      ensures GrewBy(old(log.entries), log.entries, 0)
    {
      var id := Pick(configurationsFileCurrentFile, "ConfigurationFileID");
      if id.Raised? {
        r := id.error;
        return;
      }
      var delimiter := Pick(configurationsFileCurrentFile, "Delimiter");
      if delimiter.Raised? {
        r := delimiter.error;
        return;
      }
      // RetrieveConfigurations_Column always returns "Success", so its check never fires.
      r := RetrieveConfigurationsColumn(stack, id.value, columnPath, parent);
      r := Load(stack, name, folder, parent);
    }

    /** The steps of `ProcessFile` once the configuration is retrieved: read the file, check
        its header, copy it to Bronze and archive it. */
    method Load(stack: string, name: string, folder: string, parent: string) returns (r: string)
      requires fs.Valid()
      modifies fs, log, env
      ensures fs.Valid() && fs.dirs == old(fs.dirs)
      ensures var s := old(LoadStage(fs.files, fs.dirs, paths, name, folder, configurationsColumnCurrentFile));
        !s.Copied? ==> r == StageResult(s) && fs.files == old(fs.files)
      ensures var s := old(LoadStage(fs.files, fs.dirs, paths, name, folder, configurationsColumnCurrentFile));
        var source := SourceOf(folder, paths.inbound);
        var bronze := BronzePath(paths.bronze, source);
        var target := ArchivePath(paths.archive, source, name);
        s.Copied? ==>
          bronze in old(fs.files) && Join(folder, name) in old(fs.files)
          && CopiedThenMoved(old(fs.files), fs.files, r, bronze, s.rows, Join(folder, name), target,
                             old(fs.ParentExists(target)) && !old(fs.Exists(target)))
      ensures GrewBy(old(log.entries), log.entries, 0)
    {
      var inboundFile := Join(folder, name);
      var read := fs.ReadCsv(inboundFile);
      if read.Raised? {
        r := read.error;
        return;
      }
      var expected := Column(configurationsColumnCurrentFile, "ColumnName_File");
      if expected.Raised? {
        r := expected.error;
        return;
      }
      r := ValidateColumnHeader(Names(read.value.columns), stack, expected.value, parent);
      if r != ResultSuccess {
        r := "Error in ValidateColumnHeader";
        return;
      }
      r := CopyAndArchive(stack, name, folder, parent, read.value);
    }

    /** Copies the records of an inbound file that passed validation to Bronze and, when
        that succeeds, moves the file to its Archive folder. */
    method CopyAndArchive(stack: string, name: string, folder: string, parent: string, frame: Frame)
      returns (r: string)
      requires fs.Valid() && Join(folder, name) in fs.files
      modifies fs, log, env
      ensures fs.Valid() && fs.dirs == old(fs.dirs)
      ensures var source := SourceOf(folder, paths.inbound);
        var bronze := BronzePath(paths.bronze, source);
        var plan := CopyPlan(old(fs.ReadCsv(bronze)), configurationsColumnCurrentFile, frame);
        plan.Raised? ==> r == "Error in CopyToBronze" && fs.files == old(fs.files)
      ensures var source := SourceOf(folder, paths.inbound);
        var bronze := BronzePath(paths.bronze, source);
        var target := ArchivePath(paths.archive, source, name);
        var plan := CopyPlan(old(fs.ReadCsv(bronze)), configurationsColumnCurrentFile, frame);
        plan.Ok? ==>
          bronze in old(fs.files)
          && CopiedThenMoved(old(fs.files), fs.files, r, bronze, plan.value.rows, Join(folder, name), target,
                             old(fs.ParentExists(target)) && !old(fs.Exists(target)))
      ensures GrewBy(old(log.entries), log.entries, 0)
    {
      var source := SourceOf(folder, paths.inbound);
      ghost var bronze := BronzePath(paths.bronze, source);
      ghost var plan := CopyPlan(fs.ReadCsv(bronze), configurationsColumnCurrentFile, frame);
      ghost var files0 := fs.files;
      var target := ArchivePath(paths.archive, source, name);
      var records := new DataFrame(frame);
      r := CopyToBronze(stack, configurationsColumnCurrentFile, parent, source, records);
      AppendedGrows(old(log.entries), log.entries, [Outcome(r, None)]);
      if r != ResultSuccess {
        r := "Error in CopyToBronze";
        return;
      }
      assert fs.files == AfterCopy(files0, bronze, plan.value.rows);
      assert fs.Exists(target) == old(fs.Exists(target));
      ghost var log1 := log.entries;
      r := MoveFile(stack, Join(folder, name), target, parent);
      AppendedGrows(log1, log.entries, [Outcome(r, None)]);
      GrewChain(old(log.entries), log1, log.entries, 1, 1);
      if r != ResultSuccess {
        r := "Error in MoveFile";
      }
    }

    /** Processes every file of one Inbound sub-folder; records in the global whether the
        folder held anything. */
    method ProcessInboundFolder(callStack: string, folder: string, parent: string)
        returns (r: string, ghost names: seq<string>, ghost trace: seq<Moment>, ghost results: seq<string>)
      requires fs.Valid()
      modifies this, fs, log, env
      ensures fs.Valid() && fs.dirs == old(fs.dirs)
      ensures paths == old(paths)
      ensures inboundFileFound ==> r == ResultSuccess
      ensures !old(fs.IsDir(folder)) ==>
        !inboundFileFound && fs.files == old(fs.files)
        && r == (if folder in old(fs.files) then WinError("267", InvalidDirectoryText, folder)
                 else WinError("3", PathNotFoundText, folder))
        && Appended(old(log.entries), log.entries, [ErrorNote(r)])
      ensures old(fs.IsDir(folder)) && old(fs.Listing(DirKey(folder))) == {} ==>
        !inboundFileFound && fs.files == old(fs.files)
        && r == "No files were found for processing in " + folder
        && Appended(old(log.entries), log.entries, [InfoNote(r)])
      ensures old(fs.IsDir(folder)) && old(fs.Listing(DirKey(folder))) != {} ==>
        inboundFileFound
        && GrewBy(old(log.entries), log.entries, |old(fs.Listing(DirKey(folder)))| + 1)
        && EndsWithNote(old(log.entries), log.entries, InfoNote(ResultSuccess))
      ensures (forall n :: n in old(fs.Listing(DirKey(folder))) ==> !Ingestible(n)) ==> fs.files == old(fs.files)
      ensures forall n :: n in names <==> old(fs.IsDir(folder)) && n in old(fs.Listing(DirKey(folder)))
      ensures forall i, j :: 0 <= i < j < |names| ==> names[i] != names[j]
      ensures |trace| == |names| + 1 && |results| == |names| && trace[0] == old(Snapshot())
      ensures StepsProcessed(fs.dirs, paths, names, trace, results, folder, |names|)
      ensures Snapshot() == trace[|names|].(log := log.entries)
      ensures names != [] ==> Appended(trace[|names|].log, log.entries, [InfoNote(ResultSuccess)])
    {
      names, trace, results := [], [Snapshot()], [];
      var begin := env.Now();
      var stack := callStack + " > ProcessInboundFolder";
      var guid := env.NewGuid();
      inboundFileFound := false;
      var parameters := DictText([("InboundFolder", Repr(folder)), ("ParentExecutionGUID", Repr(parent))]);
      r := ResultSuccess;
      var listing := fs.ListDir(folder);
      if listing.Raised? {
        r := listing.error;
        LogStep(begin, stack, guid, parameters, Step(Some(parent), SeverityError, r, None));
        return;
      }
      r, names, trace, results := ProcessListed(begin, stack, guid, parameters, folder, parent, listing.value);
    }

    /** `ProcessInboundFolder` once the folder is listed: the message for an empty folder,
        otherwise the loop over its files; then the folder's own entry. */
    method ProcessListed(begin: string, stack: string, guid: string, parameters: string, folder: string,
                         parent: string, listed: seq<string>)
        returns (r: string, ghost names: seq<string>, ghost trace: seq<Moment>, ghost results: seq<string>)
      requires fs.Valid() && fs.IsDir(folder)
      requires forall n :: n in listed <==> n in fs.Listing(DirKey(folder))
      modifies this, fs, log, env
      ensures fs.Valid() && fs.dirs == old(fs.dirs) && paths == old(paths)
      ensures inboundFileFound <==> old(fs.Listing(DirKey(folder))) != {}
      ensures !inboundFileFound ==>
        fs.files == old(fs.files) && r == "No files were found for processing in " + folder
        && Appended(old(log.entries), log.entries, [InfoNote(r)])
      ensures inboundFileFound ==>
        r == ResultSuccess
        && GrewBy(old(log.entries), log.entries, |old(fs.Listing(DirKey(folder)))| + 1)
        && EndsWithNote(old(log.entries), log.entries, InfoNote(ResultSuccess))
      ensures (forall n :: n in old(fs.Listing(DirKey(folder))) ==> !Ingestible(n)) ==> fs.files == old(fs.files)
      ensures forall n :: n in names <==> n in old(fs.Listing(DirKey(folder)))
      ensures forall i, j :: 0 <= i < j < |names| ==> names[i] != names[j]
      ensures |trace| == |names| + 1 && |results| == |names| && trace[0] == old(Snapshot())
      ensures StepsProcessed(fs.dirs, paths, names, trace, results, folder, |names|)
      ensures Snapshot() == trace[|names|].(log := log.entries)
      ensures names != [] ==> Appended(trace[|names|].log, log.entries, [InfoNote(ResultSuccess)])
    {
      names, trace, results := [], [Snapshot()], [];
      if listed == [] {
        assert fs.Listing(DirKey(folder)) == {} by {
          forall n | n in fs.Listing(DirKey(folder)) ensures n in listed { }
        }
        r := "No files were found for processing in " + folder;
        inboundFileFound := false;
      } else {
        assert listed[0] in fs.Listing(DirKey(folder));
        r := ResultSuccess;
        inboundFileFound := true;
        names, trace, results := ProcessFiles(stack, folder, guid);
      }
      ghost var log1, s1 := log.entries, Snapshot();
      LogStep(begin, stack, guid, parameters, Step(Some(parent), SeverityInfo, r, None));
      assert Snapshot() == s1.(log := log.entries);
      if inboundFileFound {
        EndsWithLast(old(log.entries), log1, log.entries, |old(fs.Listing(DirKey(folder)))|, InfoNote(r));
      }
    }

    /** The loop of `ProcessInboundFolder` over the folder's names, listed afresh; each
        file's own result is logged by `ProcessFile` and otherwise ignored. */
    method ProcessFiles(stack: string, folder: string, parent: string)
        returns (ghost names: seq<string>, ghost trace: seq<Moment>, ghost results: seq<string>)
      requires fs.Valid() && fs.IsDir(folder)
      modifies this, fs, log, env
      ensures fs.Valid() && fs.dirs == old(fs.dirs)
      ensures paths == old(paths) && inboundFileFound == old(inboundFileFound)
      ensures GrewBy(old(log.entries), log.entries, |old(fs.Listing(DirKey(folder)))|)
      ensures (forall n :: n in old(fs.Listing(DirKey(folder))) ==> !Ingestible(n)) ==> fs.files == old(fs.files)
      ensures forall n :: n in names <==> n in old(fs.Listing(DirKey(folder)))
      ensures forall i, j :: 0 <= i < j < |names| ==> names[i] != names[j]
      ensures |names| == |old(fs.Listing(DirKey(folder)))|
      ensures |trace| == |names| + 1 && |results| == |names|
      ensures trace[0] == old(Snapshot()) && trace[|names|] == Snapshot()
      ensures StepsProcessed(fs.dirs, paths, names, trace, results, folder, |names|)
    {
      var listing := fs.ListDir(folder);
      var listed := listing.value;
      names := listed;
      DistinctCard(names, fs.Listing(DirKey(folder)));
      trace := [Snapshot()];
      results := [];
      var i := 0;
      while i < |listed|
        invariant 0 <= i <= |listed| && names == listed
        invariant fs.Valid() && fs.dirs == old(fs.dirs)
        invariant paths == old(paths) && inboundFileFound == old(inboundFileFound)
        invariant GrewBy(old(log.entries), log.entries, i)
        invariant (forall k :: 0 <= k < i ==> !Ingestible(names[k])) ==> fs.files == old(fs.files)
        invariant |trace| == i + 1 && |results| == i
        invariant trace[0] == old(Snapshot()) && trace[i] == Snapshot()
        invariant StepsProcessed(fs.dirs, paths, names, trace, results, folder, i)
      {
        ghost var before := log.entries;
        var r := ProcessFile(stack, listed[i], paths.configurationsColumn, paths.configurationsFile,
                             folder, parent);
        GrewChain(old(log.entries), before, log.entries, i, 1);
        Extended(fs.dirs, paths, names, trace, results, Snapshot(), r, folder, i);
        trace := trace + [Snapshot()];
        results := results + [r];
        i := i + 1;
      }
      assert forall n :: n in old(fs.Listing(DirKey(folder))) ==> n in names;
    }

    /** `Main`: derives the folder layout, validates the log file and the parameters, walks
        the Inbound folders and, when the log file was valid, writes the log. Returns the
        result Main ends with and whether the log file was valid. */
    method Run()
      returns (result: string, isValid: bool, ghost folders: seq<string>, ghost trace: seq<Moment>,
               ghost results: seq<string>, ghost runs: seq<FolderRun>)
      requires fs.Valid()
      modifies this, fs, log, env
      ensures fs.Valid()
      ensures paths == LayoutOf(root, columnConfigurationFilename, fileConfigurationFilename)
      ensures !isValid ==> result == "Error in ValidateRootParameters" && fs.files == old(fs.files)
      ensures isValid && !old(FoldersPresent(fs, root, inboundSourceFolder, Join(root, "Admin"))) ==>
        result == "Error in ValidateRootParameters" && fs.files - {paths.logFile} == old(fs.files) - {paths.logFile}
      ensures isValid && old(FoldersPresent(fs, root, inboundSourceFolder, Join(root, "Admin"))) ==>
        WalkEnded(FolderChoice(inboundSourceFolder, root), paths.inbound,
                  old(fs.IsDir(Join(root, "Inbound"))), paths.inbound in old(fs.files),
                  result, old(fs.files) - {paths.logFile}, fs.files - {paths.logFile})
      ensures isValid && old(FoldersPresent(fs, root, inboundSourceFolder, Join(root, "Admin"))) ==>
        FoldersChosen(FolderChoice(inboundSourceFolder, root), old(fs.IsDir(Join(root, "Inbound"))),
                      old(fs.Listing(DirKey(Join(root, "Inbound")))), inboundSourceFolder, folders)
        && FoldersWalked(fs.dirs, paths, Join(root, "Inbound"), folders, trace, results, runs)
        && trace[0].files == old(fs.files) && GrewBy(old(log.entries), trace[0].log, 0)
        && trace[|folders|].files - {paths.logFile} == fs.files - {paths.logFile}
        && Appended(trace[|folders|].log, log.entries, [MainNote(result)])
      ensures EndsWithNote(old(log.entries), log.entries, MainNote(result))
      ensures isValid && paths.logFile in fs.files ==>
        EndsWithRecords(fs.files[paths.logFile], EntryRecords(SortByBegin(log.entries)))
      ensures isValid <==> old(LogFileValid(fs.ReadCsv(Join3(root, "Admin", "Log.txt"))))
    {
      var begin := env.Now();
      var guid := env.NewGuid();
      var parameters := DictText([("ColumnConfigurationFilename", Repr(columnConfigurationFilename)),
                                  ("FileConfigurationFilename", Repr(fileConfigurationFilename)),
                                  ("FullPath_Root", Repr(root)), ("InboundSourceFolder", Repr(inboundSourceFolder))]);
      result, isValid, folders, trace, results, runs := Steps(guid);
      ghost var log1 := log.entries;
      ghost var files1 := fs.files;
      Conclude(begin, guid, parameters, result, isValid);
      EndsWithLast(old(log.entries), log1, log.entries, 0, MainNote(result));
      assert files1 == old(fs.files) ==> fs.files - {paths.logFile} == old(fs.files) - {paths.logFile};
    }

    /** `Main` before its closing entry: the folder layout, the log file check, the
        parameter check and the walk of the Inbound folders. */
    method Steps(guid: string)
      returns (result: string, isValid: bool, ghost folders: seq<string>, ghost trace: seq<Moment>,
               ghost results: seq<string>, ghost runs: seq<FolderRun>)
      requires fs.Valid()
      modifies this, fs, log, env
      ensures fs.Valid()
      ensures paths == LayoutOf(root, columnConfigurationFilename, fileConfigurationFilename)
      ensures !isValid ==> result == "Error in ValidateRootParameters" && fs.files == old(fs.files)
      ensures isValid && !old(FoldersPresent(fs, root, inboundSourceFolder, Join(root, "Admin"))) ==>
        result == "Error in ValidateRootParameters" && fs.files == old(fs.files)
      ensures isValid && old(FoldersPresent(fs, root, inboundSourceFolder, Join(root, "Admin"))) ==>
        WalkEnded(FolderChoice(inboundSourceFolder, root), Join(root, "Inbound"),
                  old(fs.IsDir(Join(root, "Inbound"))), Join(root, "Inbound") in old(fs.files),
                  result, old(fs.files), fs.files)
      ensures isValid && old(FoldersPresent(fs, root, inboundSourceFolder, Join(root, "Admin"))) ==>
        FoldersChosen(FolderChoice(inboundSourceFolder, root), old(fs.IsDir(Join(root, "Inbound"))),
                      old(fs.Listing(DirKey(Join(root, "Inbound")))), inboundSourceFolder, folders)
        && FoldersWalked(fs.dirs, paths, Join(root, "Inbound"), folders, trace, results, runs)
        && trace[0].files == old(fs.files) && GrewBy(old(log.entries), trace[0].log, 0)
        && trace[|folders|].files == fs.files && trace[|folders|].log == log.entries
      ensures GrewBy(old(log.entries), log.entries, 0)
      ensures isValid <==> old(LogFileValid(fs.ReadCsv(Join3(root, "Admin", "Log.txt"))))
    {
      var choice := FolderChoice(inboundSourceFolder, root);
      paths := LayoutOf(root, columnConfigurationFilename, fileConfigurationFilename);
      result, isValid := Prepare(guid);
      ghost var log0 := log.entries;
      result, folders, trace, results, runs := ValidateAndWalk(result, choice, guid);
      GrewChain(old(log.entries), log0, log.entries, 0, 0);
    }

    /** The start of `Main` once the folder layout is derived: the log file check. An
        invalid log file is only reported on the console, since it cannot be logged to. */
    method Prepare(guid: string) returns (r: string, isValid: bool)
      requires fs.Valid()
      requires paths == LayoutOf(root, columnConfigurationFilename, fileConfigurationFilename)
      modifies fs, log, env
      ensures fs.Valid() && fs.files == old(fs.files)
      ensures isValid <==> r == ResultSuccess
      ensures isValid <==> old(LogFileValid(fs.ReadCsv(Join3(root, "Admin", "Log.txt"))))
      ensures isValid ==> fs.dirs == old(fs.dirs)
      ensures isValid ==> fs.IsDir(Join(root, "Inbound")) == old(fs.IsDir(Join(root, "Inbound")))
                          && fs.Listing(DirKey(Join(root, "Inbound"))) == old(fs.Listing(DirKey(Join(root, "Inbound"))))
      ensures isValid ==> (FoldersPresent(fs, root, inboundSourceFolder, paths.configurations)
                           == old(FoldersPresent(fs, root, inboundSourceFolder, Join(root, "Admin"))))
      ensures GrewBy(old(log.entries), log.entries, 0)
    {
      r := ValidateLogFile("Main", guid);
      isValid := r == ResultSuccess;
    }

    /** The end of `Main`: the closing note, then the log file write when the log file was
        valid. Only the log file changes. */
    method Conclude(begin: string, guid: string, parameters: string, r: string, write: bool)
      requires fs.Valid()
      modifies fs, log, env
      ensures fs.Valid() && fs.dirs == old(fs.dirs)
      ensures Appended(old(log.entries), log.entries, [MainNote(r)])
      ensures !write ==> fs.files == old(fs.files)
      ensures fs.files - {paths.logFile} == old(fs.files) - {paths.logFile}
      ensures write && paths.logFile in fs.files ==>
        EndsWithRecords(fs.files[paths.logFile], EntryRecords(SortByBegin(log.entries)))
    {
      CloseLog(begin, guid, parameters, r);
      assert |log.entries| > 0;
      if write {
        WriteToLogFile();
      }
    }

    /** The closing note of `Main`. */
    method CloseLog(begin: string, guid: string, parameters: string, r: string)
      modifies log, env
      ensures Appended(old(log.entries), log.entries, [MainNote(r)])
    {
      if r == ResultSuccess {
        LogStep(begin, "Main", guid, parameters, Step(None, SeverityInfo, r, None));
      } else {
        LogStep(begin, "Main", guid, parameters, Step(None, SeverityError, r, Some("")));
      }
    }

    /** The part of `Main` after the log file check: the parameters are validated only when
        the log file was, and the folders are walked only when both were. */
    method ValidateAndWalk(r0: string, choice: Option<bool>, guid: string)
      returns (r: string, ghost folders: seq<string>, ghost trace: seq<Moment>, ghost results: seq<string>,
               ghost runs: seq<FolderRun>)
      requires fs.Valid()
      modifies this, fs, log, env
      ensures fs.Valid() && paths == old(paths)
      ensures r0 != ResultSuccess || !old(FoldersPresent(fs, root, inboundSourceFolder, paths.configurations)) ==>
        folders == []
      ensures r0 != ResultSuccess ==>
        r == "Error in ValidateRootParameters" && fs.files == old(fs.files) && log.entries == old(log.entries)
      ensures r0 == ResultSuccess && !old(FoldersPresent(fs, root, inboundSourceFolder, paths.configurations)) ==>
        r == "Error in ValidateRootParameters" && fs.files == old(fs.files)
      ensures r0 == ResultSuccess && old(FoldersPresent(fs, root, inboundSourceFolder, paths.configurations)) ==>
        WalkEnded(choice, Join(root, "Inbound"), old(fs.IsDir(Join(root, "Inbound"))),
                  Join(root, "Inbound") in old(fs.files), r, old(fs.files), fs.files)
        && FoldersChosen(choice, old(fs.IsDir(Join(root, "Inbound"))), old(fs.Listing(DirKey(Join(root, "Inbound")))),
                         inboundSourceFolder, folders)
        && FoldersWalked(fs.dirs, paths, Join(root, "Inbound"), folders, trace, results, runs)
        && trace[0] == old(Snapshot()).(log := trace[0].log) && GrewBy(old(log.entries), trace[0].log, 0)
        && trace[|folders|] == Snapshot()
      ensures GrewBy(old(log.entries), log.entries, 0)
    {
      r, folders, trace, results, runs := r0, [], [], [], [];
      if r == ResultSuccess {
        r := ValidateRootParameters("Main", guid);
        assert GrewBy(old(log.entries), log.entries, 0);
      }
      if r != ResultSuccess {
        r := "Error in ValidateRootParameters";
      } else {
        ghost var log0 := log.entries;
        r, folders, trace, results, runs := WalkInbound(choice, guid);
        GrewChain(old(log.entries), log0, log.entries, 0, 0);
      }
    }

    /** The folder walk of `Main`: every Inbound sub-folder, or the one named by the filter;
        with no usable filter the choice variable is read unbound. A walk that completes
        returns "Success". `folders` are the folders processed, and `trace`, `results` and
        `runs` the states, results and runs of `ProcessInboundFolder` on each, in turn. */
    method WalkInbound(choice: Option<bool>, guid: string)
      returns (r: string, ghost folders: seq<string>, ghost trace: seq<Moment>, ghost results: seq<string>,
               ghost runs: seq<FolderRun>)
      requires fs.Valid()
      modifies this, fs, log, env
      ensures fs.Valid() && fs.dirs == old(fs.dirs) && paths == old(paths)
      ensures WalkEnded(choice, Join(root, "Inbound"), old(fs.IsDir(Join(root, "Inbound"))),
                        Join(root, "Inbound") in old(fs.files), r, old(fs.files), fs.files)
      ensures FoldersChosen(choice, old(fs.IsDir(Join(root, "Inbound"))), old(fs.Listing(DirKey(Join(root, "Inbound")))),
                            inboundSourceFolder, folders)
      ensures FoldersWalked(fs.dirs, paths, Join(root, "Inbound"), folders, trace, results, runs)
      ensures trace[0] == old(Snapshot()) && trace[|folders|] == Snapshot()
      ensures GrewBy(old(log.entries), log.entries, 0)
    {
      r, folders, trace, results, runs := ResultSuccess, [], [Snapshot()], [], [];
      if choice == None {
        r := UnboundAllInboundFolders;
        return;
      }
      var rootInbound := Join(root, "Inbound");
      if choice.value {
        var listing := fs.ListDir(rootInbound);
        if listing.Raised? {
          r := listing.error;
          return;
        }
        var i := 0;
        while i < |listing.value|
          invariant 0 <= i <= |listing.value| && |trace| == i + 1
          invariant fs.Valid() && fs.dirs == old(fs.dirs) && paths == old(paths)
          invariant r == ResultSuccess || !inboundFileFound
          invariant GrewBy(old(log.entries), log.entries, 0)
          invariant FoldersWalked(fs.dirs, paths, rootInbound, listing.value[..i], trace, results, runs)
          invariant trace[0] == old(Snapshot()) && trace[i] == Snapshot()
        {
          ghost var log0 := log.entries;
          r, trace, results, runs := WalkFolder(rootInbound, listing.value[..i], listing.value[i], guid, trace, results, runs);
          assert listing.value[..i] + [listing.value[i]] == listing.value[..i + 1];
          GrewChain(old(log.entries), log0, log.entries, 0, 0);
          i := i + 1;
        }
        assert listing.value[..i] == listing.value;
        folders := listing.value;
      } else {
        r, trace, results, runs := WalkFolder(rootInbound, [], inboundSourceFolder, guid, trace, results, runs);
        folders := [inboundSourceFolder];
        assert [] + folders == folders;
      }
      if !inboundFileFound {
        r := ResultSuccess;
      }
    }

    /** One turn of Main's walk: `ProcessInboundFolder` of the sub-folder `name` of
        `inbound`, extending the walk so far over `done`. */
    method WalkFolder(inbound: string, ghost done: seq<string>, name: string, guid: string,
                      ghost trace: seq<Moment>, ghost results: seq<string>, ghost runs: seq<FolderRun>)
      returns (r: string, ghost trace': seq<Moment>, ghost results': seq<string>, ghost runs': seq<FolderRun>)
      requires fs.Valid() && FoldersWalked(fs.dirs, paths, inbound, done, trace, results, runs)
      requires trace[|done|] == Snapshot()
      modifies this, fs, log, env
      ensures fs.Valid() && fs.dirs == old(fs.dirs) && paths == old(paths)
      ensures inboundFileFound ==> r == ResultSuccess
      ensures GrewBy(old(log.entries), log.entries, 0)
      ensures trace' == trace + [Snapshot()] && results' == results + [r] && |runs'| == |runs| + 1
      ensures FoldersWalked(fs.dirs, paths, inbound, done + [name], trace', results', runs')
    {
      ghost var names, steps, rs;
      r, names, steps, rs := ProcessInboundFolder("Main", Join(inbound, name), guid);
      ghost var run := FolderRun(inboundFileFound, names, steps, rs);
      assert FolderWalked(fs.dirs, paths, Join(inbound, name), trace[|done|], Snapshot(), r, run);
      FolderAdded(fs.dirs, paths, inbound, done, trace, results, runs, name, Snapshot(), r, run);
      trace', results', runs' := trace + [Snapshot()], results + [r], runs + [run];
    }

    /** Appends the buffered entries, ordered by `Begin`, to the log file. An empty buffer
        and a failed write are passed over silently. */
    method WriteToLogFile()
      requires fs.Valid()
      modifies fs
      ensures fs.Valid() && fs.dirs == old(fs.dirs)
      ensures |log.entries| > 0 && paths.logFile in fs.files ==>
        EndsWithRecords(fs.files[paths.logFile], EntryRecords(SortByBegin(log.entries)))
      ensures var p := paths.logFile;
        if |log.entries| > 0 && !old(fs.IsDir(p)) && old(fs.ParentExists(p)) then
          fs.files == old(fs.files)[p := (if p in old(fs.files) then old(fs.files)[p] else [])
                                         + EntryRecords(SortByBegin(log.entries))]
        else fs.files == old(fs.files)
      ensures fs.files - {paths.logFile} == old(fs.files) - {paths.logFile}
    {
      if |log.entries| > 0 {
        if paths.logFile in fs.files {
          assert Placed(fs.dirs, paths.logFile);
        }
        ghost var files0 := fs.files;
        var err := fs.AppendRecords(paths.logFile, EntryRecords(SortByBegin(log.entries)));
        if err.None? {
          UpdateElsewhere(files0, paths.logFile, fs.files[paths.logFile]);
        }
      }
    }
  }
}
