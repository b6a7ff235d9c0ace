/** The Admin variant of the Bronze load (Admin/LoadFileToBronze.py). Every sub-folder of
    `Bronze/Inbound` holds the files of one source. Before any file is touched, the source's
    configuration is resolved from the cached configuration tables. Each `.csv`/`.txt` file
    (in any letter case) is then read and stamped with four standard columns, and its header
    is checked against the configured file columns. A file with a mismatching header is
    renamed after the mismatch and moved to `Bronze/Error/<Source>`. Every file that passes
    is moved to `Silver/Inbound/<Source>`, and the first failure ends the folder. The folder
    layout, the configuration caches, the log buffer and the file moves are those of
    Admin/Utilities.py (module `AdminUtilities`).

    Several call sites of the script unpack results in the wrong order or pass the wrong
    arguments. The methods below use each callee's result as the callee defines it, and
    `ProcessInboundFile` uses its path argument (the script blanks it on entry; see
    `ProcessInboundFileAsWritten`). */
module AdminLoadFileToBronze {
  import opened Wrappers
  import opened Text
  import opened Paths
  import opened Tables
  import opened Logging
  import opened Headers
  import opened Files
  import opened Frames
  import opened Config
  import opened AdminUtilities
  import LoadFileToBronze
  import opened AdminRules

  /** What processing a folder or one of its files may change: the files, the folders and
      the log, and the script's source-specific globals. */
  datatype Moment = Moment(files: map<string, Content>, dirs: set<string>, log: seq<LogEntry>,
                           found: bool, errorFolder: string, silverFolder: string, columnRows: Sheet)

  /** What processing a folder with entries went through: whether the source's folders were
      located, the source's configuration, and the file loop's entries, states, results and
      dispositions. */
  datatype Entry = Entry(located: bool, res: Resolution, names: seq<string>, trace: seq<Moment>,
                         results: seq<string>, ds: seq<Disposition>)

  /** The state of Admin/LoadFileToBronze.py: the configuration of the source being
      processed, the source's Error and Silver folders, and whether the last folder had any
      entries. The Admin utilities, with the file system, clock and log they share, are `u`. */
  /** What the folder walk's predicates read of the Admin utilities' settings: the Bronze
      Inbound, Bronze Error and Silver Inbound folders, the two configuration files and the
      two configuration caches. */
  datatype Ctx = Ctx(bronzeInbound: string, bronzeError: string, silverInbound: string,
                     configurationsFile: string, configurationsColumn: string,
                     configurationsFileAll: Sheet, configurationsColumnAll: Sheet)

  class Script {
    const u: Utilities
    /** `os.path.realpath(__file__)` of this script: the `Caller` of its own log entries. */
    const scriptFile: string

    var configurationFileId: Cell
    var fileConfigurations: Sheet
    var columnConfigurations: Sheet
    var expectedDelimiter: Cell
    var errorFolder: string
    var silverFolder: string
    var inboundFileFound: bool

    constructor(u: Utilities, scriptFile: string)
      ensures this.u == u && this.scriptFile == scriptFile
      ensures configurationFileId == Value("0") && expectedDelimiter == Value("")
      ensures fileConfigurations == NoSheet && columnConfigurations == NoSheet
      ensures errorFolder == "" && silverFolder == "" && !inboundFileFound
    {
      this.u := u;
      this.scriptFile := scriptFile;
      configurationFileId := Value("0");
      fileConfigurations := NoSheet;
      columnConfigurations := NoSheet;
      expectedDelimiter := Value("");
      errorFolder := "";
      silverFolder := "";
      inboundFileFound := false;
    }

    /** The part of the state a folder's processing may change. */
    function State(): (m: Moment)
      reads this, u.fs, u.log
      ensures m.files == u.fs.files && m.dirs == u.fs.dirs && m.log == u.log.entries
    {
      Moment(u.fs.files, u.fs.dirs, u.log.entries, inboundFileFound, errorFolder, silverFolder,
             columnConfigurations)
    }

    /** The settings the folder walk works with. */
    function Context(): (c: Ctx)
      reads u
      ensures c.bronzeInbound == u.folders.bronzeInbound
    {
      Ctx(u.folders.bronzeInbound, u.folders.bronzeError, u.folders.silverInbound, u.folders.configurationsFile,
          u.folders.configurationsColumn, u.configurationsFileAll, u.configurationsColumnAll)
    }

    /** The script's own `LogStep`: one entry, recorded with this script as the caller. */
    method LogStep(begin: string, callStack: string, guid: string, parameters: string, v: Varied)
      modifies u.log, u.env
      ensures Appended(old(u.log.entries), u.log.entries, [Note(v.severity, v.result, v.file)])
      ensures u.log.entries[|u.log.entries| - 1].caller == scriptFile
    {
      Logging.Record(u.log, u.env, begin, scriptFile, callStack, guid, parameters, v);
    }

    /** `ProcessInboundFile` on the file at `inboundFile`. A name that is not `.csv`/`.txt`
        is passed over. A file that reads as empty only has its would-be name computed. Any
        other file is stamped and its header checked; a mismatch moves it to the Error
        folder, and the move's result becomes the result. Every outcome but an exception
        ends with one Info entry carrying the result and the file. An exception yields the
        error message and no entry: the handler's own `LogStep` call passes one argument
        too many, and the `return` in `finally` discards the resulting error. */
    method ProcessInboundFile(callStack: string, inboundFile: string, parent: string, source: string)
      returns (r: string, ghost notes: seq<Note>)
      requires u.fs.Valid()
      modifies u.log, u.env, u.fs
      ensures u.fs.Valid() && old(u.fs.dirs) <= u.fs.dirs
      ensures var d := Dispose(old(u.fs.ReadCsv(inboundFile)), inboundFile, columnConfigurations, errorFolder);
        Effect(d, scriptFile, inboundFile, r, old(u.fs.files), u.fs.files, notes)
        && (d.Failed? ==> u.log.entries == old(u.log.entries))
        && (!d.Failed? ==> Appended(old(u.log.entries), u.log.entries, notes + [FileDone(r, inboundFile)]))
        && (!d.Rejected? ==> u.fs.dirs == old(u.fs.dirs))
    {
      var begin := u.env.Now();
      var stack := callStack + " > ProcessInboundFile";
      var guid := u.env.NewGuid();
      var parameters := DictText([("InboundFile", Repr(inboundFile)), ("ParentExecutionGUID", Repr(parent)),
                                  ("Source", Repr(source))]);
      var failed;
      ghost var d := Dispose(u.fs.ReadCsv(inboundFile), inboundFile, columnConfigurations, errorFolder);
      r, failed, notes := Dispatch(stack, guid, parent, source, inboundFile, d);
      if !failed {
        ghost var log1 := u.log.entries;
        LogStep(begin, stack, guid, parameters, Step(Some(parent), SeverityInfo, r, Some(inboundFile)));
        AppendedChain(old(u.log.entries), log1, u.log.entries, notes, [FileDone(r, inboundFile)]);
      }
    }

    /** `ProcessInboundFile` as written: line 176 blanks the path before it is used, so the
        empty name is never a `.csv`/`.txt` file. Whatever the arguments, nothing is read or
        moved, the result is "Success" and the one entry logged names the empty file. */
    method ProcessInboundFileAsWritten(callStack: string, inboundFile: string, parent: string, source: string)
      returns (r: string)
      requires u.fs.Valid()
      modifies u.log, u.env, u.fs
      ensures u.fs.Valid() && u.fs.files == old(u.fs.files) && r == ResultSuccess
      ensures Appended(old(u.log.entries), u.log.entries, [FileDone(ResultSuccess, "")])
    {
      var begin := u.env.Now();
      var path := "";
      var stack := callStack + " > ProcessInboundFile";
      var guid := u.env.NewGuid();
      var parameters := DictText([("InboundFile", Repr(path)), ("ParentExecutionGUID", Repr(parent)),
                                  ("Source", Repr(source))]);
      BlankPathSkipped(u.fs.ReadCsv(path), columnConfigurations, errorFolder);
      var failed;
      ghost var notes;
      r, failed, notes := Dispatch(stack, guid, parent, source, path, Skipped);
      LogStep(begin, stack, guid, parameters, Step(Some(parent), SeverityInfo, r, Some(path)));
    }

    /** The body of `ProcessInboundFile` up to its closing entry: the file's disposition
        carried out. `failed` reports an exception. */
    method Dispatch(stack: string, guid: string, parent: string, source: string, inboundFile: string,
                    ghost d: Disposition)
      returns (r: string, failed: bool, ghost notes: seq<Note>)
      requires u.fs.Valid()
      requires d == Dispose(u.fs.ReadCsv(inboundFile), inboundFile, columnConfigurations, errorFolder)
      modifies u.log, u.env, u.fs
      ensures u.fs.Valid() && old(u.fs.dirs) <= u.fs.dirs
      ensures Appended(old(u.log.entries), u.log.entries, notes)
      ensures (failed <==> d.Failed?) && Effect(d, scriptFile, inboundFile, r, old(u.fs.files), u.fs.files, notes)
      ensures !d.Rejected? ==> u.fs.dirs == old(u.fs.dirs)
    {
      if !AdminIngestible(BaseName(inboundFile)) {
        return ResultSuccess, false, [];
      }
      var read := u.fs.ReadCsv(inboundFile);
      if read.Raised? {
        return BuildErrorMessage("ProcessInboundFile", scriptFile, 193, read.error, true, ""), true, [];
      }
      r, failed, notes := Ingest(stack, guid, parent, source, inboundFile, read.value, d);
    }

    /** `Dispatch` for a `.csv`/`.txt` file read as `frame`: unless it is empty its header is
        checked. */
    method Ingest(stack: string, guid: string, parent: string, source: string, inboundFile: string,
                  frame: Frame, ghost d: Disposition)
      returns (r: string, failed: bool, ghost notes: seq<Note>)
      requires u.fs.Valid() && AdminIngestible(BaseName(inboundFile))
      requires u.fs.ReadCsv(inboundFile) == Ok(frame)
      requires d == Dispose(Ok(frame), inboundFile, columnConfigurations, errorFolder)
      modifies u.log, u.env, u.fs
      ensures u.fs.Valid() && old(u.fs.dirs) <= u.fs.dirs
      ensures Appended(old(u.log.entries), u.log.entries, notes)
      ensures (failed <==> d.Failed?) && Effect(d, scriptFile, inboundFile, r, old(u.fs.files), u.fs.files, notes)
      ensures !d.Rejected? ==> u.fs.dirs == old(u.fs.dirs)
    {
      var name := BaseName(inboundFile);
      var read := Ok(frame);
      if IsEmpty(frame) {
        // The new name (`EmptyName(name)`) is computed but never used.
        return ResultSuccess, false, [];
      }
      DisposeChecked(read, inboundFile, columnConfigurations, errorFolder);
      var now := u.env.Now();
      r, failed, notes := CheckHeader(stack, guid, parent, source, inboundFile, name, now, read.value, d);
    }

    /** A `.csv`/`.txt` file read as a non-empty frame is disposed of by its header check. */
    static lemma DisposeChecked(read: Result<Frame>, path: string, cols: Sheet, errorFolder: string)
      requires read.Ok? && AdminIngestible(BaseName(path)) && !IsEmpty(read.value)
      ensures Dispose(read, path, cols, errorFolder) == Checked(read.value, BaseName(path), cols, errorFolder)
    {
    }

    /** The part of `ProcessInboundFile` for a file read as the non-empty `frame`: the four
        standard columns are set, the expected header is taken from the configuration, the
        header is checked, and a mismatching file is moved to the Error folder under its new
        name. `failed` reports an exception, whose message is then the result; `notes` are
        the entries appended. */
    method CheckHeader(stack: string, guid: string, parent: string, source: string, inboundFile: string,
                       name: string, now: string, frame: Frame, ghost d: Disposition)
      returns (r: string, failed: bool, ghost notes: seq<Note>)
      requires u.fs.Valid() && WellFormed(frame)
      requires d == Checked(frame, name, columnConfigurations, errorFolder)
      modifies u.log, u.env, u.fs
      ensures u.fs.Valid() && old(u.fs.dirs) <= u.fs.dirs
      ensures Appended(old(u.log.entries), u.log.entries, notes)
      ensures (failed <==> d.Failed?) && Effect(d, scriptFile, inboundFile, r, old(u.fs.files), u.fs.files, notes)
      ensures !d.Rejected? ==> u.fs.dirs == old(u.fs.dirs)
    {
      var header := Stamp(frame, guid, now, source, name);
      r, failed, notes := CheckAgainst(stack, parent, inboundFile, name, Names(header), ExpectedHeader(columnConfigurations), d);
    }

    /** The check of the stamped header `actual` once the expected header has been looked
        up: a lookup that raised ends the file, otherwise the header is validated. */
    method CheckAgainst(stack: string, parent: string, inboundFile: string, name: string,
                        actual: seq<Cell>, expected: Result<seq<Cell>>, ghost d: Disposition)
      returns (r: string, failed: bool, ghost notes: seq<Note>)
      requires u.fs.Valid()
      requires d == CheckedAgainst(expected, actual, name, errorFolder)
      modifies u.log, u.env, u.fs
      ensures u.fs.Valid() && old(u.fs.dirs) <= u.fs.dirs
      ensures Appended(old(u.log.entries), u.log.entries, notes)
      ensures (failed <==> d.Failed?) && Effect(d, scriptFile, inboundFile, r, old(u.fs.files), u.fs.files, notes)
      ensures !d.Rejected? ==> u.fs.dirs == old(u.fs.dirs)
    {
      if expected.Raised? {
        return BuildErrorMessage("ProcessInboundFile", scriptFile, 208, expected.error, true, ""), true, [];
      }
      failed := false;
      r, notes := Validate(stack, parent, inboundFile, name, actual, expected.value);
    }

    /** The four standard columns set on the file as read (`CurrentFile` is changed in
        place): the run's id, the time of ingestion `now`, the source and the file name.
        The header that results is returned. */
    method Stamp(frame: Frame, guid: string, now: string, source: string, name: string) returns (header: seq<string>)
      requires WellFormed(frame)
      ensures header == StampedHeader(frame.columns)
    {
      var current := new DataFrame(frame);
      current.SetColumn("ExecutionGUID", guid);
      current.SetColumn("IngestDatetime", now);
      current.SetColumn("Source", source);
      current.SetColumn("SourceFile", name);
      header := current.columns;
      assert header == WithName(WithName(WithName(WithName(frame.columns, "ExecutionGUID"), "IngestDatetime"), "Source"), "SourceFile");
    }

    /** The header check proper, for a file whose expected header was found: the result of
        `ValidateColumnHeader`, and on a mismatch the file moved to the Error folder, the
        move's result replacing it. */
    method Validate(stack: string, parent: string, inboundFile: string, name: string,
                    actual: seq<Cell>, expected: seq<Cell>)
      returns (r: string, ghost notes: seq<Note>)
      requires u.fs.Valid()
      modifies u.log, u.env, u.fs
      ensures u.fs.Valid() && old(u.fs.dirs) <= u.fs.dirs
      ensures Appended(old(u.log.entries), u.log.entries, notes)
      ensures Effect(Judged(actual, expected, name, errorFolder), scriptFile, inboundFile, r,
                     old(u.fs.files), u.fs.files, notes)
      ensures !Judged(actual, expected, name, errorFolder).Rejected? ==> u.fs.dirs == old(u.fs.dirs)
    {
      var issue;
      r, issue := u.ValidateColumnHeader(actual, stack, expected, parent);
      notes := JoinedNotes(actual, expected);
      if r != ResultSuccess {
        ghost var log1 := u.log.entries;
        r := u.MoveFile(stack, inboundFile, Join(errorFolder, InvalidHeaderName(name, issue)), parent);
        AppendedChain(old(u.log.entries), log1, u.log.entries, notes, [Outcome(r, None)]);
        notes := notes + [Outcome(r, None)];
      }
    }

    /** The result that ends a folder when a file's own processing failed. */
    function FileStop(): string {
      BuildErrorMessage("ProcessInboundFolder", scriptFile, 299, "Error in ProcessInboundFile", true, "")
    }

    /** The result that ends a folder when a file could not be moved to Silver. */
    function MoveStop(): string {
      BuildErrorMessage("ProcessInboundFolder", scriptFile, 304, "Error in MoveFile", true, "")
    }

    /** The disposition of the file at `path` in the state `s`. */
    static function DispositionAt(s: Moment, path: string): Disposition {
      Dispose(CsvAt(s.files, s.dirs, path), path, s.columnRows, s.errorFolder)
    }

    /** One turn of the file loop of `ProcessInboundFolder` took `s0` to `s1` on the entry
        `name` of `folder`, with result `r`: the file's disposition (from the file as read
        in `s0` and the source's configuration) decides whether it stops the folder and how
        the files change; a file that passes is moved to the source's Silver folder under its
        own name, and a rejected one first to its place in the Error folder. Only the files,
        the folders and the log change, and no entry is lost. Unless the file could not be
        read or configured, which logs nothing, the log goes on with the file's `TurnNotes`
        for the result `fr` of `ProcessInboundFile`, and then the move's entry when `fr` is
        "Success". */
    ghost predicate OneProcessed(folder: string, name: string, s0: Moment, s1: Moment, r: string, d: Disposition) {
      var path := Join(folder, name);
      s1 == s0.(files := s1.files, dirs := s1.dirs, log := s1.log)
      && s0.dirs <= s1.dirs && GrewBy(s0.log, s1.log, 0)
      && (r == ResultSuccess || r == FileStop() || r == MoveStop())
      && (d.Failed? ==> r == FileStop() && s1.files == s0.files && s1.log == s0.log)
      && (!d.Failed? ==>
            exists fr :: (fr != ResultSuccess ==> r == FileStop())
                         && (fr == ResultSuccess ==> r != FileStop() && |s0.log| + |TurnNotes(d, path, fr)| < |s1.log|)
                         && Continued(s0.log, s1.log, TurnNotes(d, path, fr)))
      && (d.Rejected? && Rejoined(path) != Rejoined(d.target) ==> r != ResultSuccess)
      && (d.Rejected? ==>
            (r == FileStop() && s1.files == s0.files)
            || (Rejoined(path) in s0.files
                && ((r == MoveStop() && s1.files == Moved(s0.files, Rejoined(path), Rejoined(d.target)))
                    || (r == ResultSuccess && Rejoined(path) == Rejoined(d.target)
                        && s1.files == Moved(Moved(s0.files, Rejoined(path), Rejoined(d.target)), Rejoined(path),
                                             Rejoined(Join(s0.silverFolder, name)))))))
      && (d.Skipped? || d.EmptyFile? || d.Accepted? ==>
            (r == ResultSuccess <==> MoveSucceeds(s0.files, s0.dirs, path, Join(s0.silverFolder, name)))
            && (r == ResultSuccess ==>
               Rejoined(path) in s0.files
               && s1.files == Moved(s0.files, Rejoined(path), Rejoined(Join(s0.silverFolder, name))))
            && (r != ResultSuccess ==> r == MoveStop() && s1.files == s0.files))
    }

    /** Each step `k` of `trace` is a turn of the file loop on `names[k]` with result
        `results[k]`, for the file whose disposition in `trace[k]` is `ds[k]`. */
    ghost predicate Turns(folder: string, names: seq<string>, trace: seq<Moment>, results: seq<string>,
                          ds: seq<Disposition>) {
      |trace| == |results| + 1 && |ds| == |results| && |results| <= |names|
      && (forall k {:trigger OneProcessed(folder, names[k], trace[k], trace[k + 1], results[k], ds[k])} ::
            0 <= k < |results| ==> OneProcessed(folder, names[k], trace[k], trace[k + 1], results[k], ds[k]))
      && (forall k {:trigger DispositionAt(trace[k], Join(folder, names[k]))} ::
            0 <= k < |results| ==> ds[k] == DispositionAt(trace[k], Join(folder, names[k])))
    }

    /** One more turn extends the turns taken. */
    lemma TurnTaken(folder: string, names: seq<string>, trace: seq<Moment>, results: seq<string>,
                    ds: seq<Disposition>, s: Moment, r: string, d: Disposition)
      requires Turns(folder, names, trace, results, ds) && |results| < |names|
      requires OneProcessed(folder, names[|results|], trace[|results|], s, r, d)
      requires d == DispositionAt(trace[|results|], Join(folder, names[|results|]))
      ensures Turns(folder, names, trace + [s], results + [r], ds + [d])
    {
      var t, rs, ds' := trace + [s], results + [r], ds + [d];
      forall k | 0 <= k < |rs|
        ensures OneProcessed(folder, names[k], t[k], t[k + 1], rs[k], ds'[k])
        ensures ds'[k] == DispositionAt(t[k], Join(folder, names[k]))
      {
        TurnKept(folder, names, trace, results, ds, s, r, d, k);
      }
    }

    /** Each turn of the extended trace is a turn taken. */
    lemma TurnKept(folder: string, names: seq<string>, trace: seq<Moment>, results: seq<string>,
                   ds: seq<Disposition>, s: Moment, r: string, d: Disposition, k: nat)
      requires Turns(folder, names, trace, results, ds) && |results| < |names| && k <= |results|
      requires OneProcessed(folder, names[|results|], trace[|results|], s, r, d)
      requires d == DispositionAt(trace[|results|], Join(folder, names[|results|]))
      ensures OneProcessed(folder, names[k], (trace + [s])[k], (trace + [s])[k + 1], (results + [r])[k], (ds + [d])[k])
      ensures (ds + [d])[k] == DispositionAt((trace + [s])[k], Join(folder, names[k]))
    {
      var t, rs, ds' := trace + [s], results + [r], ds + [d];
      if k < |results| {
        TurnRestated(folder, names[k], trace[k], trace[k + 1], results[k], ds[k], names[k], t[k], t[k + 1], rs[k], ds'[k]);
        assert ds[k] == DispositionAt(trace[k], Join(folder, names[k]));
      } else {
        TurnRestated(folder, names[|results|], trace[|results|], s, r, d, names[k], t[k], t[k + 1], rs[k], ds'[k]);
      }
    }

    /** The same turn, with its arguments written differently. */
    lemma TurnRestated(folder: string, name: string, s0: Moment, s1: Moment, r: string, d: Disposition,
                       name': string, s0': Moment, s1': Moment, r': string, d': Disposition)
      requires OneProcessed(folder, name, s0, s1, r, d)
      requires name == name' && s0 == s0' && s1 == s1' && r == r' && d == d'
      ensures OneProcessed(folder, name', s0', s1', r', d')
    {
    }

    /** The file loop of `ProcessInboundFolder` on `folder`: `names` are its entries in the
        state `trace[0]`, each once, and `trace[k + 1]` follows `trace[k]` by one turn on `names[k]`
        with result `results[k]`. Each turn but the last attempted succeeded; the loop ends
        at the first result other than "Success", which is then its result `r`, or after
        the last entry with "Success". */
    ghost predicate FilesWalked(folder: string, names: seq<string>, trace: seq<Moment>, results: seq<string>,
                                ds: seq<Disposition>, r: string)
    {
      Turns(folder, names, trace, results, ds)
      && (forall n :: n in names <==> n in ListingOf(trace[0].files, trace[0].dirs, DirKey(folder)))
      && (forall i, j :: 0 <= i < j < |names| ==> names[i] != names[j])
      && (forall k :: 0 <= k < |results| - 1 ==> results[k] == ResultSuccess)
      && (r == ResultSuccess <==> |results| == |names| && forall k :: 0 <= k < |results| ==> results[k] == ResultSuccess)
      && (r != ResultSuccess ==> results != [] && r == results[|results| - 1])
    }

    /** One turn of the file loop of `ProcessInboundFolder` on the entry `name`: the file is
        processed, then moved to the source's Silver folder under its own name; a result
        other than "Success" from either step stops the folder. A file with a mismatching
        header has been moved to the Error folder already, so its move to Silver fails. */
    method ProcessOne(stack: string, folder: string, name: string, guid: string, parent: string, source: string)
      returns (r: string, stop: bool, ghost d: Disposition)
      requires u.fs.Valid()
      modifies u.log, u.env, u.fs
      ensures u.fs.Valid()
      ensures stop <==> r != ResultSuccess
      ensures d == DispositionAt(old(State()), Join(folder, name))
      ensures OneProcessed(folder, name, old(State()), State(), r, d)
    {
      ghost var s0 := State();
      var path := Join(folder, name);
      d := Dispose(u.fs.ReadCsv(path), path, columnConfigurations, errorFolder);
      var result, notes := ProcessInboundFile(stack, path, guid, source);
      ghost var s1 := State();
      if result != ResultSuccess {
        r, stop := FileStop(), true;
      } else {
        r := Promote(stack, path, name, parent);
        stop := r != ResultSuccess;
      }
      FileTurned(folder, name, s0, s1, State(), result, r, d, notes);
    }

    /** A file whose processing (from `s0` to `s1`, with result `result` and `notes`) carried
        out its disposition `d`, followed on success by its move to Silver (to `s2`), was
        processed as `OneProcessed` says. */
    lemma FileTurned(folder: string, name: string, s0: Moment, s1: Moment, s2: Moment, result: string, r: string,
                     d: Disposition, notes: seq<Note>)
      requires s1 == s0.(files := s1.files, dirs := s1.dirs, log := s1.log) && s0.dirs <= s1.dirs
      requires !d.Rejected? ==> s1.dirs == s0.dirs
      requires Effect(d, scriptFile, Join(folder, name), result, s0.files, s1.files, notes)
      requires d.Failed? ==> s1.log == s0.log
      requires !d.Failed? ==> Appended(s0.log, s1.log, notes + [FileDone(result, Join(folder, name))])
      requires result != ResultSuccess ==> r == FileStop() && s2 == s1
      requires result == ResultSuccess ==>
        s2 == s1.(files := s2.files, dirs := s2.dirs, log := s2.log) && s1.dirs <= s2.dirs
        && GrewBy(s1.log, s2.log, 1) && (r == ResultSuccess || r == MoveStop())
        && (r == ResultSuccess <==> MoveSucceeds(s1.files, s1.dirs, Join(folder, name), Join(s1.silverFolder, name)))
        && (r == ResultSuccess ==>
              Rejoined(Join(folder, name)) in s1.files
              && s2.files == Moved(s1.files, Rejoined(Join(folder, name)), Rejoined(Join(s1.silverFolder, name))))
        && (r != ResultSuccess ==> s2.files == s1.files)
      ensures OneProcessed(folder, name, s0, s2, r, d)
    {
      var path := Join(folder, name);
      if !d.Failed? {
        AppendedGrows(s0.log, s1.log, notes + [FileDone(result, path)]);
        assert notes + [FileDone(result, path)] == TurnNotes(d, path, result);
        TurnLogged(path, s0.log, s1.log, s2.log, result, r, d);
      }
      if result == ResultSuccess {
        GrewChain(s0.log, s1.log, s2.log, 0, 1);
      }
      if d.Rejected? {
        RejectedTurned(path, s0.silverFolder, name, s0.files, s1.files, s2.files, result, r, d, notes);
      }
    }

    /** The log of a turn that read and configured its file: `ProcessInboundFile` appended
        the file's `TurnNotes`, and on success the move appended at least one more entry. */
    lemma TurnLogged(path: string, l0: seq<LogEntry>, l1: seq<LogEntry>, l2: seq<LogEntry>, result: string, r: string,
                     d: Disposition)
      requires Appended(l0, l1, TurnNotes(d, path, result))
      requires result != ResultSuccess ==> r == FileStop() && l2 == l1
      requires result == ResultSuccess ==> GrewBy(l1, l2, 1) && (r == ResultSuccess || r == MoveStop())
      ensures exists fr :: (fr != ResultSuccess ==> r == FileStop())
                           && (fr == ResultSuccess ==> r != FileStop() && |l0| + |TurnNotes(d, path, fr)| < |l2|)
                           && Continued(l0, l2, TurnNotes(d, path, fr))
    {
      if result == ResultSuccess {
        AppendedContinued(l0, l1, l2, TurnNotes(d, path, result));
      } else {
        AppendedContinued(l0, l1, l1, TurnNotes(d, path, result));
      }
    }

    /** The files of a turn on a rejected file: unless `ProcessInboundFile` failed, the file
        went to its place in the Error folder, and only a file already there can then be
        moved on to Silver. */
    lemma RejectedTurned(path: string, silver: string, name: string, f0: map<string, Content>,
                         f1: map<string, Content>, f2: map<string, Content>, result: string, r: string,
                         d: Disposition, notes: seq<Note>)
      requires d.Rejected? && Effect(d, scriptFile, path, result, f0, f1, notes)
      requires result != ResultSuccess ==> r == FileStop() && f2 == f1
      requires result == ResultSuccess ==>
        (r == ResultSuccess || r == MoveStop())
        && (r == ResultSuccess ==>
              Rejoined(path) in f1 && f2 == Moved(f1, Rejoined(path), Rejoined(Join(silver, name))))
        && (r != ResultSuccess ==> f2 == f1)
      ensures Rejoined(path) != Rejoined(d.target) ==> r != ResultSuccess
      ensures (r == FileStop() && f2 == f0)
              || (Rejoined(path) in f0
                  && ((r == MoveStop() && f2 == Moved(f0, Rejoined(path), Rejoined(d.target)))
                      || (r == ResultSuccess && Rejoined(path) == Rejoined(d.target)
                          && f2 == Moved(Moved(f0, Rejoined(path), Rejoined(d.target)), Rejoined(path),
                                         Rejoined(Join(silver, name))))))
    {
      if result == ResultSuccess && Rejoined(path) != Rejoined(d.target) {
        assert Rejoined(path) !in f1;
      }
    }

    /** The move of a processed file to the source's Silver folder, under its own name. */
    method Promote(stack: string, path: string, name: string, parent: string) returns (r: string)
      requires u.fs.Valid()
      modifies u.log, u.env, u.fs
      ensures u.fs.Valid() && old(u.fs.dirs) <= u.fs.dirs
      ensures GrewBy(old(u.log.entries), u.log.entries, 1)
      ensures r == ResultSuccess || r == MoveStop()
      ensures r == ResultSuccess ==>
        Rejoined(path) in old(u.fs.files)
        && u.fs.files == Moved(old(u.fs.files), Rejoined(path), Rejoined(Join(silverFolder, name)))
      ensures r != ResultSuccess ==> u.fs.files == old(u.fs.files)
      ensures r == ResultSuccess <==> MoveSucceeds(old(u.fs.files), old(u.fs.dirs), path, Join(silverFolder, name))
    {
      r := u.MoveFile(stack, path, Join(silverFolder, name), parent);
      AppendedGrows(old(u.log.entries), u.log.entries, [Outcome(r, None)]);
      if r != ResultSuccess {
        r := MoveStop();
      }
    }

    /** The file loop of `ProcessInboundFolder` over the entries of `folder`, in the order
        listed: it stops at the first entry whose processing or move does not succeed. */
    method ProcessFiles(stack: string, folder: string, guid: string, parent: string, source: string)
      returns (r: string, ghost names: seq<string>, ghost trace: seq<Moment>, ghost results: seq<string>,
               ghost ds: seq<Disposition>)
      requires u.fs.Valid() && u.fs.IsDir(folder)
      modifies u.log, u.env, u.fs
      ensures u.fs.Valid() && old(u.fs.dirs) <= u.fs.dirs
      ensures GrewBy(old(u.log.entries), u.log.entries, 0)
      ensures r == ResultSuccess || r == FileStop() || r == MoveStop()
      ensures FilesWalked(folder, names, trace, results, ds, r)
      ensures trace[0] == old(State()) && trace[|results|] == State()
    {
      var listing := u.fs.ListDir(folder);
      names := listing.value;
      r, trace, results, ds := ProcessEntries(stack, folder, listing.value, guid, parent, source);
    }

    /** The file loop of `ProcessInboundFolder` over the listed `entries` of `folder`, in
        order: it stops at the first entry whose processing or move does not succeed, and
        yields that result, or "Success" after the last entry. */
    method ProcessEntries(stack: string, folder: string, entries: seq<string>, guid: string, parent: string,
                          source: string)
      returns (r: string, ghost trace: seq<Moment>, ghost results: seq<string>, ghost ds: seq<Disposition>)
      requires u.fs.Valid()
      modifies u.log, u.env, u.fs
      ensures u.fs.Valid() && old(u.fs.dirs) <= u.fs.dirs
      ensures GrewBy(old(u.log.entries), u.log.entries, 0)
      ensures r == ResultSuccess || r == FileStop() || r == MoveStop()
      ensures Turns(folder, entries, trace, results, ds)
      ensures forall k :: 0 <= k < |results| - 1 ==> results[k] == ResultSuccess
      ensures r == ResultSuccess <==> |results| == |entries| && forall k :: 0 <= k < |results| ==> results[k] == ResultSuccess
      ensures r != ResultSuccess ==> results != [] && r == results[|results| - 1]
      ensures trace[0] == old(State()) && trace[|results|] == State()
    {
      r := ResultSuccess;
      trace, results, ds := [State()], [], [];
      var i := 0;
      while i < |entries|
        invariant 0 <= i <= |entries| && |results| == i && |trace| == i + 1
        invariant u.fs.Valid() && old(u.fs.dirs) <= u.fs.dirs
        invariant GrewBy(old(u.log.entries), u.log.entries, 0)
        invariant trace[0] == old(State()) && trace[i] == State()
        invariant Turns(folder, entries, trace, results, ds)
        invariant forall k :: 0 <= k < i ==> results[k] == ResultSuccess
        invariant r == ResultSuccess
      {
        ghost var log1 := u.log.entries;
        var stop;
        r, stop, trace, results, ds := TakeTurn(stack, folder, entries, i, guid, parent, source, trace, results, ds);
        GrewChain(old(u.log.entries), log1, u.log.entries, 0, 0);
        if stop {
          assert results[i] != ResultSuccess;
          return;
        }
        i := i + 1;
      }
    }

    /** One turn of the file loop on the next entry of `entries`, extending the turns taken. */
    method TakeTurn(stack: string, folder: string, entries: seq<string>, i: nat, guid: string, parent: string,
                    source: string, ghost trace: seq<Moment>, ghost results: seq<string>, ghost ds: seq<Disposition>)
      returns (r: string, stop: bool, ghost trace': seq<Moment>, ghost results': seq<string>,
               ghost ds': seq<Disposition>)
      requires u.fs.Valid() && Turns(folder, entries, trace, results, ds)
      requires i == |results| < |entries| && trace[i] == State()
      modifies u.log, u.env, u.fs
      ensures u.fs.Valid() && old(u.fs.dirs) <= u.fs.dirs
      ensures GrewBy(old(u.log.entries), u.log.entries, 0)
      ensures stop <==> r != ResultSuccess
      ensures r == ResultSuccess || r == FileStop() || r == MoveStop()
      ensures trace' == trace + [State()] && results' == results + [r] && |ds'| == |ds| + 1
      ensures Turns(folder, entries, trace', results', ds')
    {
      ghost var d;
      r, stop, d := ProcessOne(stack, folder, entries[i], guid, parent, source);
      TurnTaken(folder, entries, trace, results, ds, State(), r, d);
      trace', results', ds' := trace + [State()], results + [r], ds + [d];
    }

    /** Lines 275-288: the source's file-level rows, then the id and delimiter of the first
        of them, then the column-level rows of that id, each kept in its global as it is
        found. */
    method Configure(fileAll: Sheet, columnAll: Sheet, source: string) returns (res: Resolution)
      modifies this
      ensures res == Resolve(fileAll, columnAll, source)
      ensures errorFolder == old(errorFolder) && silverFolder == old(silverFolder)
      ensures inboundFileFound == old(inboundFileFound)
      ensures res.NoFileConfig? || res.NoColumnConfig? || res.Resolved? ==>
        fileConfigurations == SelectBySource(fileAll, source).value
      ensures res.NoColumnConfig? || res.Resolved? ==>
        configurationFileId == res.id && expectedDelimiter == res.delimiter && columnConfigurations == res.columnRows
      ensures !(res.NoColumnConfig? || res.Resolved?) ==> columnConfigurations == old(columnConfigurations)
    {
      var fc, cid, dl, cc := fileConfigurations, configurationFileId, expectedDelimiter, columnConfigurations;
      var fileRows := SelectBySource(fileAll, source);
      if fileRows.Raised? {
        res := Unresolved(275, fileRows.error);
      } else if |fileRows.value.rows| == 0 {
        fc, res := fileRows.value, NoFileConfig;
      } else {
        fc := fileRows.value;
        var id := Pick(fc, "ConfigurationFileID");
        if id.Raised? {
          res := Unresolved(282, id.error);
        } else {
          cid := id.value;
          var delimiter := Pick(fc, "Delimiter");
          if delimiter.Raised? {
            res := Unresolved(285, delimiter.error);
          } else {
            dl := delimiter.value;
            var columnRows := SelectById(columnAll, cid);
            if columnRows.Raised? {
              res := Unresolved(288, columnRows.error);
            } else {
              cc := columnRows.value;
              res := if |cc.rows| == 0 then NoColumnConfig(cid, dl, cc) else Resolved(cid, dl, cc);
            }
          }
        }
      }
      fileConfigurations, configurationFileId, expectedDelimiter, columnConfigurations := fc, cid, dl, cc;
    }

    /** Lines 271-272: the source's Error and Silver folders, created where missing. A
        folder that cannot be created leaves the path unassigned, which raises at the line
        of that call (`line`). */
    method Locate(stack: string, parent: string, source: string) returns (located: bool, line: nat)
      requires u.fs.Valid()
      modifies this, u.log, u.env, u.fs
      ensures u.fs.Valid() && u.fs.files == old(u.fs.files) && old(u.fs.dirs) <= u.fs.dirs
      ensures GrewBy(old(u.log.entries), u.log.entries, 0)
      ensures located ==>
        errorFolder == Join(u.folders.bronzeError, source) && silverFolder == Join(u.folders.silverInbound, source)
      ensures !located ==> line == 271 || line == 272
      ensures fileConfigurations == old(fileConfigurations) && columnConfigurations == old(columnConfigurations)
      ensures configurationFileId == old(configurationFileId) && expectedDelimiter == old(expectedDelimiter)
      ensures inboundFileFound == old(inboundFileFound)
    {
      var r, path := u.BuildFolderPath(stack, u.folders.bronzeError, source, parent);
      if path.Raised? {
        return false, 271;
      }
      errorFolder := path.value;
      ghost var log1 := u.log.entries;
      r, path := u.BuildFolderPath(stack, u.folders.silverInbound, source, parent);
      GrewChain(old(u.log.entries), log1, u.log.entries, 0, 0);
      if path.Raised? {
        return false, 272;
      }
      silverFolder := path.value;
      located, line := true, 0;
    }

    /** The part of `ProcessInboundFolder` for a folder with entries: the source's folders,
        its configuration, and then its files. `failed` reports an exception, whose message
        is then the result; `located` reports that both folders were found or made. */
    method ProcessSource(stack: string, folder: string, guid: string, parent: string, source: string,
                         begin: string, parameters: string)
      returns (r: string, failed: bool, ghost located: bool, ghost res: Resolution, ghost names: seq<string>,
               ghost trace: seq<Moment>, ghost results: seq<string>, ghost ds: seq<Disposition>)
      requires u.fs.Valid() && u.fs.IsDir(folder)
      modifies this, u.log, u.env, u.fs
      ensures u.fs.Valid() && old(u.fs.dirs) <= u.fs.dirs
      ensures inboundFileFound == old(inboundFileFound)
      ensures Sourced(Context(), folder, source, r, failed, located, res, names, trace, results, ds, old(State()), State())
    {
      names, trace, results, ds := [], [State()], [], [];
      var found, line := Locate(stack, parent, source);
      located := found;
      if !found {
        return BuildErrorMessage("ProcessInboundFolder", scriptFile, line, UnboundLocal("FullPath"), true, ""), true, false, NoFileConfig, names, trace, results, ds;
      }
      r, failed, res, names, trace, results, ds := Proceed(stack, folder, guid, parent, source, begin, parameters, old(State()));
    }

    /** The part of `ProcessSource` once the source's folders are known: the source's
        configuration is resolved into the script's state, then settled. */
    method Proceed(stack: string, folder: string, guid: string, parent: string, source: string,
                   begin: string, parameters: string, ghost s0: Moment)
      returns (r: string, failed: bool, ghost res: Resolution, ghost names: seq<string>,
               ghost trace: seq<Moment>, ghost results: seq<string>, ghost ds: seq<Disposition>)
      requires u.fs.Valid() && u.fs.IsDir(folder)
      requires s0.files == u.fs.files && s0.dirs <= u.fs.dirs && GrewBy(s0.log, u.log.entries, 0)
      requires errorFolder == Join(u.folders.bronzeError, source) && silverFolder == Join(u.folders.silverInbound, source)
      modifies this, u.log, u.env, u.fs
      ensures u.fs.Valid() && old(u.fs.dirs) <= u.fs.dirs
      ensures inboundFileFound == old(inboundFileFound)
      ensures res.NoFileConfig? || res.NoColumnConfig? ==>
        EndsWithNote(old(u.log.entries), u.log.entries, ErrorNote(r))
      ensures Sourced(Context(), folder, source, r, failed, true, res, names, trace, results, ds, s0, State())
    {
      var resolution := Configure(u.configurationsFileAll, u.configurationsColumnAll, source);
      res := resolution;
      r, failed, names, trace, results, ds := Settle(stack, folder, guid, parent, source, begin, parameters, resolution, s0);
    }

    /** The part of `ProcessSource` once the source's folders are known: its configuration
        is resolved, a missing one is logged as an Error, and a resolved one has its files
        processed. */
    method Settle(stack: string, folder: string, guid: string, parent: string, source: string,
                  begin: string, parameters: string, res: Resolution, ghost s0: Moment)
      returns (r: string, failed: bool, ghost names: seq<string>, ghost trace: seq<Moment>,
               ghost results: seq<string>, ghost ds: seq<Disposition>)
      requires u.fs.Valid() && u.fs.IsDir(folder)
      requires s0.files == u.fs.files && s0.dirs <= u.fs.dirs && GrewBy(s0.log, u.log.entries, 0)
      requires res.Resolved? ==> columnConfigurations == res.columnRows
      modifies u.log, u.env, u.fs
      ensures u.fs.Valid() && old(u.fs.dirs) <= u.fs.dirs
      ensures res.NoFileConfig? || res.NoColumnConfig? ==>
        EndsWithNote(old(u.log.entries), u.log.entries, ErrorNote(r))
      ensures Settled(Context(), folder, source, r, failed, res, names, trace, results, ds, s0, State())
    {
      names, trace, results, ds := [], [State()], [], [];
      match res
      case Unresolved(at, e) =>
        r, failed := BuildErrorMessage("ProcessInboundFolder", scriptFile, at, e, true, ""), true;
        MissingSettled(folder, source, r, failed, res, names, trace, results, ds, s0, old(u.log.entries), State());
      case NoFileConfig =>
        r, failed := NoFileConfigMessage(source, u.folders.configurationsFile), false;
        LogStep(begin, stack, guid, parameters, Step(Some(parent), SeverityError, r, None));
        EndsWithLast(old(u.log.entries), old(u.log.entries), u.log.entries, 0, ErrorNote(r));
        MissingSettled(folder, source, r, failed, res, names, trace, results, ds, s0, old(u.log.entries), State());
      case NoColumnConfig(id, _, _) =>
        r, failed := NoColumnConfigMessage(id, u.folders.configurationsColumn), false;
        LogStep(begin, stack, guid, parameters, Step(Some(parent), SeverityError, r, None));
        EndsWithLast(old(u.log.entries), old(u.log.entries), u.log.entries, 0, ErrorNote(r));
        MissingSettled(folder, source, r, failed, res, names, trace, results, ds, s0, old(u.log.entries), State());
      case Resolved(_, _, _) =>
        r, names, trace, results, ds := ProcessFiles(stack, folder, guid, parent, source);
        failed := r != ResultSuccess;
        ResolvedSettled(folder, source, r, failed, res, names, trace, results, ds, s0, State());
    }

    /** A configuration that is not resolved was `Settled`: the files stay, and the
        result is the exception's message or the missing configuration's. */
    lemma MissingSettled(folder: string, source: string, r: string, failed: bool, res: Resolution,
                         names: seq<string>, trace: seq<Moment>, results: seq<string>, ds: seq<Disposition>,
                         s0: Moment, mid: seq<LogEntry>, s1: Moment)
      requires !res.Resolved?
      requires s0.dirs <= s1.dirs && s1.files == s0.files && GrewBy(s0.log, mid, 0) && GrewBy(mid, s1.log, 0)
      requires res.Unresolved? ==> failed && r == BuildErrorMessage("ProcessInboundFolder", scriptFile, res.line, res.error, true, "")
      requires !res.Unresolved? ==>
        !failed && r == (if res.NoFileConfig? then NoFileConfigMessage(source, u.folders.configurationsFile)
                         else NoColumnConfigMessage(res.id, u.folders.configurationsColumn))
      ensures Settled(Context(), folder, source, r, failed, res, names, trace, results, ds, s0, s1)
    {
      GrewChain(s0.log, mid, s1.log, 0, 0);
    }

    /** A resolved configuration was `Settled` once the folder's files were walked from the
        state `trace[0]`, which differs from `s0` only in the log, grown. */
    lemma ResolvedSettled(folder: string, source: string, r: string, failed: bool, res: Resolution,
                          names: seq<string>, trace: seq<Moment>, results: seq<string>, ds: seq<Disposition>,
                          s0: Moment, s1: Moment)
      requires res.Resolved?
      requires (failed <==> r != ResultSuccess) && (r == ResultSuccess || r == FileStop() || r == MoveStop())
      requires FilesWalked(folder, names, trace, results, ds, r)
      requires trace[0].columnRows == res.columnRows
      requires trace[0].files == s0.files && s0.dirs <= trace[0].dirs && GrewBy(s0.log, trace[0].log, 0)
      requires trace[|results|] == s1 && trace[0].dirs <= s1.dirs && GrewBy(trace[0].log, s1.log, 0)
      requires trace[0].found == s1.found && trace[0].errorFolder == s1.errorFolder
      requires trace[0].silverFolder == s1.silverFolder && trace[0].columnRows == s1.columnRows
      ensures Settled(Context(), folder, source, r, failed, res, names, trace, results, ds, s0, s1)
    {
      GrewChain(s0.log, trace[0].log, s1.log, 0, 0);
    }

    /** `ProcessInboundFolder` on `folder` of `source` took `s0` to `s1` with result `r`. A
        path that is not a folder raises at line 260: the error message is the result and
        nothing is logged. An empty folder is reported as such in an Info entry. A folder
        with entries sets the found flag and is `Entered` as `e` records. No entry is lost and
        no folder removed. */
    ghost predicate FolderProcessed(c: Ctx, folder: string, source: string, s0: Moment, s1: Moment, r: string, e: Entry)
    {
      var isDir := folder in s0.dirs || DirKey(folder) in s0.dirs;
      var listing := ListingOf(s0.files, s0.dirs, DirKey(folder));
      s0.dirs <= s1.dirs && GrewBy(s0.log, s1.log, 0)
      && (s1.found <==> isDir && listing != {})
      && (!isDir ==>
            s1.files == s0.files && s1.log == s0.log
            && r == BuildErrorMessage("ProcessInboundFolder", scriptFile, 260, NotAFolder(s0.files, folder), true, ""))
      && (isDir && listing == {} ==>
            s1.files == s0.files && r == NoFilesMessage(folder) && EndsWithNote(s0.log, s1.log, InfoNote(r)))
      && (s1.found ==>
            Entered(c, folder, source, r, e.located, e.res, e.names, e.trace, e.results, e.ds, s0, s1))
    }

    /** `ProcessInboundFolder` on the Inbound sub-folder `folder` of `source`. A path that is
        not a folder raises at line 260: the error message is the result and nothing is
        logged. An empty folder is reported as such in an Info entry. Otherwise the source's
        folders and configuration are found and its files processed; `inboundFileFound`
        records that the folder had entries. Every outcome but an exception ends with an
        Info entry carrying the result. */
    method ProcessInboundFolder(callStack: string, folder: string, parent: string, source: string)
      returns (r: string, ghost e: Entry)
      requires u.fs.Valid()
      modifies this, u.log, u.env, u.fs
      ensures u.fs.Valid()
      ensures FolderProcessed(Context(), folder, source, old(State()), State(), r, e)
    {
      var begin := u.env.Now();
      var stack := callStack + " > ProcessInboundFolder";
      var guid := u.env.NewGuid();
      ghost var s0 := old(State());
      inboundFileFound := false;
      var parameters := DictText([("FullPath_Bronze_Inbound_CurrentSource", Repr(folder)),
                                  ("ParentExecutionGUID", Repr(parent)), ("Source", Repr(source))]);
      var listing := u.fs.ListDir(folder);
      if listing.Raised? {
        r := BuildErrorMessage("ProcessInboundFolder", scriptFile, 260, listing.error, true, "");
        e := Entry(false, NoFileConfig, [], [], [], []);
        NotAFolderProcessed(folder, source, s0, State(), r, e);
      } else if listing.value == [] {
        assert u.fs.Listing(DirKey(folder)) == {};
        r := NoFilesMessage(folder);
        Report(begin, stack, guid, parameters, parent, r);
        e := Entry(false, NoFileConfig, [], [], [], []);
        EmptyFolderProcessed(folder, source, s0, State(), r, e);
      } else {
        assert listing.value[0] in u.fs.Listing(DirKey(folder));
        inboundFileFound := true;
        r, e := EnterFound(stack, folder, guid, parent, source, begin, parameters, s0);
      }
    }

    /** The branch of `ProcessInboundFolder` for a folder with entries, from the state `s0`
        it was called in: the found flag is set and the source is entered. */
    method EnterFound(stack: string, folder: string, guid: string, parent: string, source: string,
                      begin: string, parameters: string, ghost s0: Moment)
      returns (r: string, ghost e: Entry)
      requires u.fs.Valid() && u.fs.IsDir(folder)
      requires ListingOf(s0.files, s0.dirs, DirKey(folder)) != {} && State() == s0.(found := true)
      modifies this, u.log, u.env, u.fs
      ensures u.fs.Valid()
      ensures FolderProcessed(Context(), folder, source, s0, State(), r, e)
    {
      ghost var s1 := State();
      ghost var located, res, names, trace, results, ds;
      r, located, res, names, trace, results, ds := EnterSource(stack, folder, guid, parent, source, begin, parameters);
      e := Entry(located, res, names, trace, results, ds);
      FoundFolderProcessed(folder, source, r, e, s0, s1, State());
    }

    /** A path that is not a folder is processed as line 260 raises, changing nothing. */
    lemma NotAFolderProcessed(folder: string, source: string, s0: Moment, s1: Moment, r: string, e: Entry)
      requires !(folder in s0.dirs || DirKey(folder) in s0.dirs) && s1 == s0.(found := false)
      requires r == BuildErrorMessage("ProcessInboundFolder", scriptFile, 260, NotAFolder(s0.files, folder), true, "")
      ensures FolderProcessed(Context(), folder, source, s0, s1, r, e)
    {
    }

    /** An empty folder is processed as reported, changing nothing but the log. */
    lemma EmptyFolderProcessed(folder: string, source: string, s0: Moment, s1: Moment, r: string, e: Entry)
      requires folder in s0.dirs || DirKey(folder) in s0.dirs
      requires ListingOf(s0.files, s0.dirs, DirKey(folder)) == {}
      requires s1 == s0.(found := false, log := s1.log)
      requires r == NoFilesMessage(folder) && EndsWithNote(s0.log, s1.log, InfoNote(r))
      ensures FolderProcessed(Context(), folder, source, s0, s1, r, e)
    {
    }

    /** A folder with entries is processed as `Entered` says, from the state `s1` that
        differs from `s0` only in its found flag, which is set. */
    lemma FoundFolderProcessed(folder: string, source: string, r: string, e: Entry, s0: Moment, s1: Moment, s2: Moment)
      requires folder in s0.dirs || DirKey(folder) in s0.dirs
      requires ListingOf(s0.files, s0.dirs, DirKey(folder)) != {}
      requires s1 == s0.(found := true) && s2.found && s1.dirs <= s2.dirs
      requires Entered(Context(), folder, source, r, e.located, e.res, e.names, e.trace, e.results, e.ds, s1, s2)
      ensures FolderProcessed(Context(), folder, source, s0, s2, r, e)
    {
      EnteredFrom(folder, source, r, e.located, e.res, e.names, e.trace, e.results, e.ds, s1, s0, s2);
    }

    /** `Entered` reads only the files and the log of the state it starts from. */
    lemma EnteredFrom(folder: string, source: string, r: string, located: bool, res: Resolution,
                      names: seq<string>, trace: seq<Moment>, results: seq<string>, ds: seq<Disposition>, s0: Moment, s0': Moment, s1: Moment)
      requires Entered(Context(), folder, source, r, located, res, names, trace, results, ds, s0, s1)
      requires s0'.files == s0.files && s0'.log == s0.log
      ensures Entered(Context(), folder, source, r, located, res, names, trace, results, ds, s0', s1)
    {
    }

    /** The closing Info entry of `ProcessInboundFolder`, carrying the result `r`. */
    method Report(begin: string, stack: string, guid: string, parameters: string, parent: string, r: string)
      modifies u.log, u.env
      ensures Appended(old(u.log.entries), u.log.entries, [InfoNote(r)])
      ensures EndsWithNote(old(u.log.entries), u.log.entries, InfoNote(r))
    {
      LogStep(begin, stack, guid, parameters, Step(Some(parent), SeverityInfo, r, None));
      EndsWithLast(old(u.log.entries), old(u.log.entries), u.log.entries, 0, InfoNote(r));
    }

    /** The error `os.listdir` raises on a path that is not a folder. */
    static function NotAFolder(files: map<string, Content>, p: string): (e: string)
      ensures e != ResultSuccess
    {
      if p in files then WinError("267", InvalidDirectoryText, p) else WinError("3", PathNotFoundText, p)
    }

    /** What `ProcessInboundFolder` does with its folder `folder` of `source` when it has
        entries, taking `s0` to `s1`, from the source's folders (`located`) and its
        configuration (`res`): an exception leaves the files alone and yields its message; a
        missing configuration is reported; a resolved one has the folder's files walked as
        `FilesWalked` says, from the files of `s0` with the source's folders and column
        configuration in place to the files of `s1`. Apart from an exception, the log ends
        with an Info entry carrying the result. */
    ghost predicate Entered(c: Ctx, folder: string, source: string, r: string, located: bool, res: Resolution,
                            names: seq<string>, trace: seq<Moment>, results: seq<string>, ds: seq<Disposition>, s0: Moment, s1: Moment)
    {
      && GrewBy(s0.log, s1.log, 0)
      && (!located ==>
            s1.files == s0.files
            && (r == BuildErrorMessage("ProcessInboundFolder", scriptFile, 271, UnboundLocal("FullPath"), true, "")
                || r == BuildErrorMessage("ProcessInboundFolder", scriptFile, 272, UnboundLocal("FullPath"), true, "")))
      && (located ==>
            res == Resolve(c.configurationsFileAll, c.configurationsColumnAll, source)
            && s1.errorFolder == Join(c.bronzeError, source)
            && s1.silverFolder == Join(c.silverInbound, source))
      && (located && res.Unresolved? ==>
            s1.files == s0.files && r == BuildErrorMessage("ProcessInboundFolder", scriptFile, res.line, res.error, true, ""))
      && (located && (res.NoFileConfig? || res.NoColumnConfig?) ==>
            s1.files == s0.files && EndsWithNote(s0.log, s1.log, InfoNote(r))
            && r == (if res.NoFileConfig? then NoFileConfigMessage(source, c.configurationsFile)
                     else NoColumnConfigMessage(res.id, c.configurationsColumn)))
      && (located && res.Resolved? ==>
            s1.columnRows == res.columnRows
            && (r == ResultSuccess || r == FileStop() || r == MoveStop())
            && (r == ResultSuccess ==> EndsWithNote(s0.log, s1.log, InfoNote(r)))
            && FilesWalked(folder, names, trace, results, ds, r)
            && trace[0].files == s0.files && GrewBy(s0.log, trace[0].log, 0)
            && trace[0].errorFolder == s1.errorFolder && trace[0].silverFolder == s1.silverFolder
            && trace[0].columnRows == s1.columnRows
            && trace[|results|].files == s1.files && GrewBy(trace[|results|].log, s1.log, 0))
    }

    /** The branch of `ProcessInboundFolder` for a folder with entries: the source is
        processed, and unless that raised, the result is logged as Info. */
    method EnterSource(stack: string, folder: string, guid: string, parent: string, source: string,
                       begin: string, parameters: string)
      returns (r: string, ghost located: bool, ghost res: Resolution, ghost names: seq<string>,
               ghost trace: seq<Moment>, ghost results: seq<string>, ghost ds: seq<Disposition>)
      requires u.fs.Valid() && u.fs.IsDir(folder)
      modifies this, u.log, u.env, u.fs
      ensures u.fs.Valid() && old(u.fs.dirs) <= u.fs.dirs
      ensures inboundFileFound == old(inboundFileFound)
      ensures Entered(Context(), folder, source, r, located, res, names, trace, results, ds, old(State()), State())
    {
      var failed;
      r, failed, located, res, names, trace, results, ds := ProcessSource(stack, folder, guid, parent, source, begin, parameters);
      ghost var m := State();
      if !failed {
        Report(begin, stack, guid, parameters, parent, r);
      }
      Reported(folder, source, r, failed, located, res, names, trace, results, ds, old(State()), m, State());
    }

    /** What `ProcessSource` does with the source of `folder`, taking `s0` to `s1`, with
        result `r` and `failed` reporting an exception: when its folders cannot be built
        (`located` false) the exception's message is the result; otherwise the error and
        Silver folders are the source's and its configuration `res` is `Settled`. */
    ghost predicate Sourced(c: Ctx, folder: string, source: string, r: string, failed: bool, located: bool, res: Resolution,
                            names: seq<string>, trace: seq<Moment>, results: seq<string>, ds: seq<Disposition>,
                            s0: Moment, s1: Moment)
    {
      && (!located ==>
            failed && s1.files == s0.files && s0.dirs <= s1.dirs && GrewBy(s0.log, s1.log, 0)
            && (r == BuildErrorMessage("ProcessInboundFolder", scriptFile, 271, UnboundLocal("FullPath"), true, "")
                || r == BuildErrorMessage("ProcessInboundFolder", scriptFile, 272, UnboundLocal("FullPath"), true, "")))
      && (located ==>
            res == Resolve(c.configurationsFileAll, c.configurationsColumnAll, source)
            && s1.errorFolder == Join(c.bronzeError, source)
            && s1.silverFolder == Join(c.silverInbound, source)
            && Settled(c, folder, source, r, failed, res, names, trace, results, ds, s0, s1))
    }

    /** What the source's configuration `res` led to, from `s0` to `s1`: an exception while
        resolving it leaves the files alone and yields its message; a missing configuration
        leaves them alone and yields its message, with no exception; a resolved one has the
        folder's files walked as `FilesWalked` says, from a state that differs from `s0` only
        in the log and the column configuration, to `s1`, and fails exactly when the walk
        stopped. */
    ghost predicate Settled(c: Ctx, folder: string, source: string, r: string, failed: bool, res: Resolution,
                            names: seq<string>, trace: seq<Moment>, results: seq<string>, ds: seq<Disposition>,
                            s0: Moment, s1: Moment)
    {
      && s0.dirs <= s1.dirs && GrewBy(s0.log, s1.log, 0)
      && (res.Unresolved? ==>
            failed && s1.files == s0.files && r == BuildErrorMessage("ProcessInboundFolder", scriptFile, res.line, res.error, true, ""))
      && (res.NoFileConfig? || res.NoColumnConfig? ==>
            !failed && s1.files == s0.files
            && r == (if res.NoFileConfig? then NoFileConfigMessage(source, c.configurationsFile)
                     else NoColumnConfigMessage(res.id, c.configurationsColumn)))
      && (res.Resolved? ==>
            s1.columnRows == res.columnRows
            && (failed <==> r != ResultSuccess) && (r == ResultSuccess || r == FileStop() || r == MoveStop())
            && FilesWalked(folder, names, trace, results, ds, r)
            && trace[0].files == s0.files && GrewBy(s0.log, trace[0].log, 0)
            && trace[0] == s1.(files := trace[0].files, dirs := trace[0].dirs, log := trace[0].log)
            && trace[|results|] == s1)
    }

    /** A source processed as `Sourced` says, whose result is then logged as Info unless it
        raised, was `Entered`. */
    lemma Reported(folder: string, source: string, r: string, failed: bool, located: bool, res: Resolution,
                   names: seq<string>, trace: seq<Moment>, results: seq<string>, ds: seq<Disposition>,
                   s0: Moment, m: Moment, s1: Moment)
      requires Sourced(Context(), folder, source, r, failed, located, res, names, trace, results, ds, s0, m)
      requires s1 == m.(log := s1.log)
      requires failed ==> s1.log == m.log
      requires !failed ==> Appended(m.log, s1.log, [InfoNote(r)])
      ensures Entered(Context(), folder, source, r, located, res, names, trace, results, ds, s0, s1)
    {
      if !failed {
        EndsWithLast(s0.log, m.log, s1.log, 0, InfoNote(r));
        if located && res.Resolved? {
          AppendedGrows(m.log, s1.log, [InfoNote(r)]);
        }
      }
    }

    /** `ValidateRootParameters`: a source folder that is given but missing is created, and
        the result then says so; the outcome is logged as Info. A failed creation raises at
        line 335: its message is the result and nothing is logged, since the handler's
        `LogStep` call has one argument too many. No file is touched. */
    method ValidateRootParameters(callStack: string, folder: string, parent: string) returns (r: string)
      requires u.fs.Valid()
      modifies u.log, u.env, u.fs
      ensures u.fs.Valid() && u.fs.files == old(u.fs.files)
      ensures folder == "" || old(u.fs.Exists(folder)) ==>
        r == ResultSuccess && u.fs.dirs == old(u.fs.dirs)
        && Appended(old(u.log.entries), u.log.entries, [InfoNote(r)])
      ensures folder != "" && !old(u.fs.Exists(folder)) ==>
        if old(u.fs.FreeForDir(DirKey(folder))) && old(u.fs.ParentExists(folder)) then
          r == CreatedMessage(folder) && u.fs.IsDir(folder) && u.fs.dirs == old(u.fs.dirs) + {DirKey(folder)}
          && Appended(old(u.log.entries), u.log.entries, [InfoNote(r)])
        else
          StartsWith(r, ErrorHead("ValidateRootParameters", scriptFile, 335))
          && u.fs.dirs == old(u.fs.dirs) && u.log.entries == old(u.log.entries)
    {
      var begin := u.env.Now();
      var stack := callStack + " > ValidateRootParameters";
      var guid := u.env.NewGuid();
      var parameters := DictText([("InboundSourceFolder", Repr(folder)), ("ParentExecutionGUID", Repr(parent))]);
      r := ResultSuccess;
      if folder != "" && !u.fs.Exists(folder) {
        var err := u.fs.Mkdir(folder);
        if err.Some? {
          return BuildErrorMessage("ValidateRootParameters", scriptFile, 335, err.value, true, "");
        }
        r := CreatedMessage(folder);
      }
      LogStep(begin, stack, guid, parameters, Step(Some(parent), SeverityInfo, r, None));
    }

    /** Lines 145-167 of `Main`, with each folder processed under its own name as the
        source (the script passes no source). `all` is the choice of lines 123-124 and `r0`
        the result before the walk. Every Inbound sub-folder, or only the given one, is
        processed; the result is the last folder's, except that it becomes "Success" when
        that last folder had no entries (line 156), whatever the folders before it gave.
        The result is logged as Info. An unassigned choice, or an Inbound folder that
        cannot be listed, raises; the handler's `LogStep` call has one argument too many,
        so nothing is logged and the error escapes `Main` (`escaped`). In every case the
        entries are then written to the log file. */
    method Walk(folderArg: string, all: Option<bool>, r0: string, begin: string, guid: string,
                parameters: string, parent: string)
      returns (r: string, escaped: bool, ghost folders: seq<string>, ghost trace: seq<Moment>,
               ghost results: seq<string>, ghost es: seq<Entry>)
      requires u.fs.Valid()
      modifies this, u, u.log, u.env, u.fs
      ensures u.fs.Valid()
      ensures WalkedFolders(Context(), folders, trace, results, es) && trace[0] == old(State())
      ensures forall i, j :: 0 <= i < j < |folders| ==> folders[i] != folders[j]
      ensures escaped ==> folders == []
      ensures all == Some(false) ==> folders == [folderArg]
      ensures all == Some(true) && !escaped ==>
        forall n :: n in folders <==> n in ListingOf(trace[0].files, trace[0].dirs, DirKey(u.folders.bronzeInbound))
      ensures !escaped ==> Appended(trace[|folders|].log, u.log.entries, [InfoNote(r)])
      ensures u.fs.dirs == trace[|folders|].dirs
        && u.fs.files - {u.folders.logFile} == trace[|folders|].files - {u.folders.logFile}
      ensures escaped <==> all.None? || (all == Some(true) && !old(u.fs.IsDir(u.folders.bronzeInbound)))
      ensures escaped ==> u.log.entries == old(u.log.entries) && results == []
      ensures all == Some(false) ==> |results| == 1
      ensures results == [] ==> inboundFileFound == old(inboundFileFound)
      ensures !escaped ==>
        r == (if !inboundFileFound then ResultSuccess else if results == [] then r0 else results[|results| - 1])
        && EndsWithNote(old(u.log.entries), u.log.entries, InfoNote(r))
      ensures u.folders.root == old(u.folders.root) && u.isValidLogFile == old(u.isValidLogFile)
      ensures u.folders.logFile == Join3(old(u.folders.root), "Admin", "Log.txt")
      ensures var p := u.folders.logFile;
        |u.log.entries| > 0 && !u.fs.IsDir(p) && u.fs.ParentExists(p) ==>
        p in u.fs.files && EndsWithRecords(u.fs.files[p], EntryRecords(SortByBegin(u.log.entries)))
    {
      r, escaped, folders, trace, results, es := Visit(folderArg, all, r0, guid);
      if !escaped && !inboundFileFound {
        r := ResultSuccess;
      }
      ghost var log1 := u.log.entries;
      label Visited:
      CloseWalk(r, escaped, begin, guid, parameters, parent);
      assert Context() == old@Visited(Context());
      if !escaped {
        EndsWithLast(old(u.log.entries), log1, u.log.entries, 0, InfoNote(r));
      }
    }

    /** The end of `Main`'s walk: its closing Info entry unless it escaped, then the log file
        write, which changes only where the log file is. */
    method CloseWalk(r: string, escaped: bool, begin: string, guid: string, parameters: string, parent: string)
      requires u.fs.Valid()
      modifies u, u.log, u.env, u.fs
      ensures u.fs.Valid()
      ensures u.configurationsFileAll == old(u.configurationsFileAll)
      ensures u.configurationsColumnAll == old(u.configurationsColumnAll)
      ensures escaped ==> u.log.entries == old(u.log.entries)
      ensures !escaped ==> Appended(old(u.log.entries), u.log.entries, [InfoNote(r)])
      ensures u.fs.dirs == old(u.fs.dirs)
      ensures u.fs.files - {u.folders.logFile} == old(u.fs.files) - {u.folders.logFile}
      ensures u.folders == old(u.folders).(logFile := Join3(old(u.folders.root), "Admin", "Log.txt"))
      ensures u.isValidLogFile == old(u.isValidLogFile)
      ensures var p := u.folders.logFile;
        |u.log.entries| > 0 && !u.fs.IsDir(p) && u.fs.ParentExists(p) ==>
        p in u.fs.files && EndsWithRecords(u.fs.files[p], EntryRecords(SortByBegin(u.log.entries)))
    {
      if !escaped {
        LogStep(begin, "Main", guid, parameters, Step(Some(parent), SeverityInfo, r, None));
      }
      u.WriteToLogFile();
    }

    /** The folders `Walk` processes: all sub-folders of the Inbound folder, or the given
        one; `escaped` reports the exception of an unassigned choice or an unlistable
        Inbound folder, raised before anything is processed or logged. `folders` are the
        names processed as sources, and `trace`, `results` and `es` the states, results and
        entries of `ProcessInboundFolder` on each, in turn. */
    method Visit(folderArg: string, all: Option<bool>, r0: string, guid: string)
      returns (r: string, escaped: bool, ghost folders: seq<string>, ghost trace: seq<Moment>,
               ghost results: seq<string>, ghost es: seq<Entry>)
      requires u.fs.Valid()
      modifies this, u.log, u.env, u.fs
      ensures u.fs.Valid() && GrewBy(old(u.log.entries), u.log.entries, 0)
      ensures escaped <==> all.None? || (all == Some(true) && !old(u.fs.IsDir(u.folders.bronzeInbound)))
      ensures escaped ==> u.log.entries == old(u.log.entries) && folders == []
      ensures all == Some(false) ==> folders == [folderArg]
      ensures all == Some(true) && !escaped ==>
        forall n :: n in folders <==> n in old(u.fs.Listing(DirKey(u.folders.bronzeInbound)))
      ensures forall i, j :: 0 <= i < j < |folders| ==> folders[i] != folders[j]
      ensures WalkedFolders(Context(), folders, trace, results, es) && trace[0] == old(State()) && trace[|folders|] == State()
      ensures !escaped ==> r == if results == [] then r0 else results[|results| - 1]
    {
      r, escaped, folders, trace, results, es := r0, false, [], [State()], [], [];
      var inbound := u.folders.bronzeInbound;
      match all {
        case None =>
          escaped := true;
        case Some(true) =>
          if !u.fs.IsDir(inbound) {
            escaped := true;
          } else {
            r, folders, trace, results, es := WalkAll(r0, guid);
          }
        case Some(false) =>
          ghost var e;
          r, e := ProcessInboundFolder("Main", Join(inbound, folderArg), guid, folderArg);
          folders, trace, results, es := [folderArg], trace + [State()], [r], [e];
      }
    }

    /** Each step `k` of `trace` is `ProcessInboundFolder` on the Inbound sub-folder
        `folders[k]`, taken as the source, with result `results[k]` and entry `es[k]`. */
    ghost predicate WalkedFolders(c: Ctx, folders: seq<string>, trace: seq<Moment>, results: seq<string>, es: seq<Entry>)
    {
      |results| == |folders| && |es| == |folders| && |trace| == |folders| + 1
      && forall k {:trigger FolderProcessed(c, Join(c.bronzeInbound, folders[k]), folders[k], trace[k], trace[k + 1], results[k], es[k])} ::
           0 <= k < |folders| ==>
           FolderProcessed(c, Join(c.bronzeInbound, folders[k]), folders[k], trace[k], trace[k + 1], results[k], es[k])
    }

    /** The loop of lines 149-151: every entry of the Inbound folder is processed as a
        source folder, whatever the previous one returned; the result is the last one's. */
    method WalkAll(r0: string, guid: string)
      returns (r: string, ghost names: seq<string>, ghost trace: seq<Moment>, ghost results: seq<string>,
               ghost es: seq<Entry>)
      requires u.fs.Valid() && u.fs.IsDir(u.folders.bronzeInbound)
      modifies this, u.log, u.env, u.fs
      ensures u.fs.Valid() && GrewBy(old(u.log.entries), u.log.entries, 0)
      ensures forall n :: n in names <==> n in old(u.fs.Listing(DirKey(u.folders.bronzeInbound)))
      ensures forall i, j :: 0 <= i < j < |names| ==> names[i] != names[j]
      ensures WalkedFolders(Context(), names, trace, results, es) && trace[0] == old(State()) && trace[|names|] == State()
      ensures r == if results == [] then r0 else results[|results| - 1]
    {
      var listing := u.fs.ListDir(u.folders.bronzeInbound);
      names := listing.value;
      r, trace, results, es := WalkEntries(listing.value, r0, guid);
    }

    /** The loop of lines 149-151 over the listed `entries`, in order. */
    method WalkEntries(entries: seq<string>, r0: string, guid: string)
      returns (r: string, ghost trace: seq<Moment>, ghost results: seq<string>, ghost es: seq<Entry>)
      requires u.fs.Valid()
      modifies this, u.log, u.env, u.fs
      ensures u.fs.Valid() && GrewBy(old(u.log.entries), u.log.entries, 0)
      ensures WalkedFolders(Context(), entries, trace, results, es) && trace[0] == old(State()) && trace[|entries|] == State()
      ensures r == if results == [] then r0 else results[|results| - 1]
    {
      r, trace, results, es := r0, [State()], [], [];
      var i := 0;
      while i < |entries|
        invariant 0 <= i <= |entries| && |results| == i && |trace| == i + 1
        invariant u.fs.Valid() && GrewBy(old(u.log.entries), u.log.entries, 0)
        invariant trace[0] == old(State()) && trace[i] == State()
        invariant WalkedFolders(Context(), entries[..i], trace, results, es)
        invariant r == if results == [] then r0 else results[|results| - 1]
      {
        ghost var log1 := u.log.entries;
        r, trace, results, es := WalkOne(entries, i, guid, trace, results, es);
        GrewChain(old(u.log.entries), log1, u.log.entries, 0, 0);
        i := i + 1;
      }
      assert entries[..i] == entries;
    }

    /** One turn of the loop of lines 149-151: the source folder `entries[i]` of the Inbound
        folder is processed, extending the walk so far. */
    method WalkOne(entries: seq<string>, i: nat, guid: string, ghost trace: seq<Moment>, ghost results: seq<string>,
                   ghost es: seq<Entry>)
      returns (r: string, ghost trace': seq<Moment>, ghost results': seq<string>, ghost es': seq<Entry>)
      requires u.fs.Valid() && i < |entries| && WalkedFolders(Context(), entries[..i], trace, results, es) && trace[i] == State()
      modifies this, u.log, u.env, u.fs
      ensures u.fs.Valid() && GrewBy(old(u.log.entries), u.log.entries, 0)
      ensures trace' == trace + [State()] && results' == results + [r]
      ensures WalkedFolders(Context(), entries[..i + 1], trace', results', es')
    {
      ghost var e;
      r, e := ProcessInboundFolder("Main", Join(u.folders.bronzeInbound, entries[i]), guid, entries[i]);
      FolderTaken(entries[..i], trace, results, es, entries[i], State(), r, e);
      assert entries[..i] + [entries[i]] == entries[..i + 1];
      trace', results', es' := trace + [State()], results + [r], es + [e];
    }

    /** A folder processed after the walk so far extends the walk by one. */
    lemma FolderTaken(folders: seq<string>, trace: seq<Moment>, results: seq<string>, es: seq<Entry>,
                      f: string, s: Moment, r: string, e: Entry)
      requires WalkedFolders(Context(), folders, trace, results, es)
      requires FolderProcessed(Context(), Join(u.folders.bronzeInbound, f), f, trace[|folders|], s, r, e)
      ensures WalkedFolders(Context(), folders + [f], trace + [s], results + [r], es + [e])
    {
      forall k | 0 <= k <= |folders|
        ensures FolderProcessed(Context(), Join(u.folders.bronzeInbound, (folders + [f])[k]), (folders + [f])[k],
                                (trace + [s])[k], (trace + [s])[k + 1], (results + [r])[k], (es + [e])[k])
      {
        FolderKept(folders, trace, results, es, f, s, r, e, k);
      }
    }

    /** Each step of the extended walk is a folder processed. */
    lemma FolderKept(folders: seq<string>, trace: seq<Moment>, results: seq<string>, es: seq<Entry>,
                     f: string, s: Moment, r: string, e: Entry, k: nat)
      requires WalkedFolders(Context(), folders, trace, results, es) && k <= |folders|
      requires FolderProcessed(Context(), Join(u.folders.bronzeInbound, f), f, trace[|folders|], s, r, e)
      ensures FolderProcessed(Context(), Join(u.folders.bronzeInbound, (folders + [f])[k]), (folders + [f])[k],
                              (trace + [s])[k], (trace + [s])[k + 1], (results + [r])[k], (es + [e])[k])
    {
      var fs, t, rs, es' := folders + [f], trace + [s], results + [r], es + [e];
      if k < |folders| {
        FolderRestated(Join(u.folders.bronzeInbound, folders[k]), folders[k], trace[k], trace[k + 1], results[k], es[k],
                       Join(u.folders.bronzeInbound, fs[k]), fs[k], t[k], t[k + 1], rs[k], es'[k]);
      } else {
        FolderRestated(Join(u.folders.bronzeInbound, f), f, trace[|folders|], s, r, e,
                       Join(u.folders.bronzeInbound, fs[k]), fs[k], t[k], t[k + 1], rs[k], es'[k]);
      }
    }

    /** `FolderProcessed` of equal arguments. */
    lemma FolderRestated(folder: string, source: string, s0: Moment, s1: Moment, r: string, e: Entry,
                         folder': string, source': string, s0': Moment, s1': Moment, r': string, e': Entry)
      requires FolderProcessed(Context(), folder, source, s0, s1, r, e)
      requires folder' == folder && source' == source && s0' == s0 && s1' == s1 && r' == r && e' == e
      ensures FolderProcessed(Context(), folder', source', s0', s1', r', e')
    {
    }

    /** `Main` as written, in a fresh process. The unpacking at line 119 binds the entry list
        to the result, so the test at line 120 always raises; the handler only prints the
        report, built without logging. The log file was never validated, so the walk of
        lines 145-167 is skipped: no folder is processed, no configuration is read, and
        the log entries of `SetGlobalVariables` are never written. The printed report is
        returned. */
    method Run(inboundSourceFolder: string, parent: string) returns (report: string)
      requires u.fs.Valid() && !u.isValidLogFile
      modifies u, u.log, u.env, u.fs
      ensures report == BuildErrorMessage("Main", scriptFile, 120, "Error in SetGlobalVariables", false,
                                          DictText([("InboundSourceFolder", Repr(inboundSourceFolder)),
                                                    ("ParentExecutionGUID", Repr(parent))]))
      ensures u.fs.files == old(u.fs.files) && !u.isValidLogFile
      ensures GrewBy(old(u.log.entries), u.log.entries, 1)
    {
      var begin := u.env.Now();
      var guid := u.env.NewGuid();
      var parameters := DictText([("InboundSourceFolder", Repr(inboundSourceFolder)),
                                  ("ParentExecutionGUID", Repr(parent))]);
      var r, raisedAt := u.SetGlobalVariables(scriptFile, "Main", guid);
      report := BuildErrorMessage("Main", scriptFile, 120, "Error in SetGlobalVariables", false, parameters);
    }

    /** Lines 116-143 of `Main` with the result of `SetGlobalVariables` taken as that
        method returns it (line 119). Each step runs only if the previous one succeeded;
        `stop` is the line whose `raise` ended the block (0 when none did), and the report
        printed there is `report`, built without logging. `all` is the choice of lines
        123-124 (`None` while unassigned) and `r` the last step's result. */
    method Prepare(folder: string, guid: string, parameters: string)
      returns (r: string, all: Option<bool>, report: Option<string>, ghost stop: nat)
      requires u.fs.Valid()
      modifies u, u.log, u.env, u.fs
      ensures u.fs.Valid() && GrewBy(old(u.log.entries), u.log.entries, 1)
      ensures stop in {0, 120, 128, 132, 136, 140}
      ensures report.None? <==> stop == 0
      ensures stop == 0 ==> r == ResultSuccess
      ensures stop != 0 ==>
        r != ResultSuccess
        && report == Some(BuildErrorMessage("Main", scriptFile, stop, StopText(stop, r), false, parameters))
      ensures stop == 120 ==> all.None? && u.isValidLogFile == old(u.isValidLogFile) && u.fs.files == old(u.fs.files)
      ensures stop != 120 ==> all == AllFolders(folder, u.folders.root)
      ensures stop == 128 ==> !u.isValidLogFile
      ensures stop == 0 || stop > 128 ==> u.isValidLogFile
    {
      all, report, stop := None, None, 0;
      r := Setting(120, folder, guid);
      if r != ResultSuccess {
        return r, None, Some(BuildErrorMessage("Main", scriptFile, 120, StopText(120, r), false, parameters)), 120;
      }
      all := AllFolders(folder, u.folders.root);
      r := Setting(128, folder, guid);
      if r != ResultSuccess {
        return r, all, Some(BuildErrorMessage("Main", scriptFile, 128, StopText(128, r), false, parameters)), 128;
      }
      r, report, stop := Configurations(folder, guid, parameters);
    }

    /** One step of `Main`'s settings block, the one whose result line `line` tests:
        `SetGlobalVariables` (120), `ValidateLogFile` (128), `RetrieveConfigurations_File`
        (132), `RetrieveConfigurations_Column` (136) or `ValidateRootParameters` (140).
        Only the log file check changes the log file flag, and only the global settings
        change the folders. */
    method Setting(line: nat, folder: string, guid: string) returns (r: string)
      requires u.fs.Valid() && line in {120, 128, 132, 136, 140}
      modifies u, u.log, u.env, u.fs
      ensures u.fs.Valid() && GrewBy(old(u.log.entries), u.log.entries, if line == 140 then 0 else 1)
      ensures line == 120 ==> u.fs.files == old(u.fs.files) && u.isValidLogFile == old(u.isValidLogFile)
      ensures line == 128 ==> (u.isValidLogFile <==> r == ResultSuccess)
      ensures line > 128 ==> u.isValidLogFile == old(u.isValidLogFile)
      ensures line != 120 ==> u.folders == old(u.folders)
    {
      if line == 120 {
        ghost var raisedAt;
        r, raisedAt := u.SetGlobalVariables(scriptFile, "Main", guid);
      } else if line == 128 {
        r := u.ValidateLogFile("Main", guid);
      } else if line == 132 {
        r := u.RetrieveConfigurationsFile("Main", guid);
      } else if line == 136 {
        r := u.RetrieveConfigurationsColumn("Main", guid);
      } else {
        r := ValidateRootParameters("Main", folder, guid);
      }
    }

    /** Lines 130-140 of `Main`: the two configuration caches are filled and the root
        parameters validated, stopping at the first step that does not succeed. */
    method Configurations(folder: string, guid: string, parameters: string)
      returns (r: string, report: Option<string>, ghost stop: nat)
      requires u.fs.Valid()
      modifies u, u.log, u.env, u.fs
      ensures u.fs.Valid() && GrewBy(old(u.log.entries), u.log.entries, 0)
      ensures u.folders == old(u.folders) && u.isValidLogFile == old(u.isValidLogFile)
      ensures stop in {0, 132, 136, 140}
      ensures report.None? <==> stop == 0
      ensures stop == 0 ==> r == ResultSuccess
      ensures stop != 0 ==>
        r != ResultSuccess
        && report == Some(BuildErrorMessage("Main", scriptFile, stop, StopText(stop, r), false, parameters))
    {
      report, stop := None, 0;
      ghost var log0 := u.log.entries;
      r := Setting(132, folder, guid);
      if r != ResultSuccess {
        return r, Some(BuildErrorMessage("Main", scriptFile, 132, StopText(132, r), false, parameters)), 132;
      }
      ghost var log1 := u.log.entries;
      r := Setting(136, folder, guid);
      GrewChain(log0, log1, u.log.entries, 1, 1);
      if r != ResultSuccess {
        return r, Some(BuildErrorMessage("Main", scriptFile, 136, StopText(136, r), false, parameters)), 136;
      }
      ghost var log2 := u.log.entries;
      r := Setting(140, folder, guid);
      GrewChain(log0, log2, u.log.entries, 2, 0);
      if r != ResultSuccess {
        return r, Some(BuildErrorMessage("Main", scriptFile, 140, StopText(140, r), false, parameters)), 140;
      }
    }

    /** The exception text `Main` raises at line `line` after a step returned `r`: the log
        file check raises its own result, every other step a fixed text. */
    static function StopText(line: nat, r: string): (e: string)
      ensures line == 128 ==> e == r
    {
      match line
      case 120 => "Error in SetGlobalVariables"
      case 128 => r
      case 132 => "Error in RetrieveConfigurations_File"
      case 136 => "Error in RetrieveConfigurations_Column"
      case _ => "Error in ValidateRootParameters"
    }

    /** `Main` as evidently intended, in a fresh process: line 119 takes the result of
        `SetGlobalVariables` as that method returns it. The folders are walked exactly when
        the log file was validated, even if a later step of the settings block failed; a
        walk that does not escape ends with `Main`'s Info entry carrying its result, and
        the entries are then written to `Admin/Log.txt` below the root. When the settings
        themselves fail at line 120, nothing else happens. */
    method RunIntended(inboundSourceFolder: string, parent: string)
      returns (result: string, report: Option<string>, ghost stop: nat, walked: bool, escaped: bool,
               ghost folders: seq<string>, ghost trace: seq<Moment>, ghost results: seq<string>, ghost es: seq<Entry>)
      requires u.fs.Valid() && !u.isValidLogFile
      modifies this, u, u.log, u.env, u.fs
      ensures u.fs.Valid()
      ensures WalkedFolders(Context(), folders, trace, results, es)
      ensures forall i, j :: 0 <= i < j < |folders| ==> folders[i] != folders[j]
      ensures !walked || escaped ==> folders == []
      ensures walked ==>
        GrewBy(old(u.log.entries), trace[0].log, 1) && u.fs.dirs == trace[|folders|].dirs
        && u.fs.files - {u.folders.logFile} == trace[|folders|].files - {u.folders.logFile}
      ensures walked && AllFolders(inboundSourceFolder, u.folders.root) == Some(false) ==> folders == [inboundSourceFolder]
      ensures walked && AllFolders(inboundSourceFolder, u.folders.root) == Some(true) && !escaped ==>
        forall n :: n in folders <==> n in ListingOf(trace[0].files, trace[0].dirs, DirKey(u.folders.bronzeInbound))
      ensures walked && !escaped ==> Appended(trace[|folders|].log, u.log.entries, [InfoNote(result)])
      ensures stop in {0, 120, 128, 132, 136, 140} && (report.None? <==> stop == 0)
      ensures walked <==> stop == 0 || stop > 128
      ensures !walked ==> !escaped && !u.isValidLogFile
      ensures stop == 120 ==>
        u.fs.files == old(u.fs.files)
        && report == Some(BuildErrorMessage("Main", scriptFile, 120, "Error in SetGlobalVariables", false,
                                            DictText([("InboundSourceFolder", Repr(inboundSourceFolder)),
                                                      ("ParentExecutionGUID", Repr(parent))])))
      ensures walked && AllFolders(inboundSourceFolder, u.folders.root).None? ==> escaped
      ensures walked && !escaped ==> EndsWithNote(old(u.log.entries), u.log.entries, InfoNote(result))
      ensures walked ==>
        u.folders.logFile == Join3(u.folders.root, "Admin", "Log.txt")
        && (!u.fs.IsDir(u.folders.logFile) && u.fs.ParentExists(u.folders.logFile) ==>
            u.folders.logFile in u.fs.files
            && EndsWithRecords(u.fs.files[u.folders.logFile], EntryRecords(SortByBegin(u.log.entries))))
    {
      var begin := u.env.Now();
      var guid := u.env.NewGuid();
      var parameters := DictText([("InboundSourceFolder", Repr(inboundSourceFolder)),
                                  ("ParentExecutionGUID", Repr(parent))]);
      var all;
      result, all, report, stop := Prepare(inboundSourceFolder, guid, parameters);
      walked, escaped := u.isValidLogFile, false;
      folders, trace, results, es := [], [State()], [], [];
      if walked {
        ghost var log1 := u.log.entries;
        result, escaped, folders, trace, results, es := Walk(inboundSourceFolder, all, result, begin, guid, parameters, parent);
        if !escaped {
          EndsWithGrew(old(u.log.entries), log1, u.log.entries, InfoNote(result));
        }
      }
    }
  }
}
