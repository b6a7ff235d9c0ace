# Bronze ingestion of inbound files — a Dafny model

The PersonalFinance repository ingests delimited text files into a Bronze layer. A run
starts from a root folder. It walks the `Inbound` sub-folders, one per source. For each
`.csv` or `.txt` file it looks up the file-level configuration of the file's source: the
`ConfigurationFileID` and the delimiter. It then looks up the column-level configuration of
that id and compares the file's header with the configured column names. A file that
passes has its columns renamed to their Bronze names. Its duplicate rows are dropped
(the last one is kept), and the rows Bronze does not already hold are appended to
`Bronze.<Source>.txt`. The file is then moved to `Archive/<Source>`. Every step records
a log entry in an in-memory buffer. The buffer is appended to `Admin/Log.txt`, ordered by
`Begin`, at the end of the run. `LoadFileToBronze.py` and `Admin/LoadFileToBronze.py` append
it only when the log file's header was valid; `File2Bronze.py` never checks the log file and
appends it unconditionally.

The repository holds five variants of these scripts, and each is modelled on its own:

* `LoadFileToBronze.py`: the single-script version with module globals. Module
  `LoadFileToBronze`, class `Script`.
* `Admin/Utilities.py`: the shared helpers of the Admin version. These are the folder
  layout, `BuildErrorMessage`, file retrieval with header checks, `MoveFile` with folder
  creation, and the joined header check. Module `AdminUtilities`, class `Utilities`.
* `Admin/LoadFileToBronze.py`: the Admin script. It checks each file's header, with the
  four standard columns stamped onto the frame in memory only (they are never written).
  A rejected file is moved to `Bronze/Error/<Source>` under a name carrying the issue; an
  accepted one is moved to `Silver/Inbound/<Source>`. Nothing is archived. Module
  `AdminLoadFileToBronze`, class `Script`. Its pure rules are in module `AdminRules`.
* `File2Bronze.py`: the earliest variant, which checks headers only. Module
  `File2Bronze`, class `Script`.
* `Utilities.py`: a standalone helper module that none of the scripts above calls. The
  root `LoadFileToBronze.py` and `File2Bronze.py` define their own helpers, and the Admin
  script imports `Admin/Utilities.py`. Module `Utilities`, class `Utilities`.

Shared modules model what the scripts rely on:

* `Files`: a file system with files and directories, rename, listing, appends and
  `mkdir`/`makedirs`, and the CSV reader.
* `Frames`: a pandas frame with in-place rename, `drop_duplicates(keep='last')` and
  column assignment.
* `Tables`, `Config`: the configuration tables and the row selections on them.
* `Headers`: the extra-columns and missing-columns check, with its two message styles.
* `Logging`: the log entry, the log buffer, the clock and the id generator, and the sort
  by `Begin`.
* `Bronze`: the column mapping and the anti-join against existing Bronze rows.
* `Paths`, `Text`, `Seqs`, `Wrappers`: Windows path joining and splitting, Python string
  operations, and small sequence lemmas.

Each script's module globals become the fields of a class. Each function that changes
them, the file system or the log buffer becomes a method with a `modifies` clause. Each
such method is specified by the pure functions of its module, and the properties of the
run are proved about those functions.

## Model

| member | source | states |
|---|---|---|
| LoadFileToBronze.LayoutOf | LoadFileToBronze.py:202-208 | Archive, Bronze, Inbound and Admin sit directly below the root; both configuration files sit in Admin; the log file is `Admin/Log.txt` below the root |
| LoadFileToBronze.SourceOf | LoadFileToBronze.py:324-326 | the source derived from a folder never holds a backslash |
| LoadFileToBronze.SourceOfSubfolder | LoadFileToBronze.py:324-326 | for a sub-folder of the Inbound root, the source is exactly the sub-folder's name |
| LoadFileToBronze.FileConfigFor | LoadFileToBronze.py:478-483 | the file-level rows of a source are found exactly when the configuration file reads and has a `Source` column; they are the rows with that source; a failure is never "Success" |
| LoadFileToBronze.ColumnConfigFor | LoadFileToBronze.py:444-448 | the column-level rows found are those of the configuration file whose `ConfigurationFileID` equals the id; a failure is never "Success" |
| LoadFileToBronze.MappingOf | LoadFileToBronze.py:124-125 | the rename map exists exactly when both `ColumnName_File` and `ColumnName_Bronze` are configured columns |
| LoadFileToBronze.CopyPlan | LoadFileToBronze.py:119-134 | what is appended to Bronze exists only when Bronze reads and the mapping exists, and is then the renamed, de-duplicated records that Bronze does not hold |
| LoadFileToBronze.Plan | LoadFileToBronze.py:316-362 | a name is skipped exactly when it does not end in `.csv` or `.txt`; a failed stage never carries "Success"; a configured file reaches the load stage |
| LoadFileToBronze.Configured | LoadFileToBronze.py:332-362 | once retrieved, the file-level configuration is what the global keeps |
| LoadFileToBronze.LoadStage | LoadFileToBronze.py:342-356 | a file is rejected for its header exactly when its read header does not match the configured `ColumnName_File` values; a copied file's rows are the copy plan's rows |
| LoadFileToBronze.StageResult | LoadFileToBronze.py:315-381 | for a file that is not archived, `ProcessFile` returns "Success" only for a skipped name, and otherwise the message of the step that stopped it |
| LoadFileToBronze.FileNote | LoadFileToBronze.py:364-374 | the note is Info exactly on "Success"; its `File` is empty on success and the inbound path otherwise |
| LoadFileToBronze.FolderChoice | LoadFileToBronze.py:211-212 | an empty filter selects all sub-folders; a filter without the root selects one; a filter holding the root leaves the choice unbound |
| LoadFileToBronze.FullPathFilterUnbound | LoadFileToBronze.py:211-212 | a filter given as a full path below the root never yields a folder choice |
| LoadFileToBronze.MissingParameters | LoadFileToBronze.py:596-605 | one Error note per empty required parameter, and no others |
| LoadFileToBronze.MainNote | LoadFileToBronze.py:256-267 | Main's closing note is Info exactly on "Success"; otherwise it is an Error with an empty `File` |
| LoadFileToBronze.Script.constructor | LoadFileToBronze.py:53-76 | the parameters are kept; the paths and cached configurations start empty; no inbound file has been found yet |
| LoadFileToBronze.Script.LogStep | LoadFileToBronze.py:154-182 | appends exactly one entry with the given severity, result and file; an empty id is replaced by a fresh one |
| LoadFileToBronze.Script.MoveFile | LoadFileToBronze.py:273-301 | "Success" exactly when the source file exists, the target's folder exists and the target does not; the file then moves under the target name; otherwise nothing changes; one entry is logged |
| LoadFileToBronze.Script.CopyToBronze | LoadFileToBronze.py:109-152 | "Success" exactly when the copy plan exists; Bronze then gains exactly the plan's rows; the caller's frame is renamed and de-duplicated in place; on failure no file changes |
| LoadFileToBronze.Script.AppendNewRecords | LoadFileToBronze.py:119-134 | the body inside the `try`: the same result and effect as the copy plan |
| LoadFileToBronze.Script.RetrieveConfigurationsFile | LoadFileToBronze.py:464-500 | on a successful read the global holds the source's rows and the result is "Success"; otherwise the error is returned and the global is unchanged |
| LoadFileToBronze.Script.RetrieveConfigurationsColumn | LoadFileToBronze.py:429-462 | always returns "Success"; on a failed read the global keeps its stale rows and an Error is logged |
| LoadFileToBronze.Script.ValidateColumnHeader | LoadFileToBronze.py:502-542 | the result is the missing-columns message if any, else the extra-columns message, else "Success"; one Error per kind of mismatch, or one Info |
| LoadFileToBronze.Script.ValidateLogFile | LoadFileToBronze.py:544-581 | "Success" exactly when the log file reads with the fourteen log columns; a missing log path fails; no file changes |
| LoadFileToBronze.Script.ValidateRootParameters | LoadFileToBronze.py:583-630 | "Success" exactly when the root, the source filter folder and Admin are present; empty parameters are logged but do not fail; only the root or the filter folder may be created |
| LoadFileToBronze.Script.LogMissingParameters | LoadFileToBronze.py:596-605 | logs exactly the missing-parameter notes |
| LoadFileToBronze.Script.CreateIfMissing | LoadFileToBronze.py:608-613 | a given but missing folder is created and reported with a warning that is not "Success"; otherwise the result is kept and nothing changes |
| LoadFileToBronze.Script.ProcessFile | LoadFileToBronze.py:303-381 | the result and the new globals are those of `Plan`; a file that is not copied changes no file; a copied file's Bronze gains its rows and the file is archived when it can be; the entry it ends with is `FileNote` |
| LoadFileToBronze.Script.Ingest | LoadFileToBronze.py:316-362 | the same, for a `.csv`/`.txt` name |
| LoadFileToBronze.Script.IngestConfigured | LoadFileToBronze.py:332-362 | the same, once the file-level configuration is retrieved, against `Configured` |
| LoadFileToBronze.Script.Load | LoadFileToBronze.py:342-362 | read, header check, copy and archive, against `LoadStage` |
| LoadFileToBronze.Script.CopyAndArchive | LoadFileToBronze.py:355-362 | a failed copy returns "Error in CopyToBronze" and changes nothing; a successful one appends the plan's rows and then archives |
| LoadFileToBronze.Script.ProcessInboundFolder | LoadFileToBronze.py:383-427 | a folder that is not a directory returns the Windows listing error; an empty one returns "No files were found for processing in" and the folder; otherwise `InboundFileFound` is set, "Success" is returned and every listed name is processed in turn, each step of the trace being `FileProcessed` from the state the previous step left, followed by one Info entry |
| LoadFileToBronze.Script.ProcessListed | LoadFileToBronze.py:399-413 | once listed, an empty folder gives "No files were found for processing in" and the folder with no file changed; otherwise `InboundFileFound` is set, every name, each once, is processed as the trace of `FileProcessed` steps states, and "Success" is logged as Info |
| LoadFileToBronze.Script.ProcessFiles | LoadFileToBronze.py:408-410 | each listed name is processed once, in the order listed; step `k` of the trace takes the state left by step `k - 1` to the next as `FileProcessed` of the `k`-th name states; names that are not `.csv`/`.txt` change no file |
| LoadFileToBronze.Extended | LoadFileToBronze.py:408-410 | one more file processed from the last state of the loop extends the trace of processed files |
| LoadFileToBronze.Script.Run | LoadFileToBronze.py:184-271 | the log is written exactly when the log file is valid; an invalid log file or a missing folder ends in "Error in ValidateRootParameters" with no other file changed; otherwise the walk ends as `WalkEnded` says, the folders processed are those `FoldersChosen` picks (every Inbound entry, or the filter folder) and each is `ProcessInboundFolder` of that folder from the state the previous one left, as `FoldersWalked` states; the closing note `MainNote` follows the last folder's entries |
| LoadFileToBronze.Script.Prepare | LoadFileToBronze.py:200-228 | with the layout derived, the log file is valid exactly when `Admin/Log.txt` reads with the log columns; the files never change, and a valid log file leaves the folders, the Inbound listing and the folder checks as they were |
| LoadFileToBronze.Script.Steps | LoadFileToBronze.py:184-254 | `Main` before its closing entry: the layout is `LayoutOf` the parameters; an invalid log file or a missing folder ends in "Error in ValidateRootParameters" with no file changed; otherwise the walk ends as `WalkEnded` says and the folders `FoldersChosen` picks, each once, are processed as `FoldersWalked` states |
| LoadFileToBronze.Script.Conclude | LoadFileToBronze.py:256-271 | logs `MainNote` and then, when the log file was valid, appends the sorted entries to it; no other file changes |
| LoadFileToBronze.Script.CloseLog | LoadFileToBronze.py:256-267 | appends exactly Main's closing note |
| LoadFileToBronze.Script.ValidateAndWalk | LoadFileToBronze.py:236-254 | the parameters are checked only after a valid log file; when either check fails no folder is processed; otherwise the folders `FoldersChosen` picks are each processed as `FoldersWalked` states, from the starting files to the final state |
| LoadFileToBronze.Script.WalkInbound | LoadFileToBronze.py:242-255 | the walk ends as `WalkEnded` says; the folders processed are every entry of the Inbound folder, each once, when all are chosen, only the filter folder when one is named, and none otherwise; step `k` of the trace is `ProcessInboundFolder` of the `k`-th folder (`FolderWalked`) from the state the previous step left |
| LoadFileToBronze.FolderAdded | LoadFileToBronze.py:246-249 | one more folder processed from the last state of the walk extends the walk's trace |
| LoadFileToBronze.Script.WriteToLogFile | LoadFileToBronze.py:632-640 | the log file gains exactly the buffered entries, ordered by `Begin`; an empty buffer or an unwritable path changes nothing; no other file changes |
| AdminUtilities.BuildErrorMessage | Admin/Utilities.py:74-77 | both forms start with the script, the function and the line; the log form ends with the message; the console form ends with the message and the parameters on their own lines; neither is "Success" |
| AdminUtilities.ErrorFormsShareHead | Admin/Utilities.py:74-77 | the two forms agree up to the end of the common head, and each is exactly the head followed by its own tail |
| AdminUtilities.AdminPlacement | Admin/Utilities.py:329-348 | below a base folder that does not end with a separator (separators inside it are allowed, as in an absolute path), the root is that folder with one separator added; the layers and Admin sit directly in the root; a configuration or log file is found in Admin under its own name |
| AdminUtilities.LayoutPlacesLog | Admin/Utilities.py:329-350 | in the layout below such a base folder, the log file is `Log.txt` directly in the Admin folder, which sits directly in the root |
| AdminUtilities.Utilities.constructor | Admin/Utilities.py:9-72 | the caller is empty, no folder is set, both configuration caches are empty and the log file is not valid |
| AdminUtilities.Utilities.LogStep | Admin/Utilities.py:108-139 | appends exactly one entry with the given caller, call stack, begin, parameters, parent id, severity, result and file; an empty id is replaced by a fresh one |
| AdminUtilities.Utilities.Fail | Admin/Utilities.py:99-102 | a handler returns the log form of `BuildErrorMessage` for the line the exception passed and logs it as one Error entry |
| AdminUtilities.Utilities.CreateFolder | Admin/Utilities.py:91-97 | a missing non-empty folder is created and logged as Info; a present or empty one changes nothing; a failed creation is handed back unlogged and never reads "Success"; no file changes |
| AdminUtilities.Utilities.BuildFolderPath | Admin/Utilities.py:79-106 | on success both the folder and the joined path exist; the path returned is the folder joined with the sub-folder; a failure before the join leaves `FullPath` unbound and ends with an Error entry; when both exist nothing changes and nothing is logged |
| AdminUtilities.Utilities.BuildStep | Admin/Utilities.py:329-344 | one folder step: without a raise the path is the join and its folder exists; a raise names the step's line |
| AdminUtilities.Utilities.BuildRootFolders | Admin/Utilities.py:329-330 | the root is the base joined with an empty name and Admin sits below it; a raise names line 329 or 330 |
| AdminUtilities.Utilities.BuildBronzeFolders | Admin/Utilities.py:331-334 | Bronze and its Archive, Error and Inbound folders are set below the root; a raise names a line from 331 to 334 |
| AdminUtilities.Utilities.BuildLayerFolders | Admin/Utilities.py:335-344 | a layer and its Dimensions, Error, Facts and Inbound folders are set below the root; the layer folder exists at the end; a raise names one of the five lines |
| AdminUtilities.Utilities.BuildAllFolders | Admin/Utilities.py:329-348 | without a raise the folders are exactly the layout below the base, with the three Admin files, and the log file is placed as `LayoutPlacesLog` states; a raise names a line from 329 to 344; no file changes |
| AdminUtilities.Utilities.SetGlobalVariables | Admin/Utilities.py:291-360 | records the caller; without a raise the layout is complete and the last entry is Info with the last step's result; a raise at a line from 329 to 344 ends in the unbound `FullPath` error; "Success" means the Silver folders exist; without a raise the log file is placed as `LayoutPlacesLog` states; exactly one entry of its own |
| AdminUtilities.Utilities.MoveFile | Admin/Utilities.py:141-184 | an empty source fails at line 154 and an empty target at line 155; "Success" exactly when `MoveSucceeds`: both paths are given, the missing folder of the source and then of the target can be made, the re-joined source is a file, and the re-joined target's folder then exists and the target does not; the file at the re-joined source is then renamed to the re-joined target and the folders are those `DirsAfterMove` gives; otherwise no file changes; exactly one entry |
| AdminUtilities.Utilities.MakeFolder | Admin/Utilities.py:164-165 | a folder that is given and missing is made with the folders above it exactly when no file is in their way; a folder that exists or is not given changes nothing; no file changes |
| AdminUtilities.MoveBetweenFolders | Admin/Utilities.py:158-172 | between folders that exist no folder is made, and the file moves exactly when the re-joined source is a file, the re-joined target's folder exists and the target does not |
| AdminUtilities.Utilities.ValidateColumnHeader | Admin/Utilities.py:362-403 | the result joins the extra-columns and the missing-columns messages with "; "; the issue tag names each kind found; one Error entry per kind of mismatch or one Info entry |
| AdminUtilities.Utilities.RetrieveOrCreateFile | Admin/Utilities.py:186-228 | "Success" exactly when the path is non-empty and the file reads with at least one row under the defined columns; the table is then returned and nothing changes; an empty path raises at line 197 with the table unbound; a file read as empty is emptied and fails at line 209, or fails at line 207 |
| AdminUtilities.Utilities.Open | Admin/Utilities.py:197-219 | the same for a non-empty path |
| AdminUtilities.Utilities.CheckHeader | Admin/Utilities.py:204-219 | for a file as read: "Success" exactly when it has rows and its header matches the definition, logged as Info with the path |
| AdminUtilities.Utilities.Recreate | Admin/Utilities.py:205-211 | the create branch always fails: the file is emptied and writing the list raises at line 209, or the folder step raises at line 207 |
| AdminUtilities.Utilities.Retrieve | Admin/Utilities.py:243-258 | the retrieval succeeds exactly when the file is retrievable; then the table is handed back and no file changes; the last entry carries the result |
| AdminUtilities.Utilities.RetrieveConfigurationsColumn | Admin/Utilities.py:230-258 | "Success" exactly when `ConfigurationColumn.txt` is retrievable with its eight columns; only then is the cache replaced; an empty path fails at line 245 |
| AdminUtilities.Utilities.RetrieveConfigurationsFile | Admin/Utilities.py:260-289 | "Success" exactly when `ConfigurationFile.txt` is retrievable with its six columns; only then is the cache replaced; an empty path fails at line 276 |
| AdminUtilities.Utilities.ValidateLogFile | Admin/Utilities.py:405-434 | the flag is set exactly when the result is "Success", which is exactly when `Log.txt` is retrievable with the fourteen log columns; an empty path fails at line 421 |
| AdminUtilities.Utilities.WriteToLogFile | Admin/Utilities.py:436-457 | the log path becomes `Admin/Log.txt` below the root; that file gains exactly the buffered entries ordered by `Begin`; an empty buffer or an unwritable path changes nothing; no other file changes |
| AdminUtilities.Utilities.AppendLog | Admin/Utilities.py:452-454 | the file gains exactly the buffered entries ordered by `Begin`, when the buffer has entries and the path can be written; otherwise no file changes |
| AdminRules.IngestibleIgnoresCase | Admin/LoadFileToBronze.py:190-191 | every name the root script reads is read here too, and upper-case extensions are read only here |
| AdminRules.ReplaceTrailing | Admin/LoadFileToBronze.py:197 | removing a dotted extension from a dot-free stem leaves the stem |
| AdminRules.RenamedNames | Admin/LoadFileToBronze.py:196-216 | a plain name `base.ext` becomes `base.Empty.ext` when empty and `base.InvalidColumnHeader.<issue>.ext` on a header mismatch |
| AdminRules.StampedHeader | Admin/LoadFileToBronze.py:199-205 | the stamped header keeps the file's columns first and holds exactly those and the four standard columns |
| AdminRules.StampedHeaderAppends | Admin/LoadFileToBronze.py:199-205 | a file without the standard columns gets all four after its own, in order |
| AdminRules.ExpectedHeader | Admin/LoadFileToBronze.py:207-209 | the expected header raises exactly when the configuration has no `ColumnName_File` column, with that key error |
| AdminRules.ExpectedHeaderNames | Admin/LoadFileToBronze.py:207-209 | the expected header holds no null, and holds exactly the non-null `ColumnName_File` values of the rows |
| AdminRules.BlankPathSkipped | Admin/LoadFileToBronze.py:176 | the blanked path is never a `.csv`/`.txt` name, so every file is passed over |
| AdminRules.DisposeCases | Admin/LoadFileToBronze.py:186-220 | a file is passed over exactly when its name is not `.csv`/`.txt`; a failed read fails at line 193 and a missing column at line 208; for an empty file a new name is computed and nothing moves; a non-empty file is accepted exactly when its stamped header matches, and otherwise goes to the Error folder under a name carrying the issue |
| AdminRules.StandardColumnsMustBeConfigured | Admin/LoadFileToBronze.py:199-213 | unless the configuration lists all four standard columns, every non-empty file is rejected with an `ExtraColumns` issue |
| AdminRules.ExtraIssue | Admin/Utilities.py:382-388 | with an extra column, the issue tag starts with `ExtraColumns` |
| AdminRules.FileDone | Admin/LoadFileToBronze.py:222-223 | the closing entry of a file is Info, whatever the result, and names the file |
| AdminRules.NoFilesMessage | Admin/LoadFileToBronze.py:260-265 | an empty folder's result is not "Success" and ends with the folder |
| AdminRules.ResolveSelects | Admin/LoadFileToBronze.py:275-279 | a configuration without a `Source` column fails at line 275; a source is unconfigured exactly when no file-level row names it |
| AdminRules.ResolveFirstRow | Admin/LoadFileToBronze.py:281-285 | the id and the delimiter are those of the earliest file-level row of the source |
| AdminRules.ResolveColumns | Admin/LoadFileToBronze.py:287-294 | the column rows are exactly the rows that carry the id; the source resolves exactly when some row carries it |
| AdminRules.NoFileConfigMessage | Admin/LoadFileToBronze.py:276-279 | the message of an unconfigured source is not "Success" and names the configuration file |
| AdminRules.NoColumnConfigMessage | Admin/LoadFileToBronze.py:290-293 | the message of an id without column rows is not "Success" and names the column configuration file |
| AdminRules.CreatedMessage | Admin/LoadFileToBronze.py:334-336 | the warning of a created source folder is not "Success" and ends with the folder |
| AdminRules.AllFoldersAssigned | Admin/LoadFileToBronze.py:123-124 | the choice is made exactly when the folder is empty or does not contain the root; an empty folder selects all; a full path below the root leaves it unassigned |
| AdminLoadFileToBronze.Script.constructor | Admin/LoadFileToBronze.py:78-89 | the id starts at 0, the delimiter, the folders and the cached configurations empty, and no inbound file has been found |
| AdminLoadFileToBronze.Script.LogStep | Admin/LoadFileToBronze.py:94-99 | appends exactly one entry, with this script as the caller |
| AdminLoadFileToBronze.Script.ProcessInboundFile | Admin/LoadFileToBronze.py:169-232 | the file's effect is its disposition's: passed over; for an empty file a new name is computed and nothing moves; accepted; or moved to the Error folder; an exception logs nothing; otherwise the notes are followed by one Info entry with the result and the file |
| AdminLoadFileToBronze.Script.ProcessInboundFileAsWritten | Admin/LoadFileToBronze.py:169-232 | as written: no file changes, the result is "Success" and the one entry names the empty file |
| AdminLoadFileToBronze.Script.Dispatch | Admin/LoadFileToBronze.py:186-220 | the effect is `Dispose` of the file as read, and `failed` is set exactly for an exception; only a rejected file can change the folders |
| AdminLoadFileToBronze.Script.Ingest | Admin/LoadFileToBronze.py:195-220 | for a `.csv`/`.txt` file that reads: the effect is `Dispose` of the file as read, an empty file changing nothing, and `failed` is set exactly for an exception; only a rejected file can change the folders |
| AdminLoadFileToBronze.Script.CheckHeader | Admin/LoadFileToBronze.py:199-220 | for a non-empty file, the effect is `Checked` of its stamped header, and `failed` is set exactly for an exception; the notes are those appended |
| AdminLoadFileToBronze.Script.CheckAgainst | Admin/LoadFileToBronze.py:207-220 | a failed lookup of the expected header ends the file at line 208; otherwise the effect is `Judged`; `failed` is set exactly for an exception |
| AdminLoadFileToBronze.Script.Stamp | Admin/LoadFileToBronze.py:199-205 | the header after stamping is `StampedHeader` of the file's columns |
| AdminLoadFileToBronze.Script.Validate | Admin/LoadFileToBronze.py:211-220 | the effect is `Judged`: a match changes nothing; a mismatch moves the file to the Error folder and the move's result is returned |
| AdminLoadFileToBronze.Script.ProcessOne | Admin/LoadFileToBronze.py:296-304 | the turn is `OneProcessed` for the file's disposition: a failed file stops the folder with the line 299 error and no file or log change; a file left in place (passed over, empty or accepted) is moved to Silver under its own name exactly when `MoveSucceeds` in the state the turn started from, and otherwise stops the folder with the line 304 error; a rejected file either stops the folder unmoved, or was moved to its `.InvalidColumnHeader.<Issue>` name in the source's Error folder, after which the move to Silver fails unless that name is its own; every file read and configured logs its `TurnNotes`, followed on success by the move's entry |
| AdminLoadFileToBronze.Script.FileTurned | Admin/LoadFileToBronze.py:296-304 | processing a file as its disposition says, then moving it to Silver on success, is one turn as `OneProcessed` states, its moves and its log entries included |
| AdminLoadFileToBronze.Script.RejectedTurned | Admin/LoadFileToBronze.py:213-219 | a rejected file ends unmoved with the line 299 error, or moved to its place in the Error folder with the line 304 error, or (only when that place is its own path) moved on to Silver |
| AdminLoadFileToBronze.Script.DisposeChecked | Admin/LoadFileToBronze.py:186-199 | a `.csv`/`.txt` file read as a non-empty frame is disposed of by its header check |
| AdminLoadFileToBronze.Script.Promote | Admin/LoadFileToBronze.py:301-304 | "Success" exactly when `MoveFile` of the file to the Silver folder under its own name succeeds (`MoveSucceeds`), and the file is then moved there; otherwise no file changes and the line 304 error is returned |
| AdminLoadFileToBronze.Script.ProcessFiles | Admin/LoadFileToBronze.py:295-304 | the entries listed in the state it starts from are attempted in order; step `k` of the trace is `OneProcessed` of the `k`-th entry from the state the previous step left, with the disposition the file had then; every step but the last succeeded; "Success" exactly when all entries succeed, otherwise the result of the step that stopped |
| AdminLoadFileToBronze.Script.ProcessEntries | Admin/LoadFileToBronze.py:296-304 | each listed entry is a turn as `OneProcessed` states, from the state the previous one left; the loop stops at the first result other than "Success", which it returns, and returns "Success" after the last entry |
| AdminLoadFileToBronze.Script.TurnTaken | Admin/LoadFileToBronze.py:295-304 | one more turn from the last state of the loop extends the turns taken |
| AdminLoadFileToBronze.Script.Configure | Admin/LoadFileToBronze.py:274-293 | the outcome is `Resolve`; the file rows, the id, the delimiter and the column rows are kept as they are found; nothing else changes |
| AdminLoadFileToBronze.Script.Locate | Admin/LoadFileToBronze.py:270-272 | on success the Error and Silver folders of the source are below Bronze Error and Silver Inbound; a failure names line 271 or 272; no file changes |
| AdminLoadFileToBronze.Script.ProcessSource | Admin/LoadFileToBronze.py:266-304 | as `Sourced` states: an unfound folder raises at 271 or 272 and changes no file; otherwise the Error and Silver folders are the source's and the configuration is `Resolve` of the caches; an unresolved one raises at its line and a missing one yields its message, both changing no file; a resolved one has the folder's files walked as `FilesWalked` says, from the starting files to the final state, failing exactly when the walk stopped |
| AdminLoadFileToBronze.Script.Proceed | Admin/LoadFileToBronze.py:274-304 | the resolution is `Resolve` of the caches, a missing configuration is logged as an Error, and the state then ends as `Sourced` states |
| AdminLoadFileToBronze.Script.Settle | Admin/LoadFileToBronze.py:276-304 | each kind of resolution leads to its result and effect as `Settled` states: a resolved configuration has the folder's files walked as `FilesWalked` says, with its column rows in place |
| AdminLoadFileToBronze.Script.ResolvedSettled | Admin/LoadFileToBronze.py:287-304 | a walk of the folder's files from the state the resolution left is the resolved case of `Settled` |
| AdminLoadFileToBronze.Script.MissingSettled | Admin/LoadFileToBronze.py:274-294 | an unresolved or missing configuration, with its message as the result and no file changed, is `Settled` |
| AdminLoadFileToBronze.Script.ProcessInboundFolder | Admin/LoadFileToBronze.py:234-316 | a file found is recorded exactly when the folder has entries; a path that is not a folder raises at line 260 with nothing logged; an empty folder is reported in an Info entry; otherwise the source is processed as `Entered` says |
| AdminLoadFileToBronze.Script.Report | Admin/LoadFileToBronze.py:306-307 | appends exactly one Info entry with the result |
| AdminLoadFileToBronze.Script.EnterSource | Admin/LoadFileToBronze.py:266-307 | the folder with entries ends as `Entered` says: for a resolved source, its files are walked as `FilesWalked` says, and unless the walk stopped the result is logged as Info |
| AdminLoadFileToBronze.Script.Reported | Admin/LoadFileToBronze.py:306-307 | a source processed as `Sourced` says, with its result then logged as Info unless it raised, is `Entered` |
| AdminLoadFileToBronze.Script.ValidateRootParameters | Admin/LoadFileToBronze.py:318-348 | a present or empty folder gives "Success" with one Info entry; a missing one is created and reported with the warning, or the creation raises at line 335 with nothing logged; no file changes |
| AdminLoadFileToBronze.Script.Walk | Admin/LoadFileToBronze.py:145-167 | the walk escapes exactly for an unassigned choice or an unlistable Inbound folder, processing and logging nothing; the folders processed are every Inbound entry, each once, or only the one given, each as `FolderProcessed` from the state the previous one left (`WalkedFolders`); the result is "Success" when no file was found and the last folder's result otherwise, logged as Info after the last folder's entries; the log file then ends with the sorted entries |
| AdminLoadFileToBronze.Script.Visit | Admin/LoadFileToBronze.py:148-154 | the folders walked are exactly the entries of Bronze Inbound, each once, or only the one given; step `k` of the trace is `FolderProcessed` of the `k`-th folder from the state the previous step left; an escape processes and logs nothing; the result is the last folder's |
| AdminLoadFileToBronze.Script.WalkEntries | Admin/LoadFileToBronze.py:149-151 | each listed entry, in order, is processed as a source folder from the state the previous one left, as `WalkedFolders` states; the result is the last one's |
| AdminLoadFileToBronze.Script.WalkAll | Admin/LoadFileToBronze.py:149-151 | the folders walked are exactly the entries of Bronze Inbound, each once; step `k` of the trace is `FolderProcessed` of the `k`-th from the state the previous one left, whatever that one returned; the result is the last one's |
| AdminLoadFileToBronze.Script.FolderTaken | Admin/LoadFileToBronze.py:149-151 | one more folder processed from the last state of the walk extends the walk |
| AdminLoadFileToBronze.Script.Run | Admin/LoadFileToBronze.py:101-167 | as written: the report is always the line 120 error; no file changes, the log file is never valid and nothing is walked |
| AdminLoadFileToBronze.Script.Prepare | Admin/LoadFileToBronze.py:116-143 | the settings stop at the first step that fails, and the report names its line; the folder choice is made after line 120; the log file is valid exactly when its check was reached and passed |
| AdminLoadFileToBronze.Script.Setting | Admin/LoadFileToBronze.py:119-140 | one settings step; only the log file check changes the flag, exactly to whether it succeeded |
| AdminLoadFileToBronze.Script.Configurations | Admin/LoadFileToBronze.py:130-140 | the caches and the parameters, stopping at the first step that fails, with its report |
| AdminLoadFileToBronze.Script.RunIntended | Admin/LoadFileToBronze.py:101-167 | as intended: the folders are walked exactly when the log file was validated; an unassigned choice escapes; the folders walked are every Bronze Inbound entry, each once, or only the one given, each processed as `WalkedFolders` states from the state the settings left; a walk that does not escape ends with Main's Info entry, and the log file ends with the sorted entries |
| File2Bronze.AllInboundFolders | File2Bronze.py:246-261 | all Inbound sub-folders are walked exactly when no source folder is given |
| File2Bronze.MissingNotes | File2Bronze.py:66-75 | no entry exactly when all three parameters are set; otherwise one Error entry per empty parameter, without a file |
| File2Bronze.MissingNote | File2Bronze.py:67-69 | a single check logs nothing exactly when the value is set |
| File2Bronze.LookupNote | File2Bronze.py:163-174 | a lookup logs Info exactly when it succeeds; no file is named |
| File2Bronze.HeaderChecked | File2Bronze.py:132-144 | the column lookup is logged first; the result is "Success" exactly when the file and the column configuration read and the file's header matches the configured `ColumnName_File` values; success ends with the validator's Info entry |
| File2Bronze.SuccessMeansHeaderMatches | File2Bronze.py:118-147 | a `.csv`/`.txt` file succeeds only when both configurations and the file read and its header matches; the validator's Info entry is then the last one |
| File2Bronze.HeaderMismatchIsError | File2Bronze.py:140-144 | a mismatching header yields the fixed "Error in ValidateColumnHeader" text, after at least one entry of the validator, all of them Errors |
| File2Bronze.FirstSourceRowConfigures | File2Bronze.py:126-130 | the id and the delimiter come from the earliest file-level row of the source |
| File2Bronze.NoSourceRowFails | File2Bronze.py:126-128 | a source without file-level rows logs the lookup's Info entry, then fails on the positional pick with no id and no delimiter |
| File2Bronze.HeaderCheckedRead | File2Bronze.py:132-144 | once both reads succeed: the lookup entry, then the validator's entries; a missing `ColumnName_File` column raises its key error |
| File2Bronze.FileNotes | File2Bronze.py:102-150 | every file logs at least one entry |
| File2Bronze.FolderNotes | File2Bronze.py:85-87 | a folder logs at least one entry per name |
| File2Bronze.FolderNotesStep | File2Bronze.py:85-87 | processing one more name appends that file's entries |
| File2Bronze.FileEndsWithOwnNote | File2Bronze.py:145-150 | every file ends with one entry of its own: Info with an empty `File` exactly when it was passed over or its header matched, otherwise Error with the failure and the file's path; a passed-over file logs only that entry |
| File2Bronze.Script.constructor | File2Bronze.py:246-261 | the paths are derived from the root: Inbound, both configuration files in Admin and `Admin/Log.txt`; the folder choice is `AllInboundFolders` |
| File2Bronze.Script.LogStep | File2Bronze.py:28-55 | appends exactly one entry with the given caller, call stack, begin and parameters |
| File2Bronze.Script.RetrieveConfigurationsFile | File2Bronze.py:176-198 | returns the source's rows exactly when the read succeeds, and nothing otherwise; one lookup entry |
| File2Bronze.Script.RetrieveConfigurationsColumn | File2Bronze.py:152-174 | returns the id's rows exactly when the read succeeds, and nothing otherwise; one lookup entry |
| File2Bronze.Script.ValidateColumnHeader | File2Bronze.py:200-231 | the missing-columns message overwrites the extra-columns one; each kind of mismatch is logged as an Error, a match as Info |
| File2Bronze.Script.ProcessFile | File2Bronze.py:102-150 | appends exactly `FileNotes` for the file; no file changes |
| File2Bronze.Script.Ingest | File2Bronze.py:118-144 | the result and the entries are those of `Attempted` |
| File2Bronze.Script.Check | File2Bronze.py:132-144 | the result and the entries are those of `HeaderChecked` |
| File2Bronze.Script.CheckRead | File2Bronze.py:134-144 | the same, once the column-level rows are in hand |
| File2Bronze.Script.Compare | File2Bronze.py:136-144 | a missing `ColumnName_File` column raises its key error; otherwise "Success" exactly on a match and the fixed error text on a mismatch |
| File2Bronze.Script.ProcessFolder | File2Bronze.py:82-93 | completes exactly on a directory; otherwise returns the Windows listing error, logging nothing; each listed name is processed once, in order, and the last name is kept for the report |
| File2Bronze.Script.ProcessNames | File2Bronze.py:85-87 | the entries are `FolderNotes` of the names, in order |
| File2Bronze.Script.ProcessNext | File2Bronze.py:85-87 | one more name appends its file's entries |
| File2Bronze.Script.Visit | File2Bronze.py:82-87 | a folder completes exactly when it is a directory; a listing error leaves the log and the last name alone; otherwise its distinct names are the folder's entries, the last one is kept, and the log gains exactly `FolderNotes` of those names, in order |
| File2Bronze.Script.Walk | File2Bronze.py:78-93 | completes exactly when every folder listed can be listed; the folders visited are distinct entries of the Inbound folder (all of them when it completes) or the named source folder, each with its listing; the log gains exactly the `FolderNotes` of each folder, folder after folder (`WalkNotes`); the last name taken is kept |
| File2Bronze.Script.WalkSource | File2Bronze.py:87-91 | only the named source folder is visited, once, exactly when it is a directory; the log gains its `FolderNotes` |
| File2Bronze.Script.WalkEntries | File2Bronze.py:80-86 | an unlistable Inbound folder logs nothing; otherwise its entries are visited in order, each once, until one cannot be listed |
| File2Bronze.Script.WalkList | File2Bronze.py:81-86 | the folders visited are the entries in order, all of them or up to the first that is not a directory; the log gains their `FolderNotes` in that order |
| File2Bronze.WalkNotesStep | File2Bronze.py:81-86 | walking one more folder appends exactly that folder's entries, and its last name, if any, becomes the last name taken |
| File2Bronze.VisitedStep | File2Bronze.py:81-86 | a folder listed after the folders visited extends the visited folders and their listings |
| File2Bronze.Script.LogMissing | File2Bronze.py:66-75 | a parameter is missing exactly when `MissingNotes` is not empty, and those are the entries |
| File2Bronze.Script.CheckParameter | File2Bronze.py:67-75 | a parameter is missing exactly when empty; its entry is `MissingNote` |
| File2Bronze.Script.Run | File2Bronze.py:57-100 | with a missing parameter nothing is walked and the run still ends in Info "Success"; otherwise the folders visited are those `Walked` states, the log gains their `FolderNotes` in order and then the closing entry, "Success" exactly when the walk completes, else an Error entry with the listing error and the last file name; the log file ends with the sorted entries; no other file changes |
| File2Bronze.Script.Steps | File2Bronze.py:58-98 | `Main` up to its `finally`: the same result, folders and entries, no folder visited twice |
| File2Bronze.Script.CloseUnwalked | File2Bronze.py:78-95 | with a parameter missing, the run closes with Info "Success" right after the missing-parameter entries, with no file name |
| File2Bronze.Script.WalkAndClose | File2Bronze.py:78-98 | "Success" exactly when the walk completes; the log gains the walked folders' `FolderNotes` and then the closing entry, Info, or Error with the result and the last file name |
| File2Bronze.Script.Close | File2Bronze.py:94-98 | appends exactly the closing entry |
| File2Bronze.Script.WriteToLogFile | File2Bronze.py:233-241 | the log file gains exactly the buffered entries ordered by `Begin`; an empty buffer or an unwritable path changes nothing; no other file changes |
| Utilities.Working | Utilities.py:109 | a retrieval selects from the caller's table when it has rows; otherwise from the configuration file as read, and a failed read raises its own error |
| Utilities.ColumnSelection | Utilities.py:107-112 | a failed column-level selection raises a text other than "Success" |
| Utilities.SourceSelection | Utilities.py:142-147 | a failed file-level selection raises a text other than "Success" |
| Utilities.ColumnSelectionRows | Utilities.py:107-112 | the column-level selection succeeds exactly when the working table is at hand, has a `ConfigurationFileID` column and the id converts to an integer; it then holds exactly the working table's rows with that id, as a set, under the same columns |
| Utilities.SourceSelectionRows | Utilities.py:142-147 | the file-level selection succeeds exactly when the working table is at hand and has a `Source` column; it then holds exactly the working table's rows of that source, as a set, under the same columns |
| Utilities.Handed | Utilities.py:124-126 | a retrieval hands back "Success" with both tables exactly when its `try` succeeded; otherwise the `finally` clause raises the `UnboundLocalError` of the one-file table |
| Utilities.ReadOnce | Utilities.py:108-109 | once a retrieval has returned a table with rows, passing that table back makes every later retrieval ignore the configuration file: it is read at most once per run |
| Utilities.ReturnedMeansSuccess | Utilities.py:106-164 | a retrieval that returns always reports "Success"; every failure escapes as an `UnboundLocalError` |
| Utilities.LogHeader | Utilities.py:14-29 | the log file's header line holds one field per log column, in order |
| Utilities.CreatedAsWritten | Utilities.py:226-228 | the create branch as written leaves the log file empty and no other file changed |
| Utilities.CreatedIntended | Utilities.py:226-227 | the create branch as intended leaves the header line only and no other file changed |
| Utilities.CreatedLogFileNeverValid | Utilities.py:224-237 | a log file created as written reads as "No columns to parse from file", so it never validates |
| Utilities.CreatedLogFileValid | Utilities.py:224-237 | a log file created with its header line reads as the log columns with no rows, and validates |
| Utilities.ValidIffSameNames | Utilities.py:232-237 | the log file is valid exactly when it reads and its header holds the log columns' names, in any order |
| Utilities.Utilities.constructor | Utilities.py:9-13 | starts with no log path and the log marked not valid |
| Utilities.Utilities.LogStep | Utilities.py:34-64 | appends exactly one entry with the module as caller and the given stack, begin, parameters and parent; an empty id is replaced by a fresh one |
| Utilities.Utilities.MoveFile | Utilities.py:66-94 | "Success" exactly when the source file exists, the target's folder exists and the target does not; the file then moves, otherwise nothing changes; one entry either way |
| Utilities.Utilities.RetrieveConfigurationsColumn | Utilities.py:96-126 | hands back `ColumnSelection` of the caller's table and the file as `Handed` states, and logs one entry of its outcome |
| Utilities.Utilities.RetrieveConfigurationsFile | Utilities.py:128-164 | hands back `SourceSelection` of the caller's table and the file as `Handed` states, and logs one entry of its outcome |
| Utilities.Utilities.LogSelection | Utilities.py:114-119 | one entry: Info "Success", or Error with the exception's text |
| Utilities.Utilities.WorkingTable | Utilities.py:109 | the caller's table, or the configuration file read afresh when it has no rows |
| Utilities.Utilities.ValidateColumnHeader | Utilities.py:166-206 | the missing-columns message overwrites the extra-columns one; each kind of mismatch is logged as an Error, a match as Info |
| Utilities.Utilities.ValidateLogFile | Utilities.py:208-254 | the log path is `Admin/Log.txt` below the root; a missing log file is created and the step fails with its folder made, leaving the flag alone, and when its folder tree exists the file is left as `CreatedAsWritten` says; an existing one is read, the flag set to whether its header matches, and the outcome logged as Info with the path; a read failure is logged as an Error |
| Utilities.Utilities.CreateLogFile | Utilities.py:226-228 | the create branch never succeeds; it leaves the log file as `CreatedAsWritten` says, or no file changed; when the folder and the folders above it exist, it always gets as far as `CreatedAsWritten` and the `write` error |
| Utilities.Utilities.CreateLogFileIntended | Utilities.py:226-229 | the create branch as intended: either the header line is written and the warning returned, or it fails changing no file; when the folder and the folders above it exist it succeeds |
| Utilities.Utilities.WriteHeader | Utilities.py:227 | on success the file holds exactly the header line; on failure no file changes; it succeeds exactly when the path is not a folder and its folder exists |
| Utilities.Utilities.CheckLogFile | Utilities.py:231-240 | a failed read is logged as an Error with the flag unchanged; otherwise the result is the header comparison, the flag says whether it is "Success", and the validator's entries are followed by an Info entry naming the log file |
| Utilities.Utilities.WriteToLogFile | Utilities.py:256-264 | the log file gains exactly the buffered entries ordered by `Begin`; an empty buffer or an unwritable path changes nothing; no other file changes |
| Headers.ExtraColumns | LoadFileToBronze.py:514-515 | exactly the actual names that are not expected |
| Headers.MissingColumns | LoadFileToBronze.py:517-518 | exactly the expected names that are not present |
| Headers.Names | Utilities.py:233 | a header as a list holds one cell per column name, in order |
| Headers.Render | LoadFileToBronze.py:521-524 | the text of a list is bracketed |
| Headers.RenderShort | LoadFileToBronze.py:521-524 | the empty list is shown as `[]`, and a one-element list as the element's text in brackets |
| Headers.RenderSnoc | LoadFileToBronze.py:521-524 | one more element is shown just before the closing bracket, after ", " unless the list was empty; with `RenderShort` this gives the text of every list |
| Text.JoinWithSnoc | LoadFileToBronze.py:521-524 | joining one more part puts it last, after the separator unless it is the only part |
| Headers.OverwritingResult | LoadFileToBronze.py:502-542 | "Success" exactly when nothing is extra and nothing is missing |
| Headers.OverwritingNotes | LoadFileToBronze.py:520-528 | the comparison logs one or two entries |
| Headers.JoinedResult | Admin/Utilities.py:362-403 | "Success" exactly when nothing is extra and nothing is missing |
| Headers.JoinedIssue | Admin/Utilities.py:382-388 | the issue is one of "", "ExtraColumns", "MissingColumns" or "ExtraColumns.MissingColumns", and empty exactly on a match |
| Headers.JoinedNotes | Admin/Utilities.py:382-393 | the comparison logs one or two entries |
| Headers.MessagesAreNotSuccess | LoadFileToBronze.py:521-524 | neither mismatch message, nor anything ending in the missing-columns message, can be mistaken for "Success" |
| Headers.MatchesIffSameNames | LoadFileToBronze.py:514-527 | a header matches exactly when it holds the same names as the expected one |
| Headers.OrderIrrelevant | LoadFileToBronze.py:514-527 | reordering the header never changes whether it matches, in either variant |
| Headers.OverwritingBoth | LoadFileToBronze.py:520-525 | with both extra and missing names, the missing-columns message overwrites the other, and both are logged as Errors in that order |
| Headers.SuccessLogsOneInfo | LoadFileToBronze.py:526-528 | a match logs exactly one Info "Success" entry, in either variant |
| Headers.MismatchLogsErrors | LoadFileToBronze.py:520-525 | a mismatch logs only Error entries, in either variant |
| Headers.JoinedMissingOnly | Admin/Utilities.py:386-390 | with only missing names, the joined result still starts with "Success; " and the issue is "MissingColumns" |
| Headers.JoinedBoth | Admin/Utilities.py:382-390 | with both kinds, the joined result holds both messages separated by "; " and the issue is "ExtraColumns.MissingColumns" |
| Headers.IssueAgreesWithResult | Admin/Utilities.py:382-392 | the issue is empty exactly when the result is "Success" |
| Headers.ExampleMismatch | LoadFileToBronze.py:514-524 | a header `Date, Memo` against `Date, Note` has `Memo` extra and `Note` missing, rendered `['Note']` |
| Frames.RenameColumns | LoadFileToBronze.py:126 | a mapped column takes its new name; every other column keeps its own; the count is unchanged |
| Frames.LastIndices | LoadFileToBronze.py:129 | the positions of last occurrences, all of them, ascending |
| Frames.KeepLast | LoadFileToBronze.py:129 | removing duplicates never adds rows |
| Frames.LastOccurrence | LoadFileToBronze.py:129 | every row has a last occurrence at or after it |
| Frames.NoDuplicatesAfterKeepLast | LoadFileToBronze.py:129 | after removing duplicates no row occurs twice |
| Frames.KeepLastSameRows | LoadFileToBronze.py:129 | removing duplicates keeps every distinct row and adds none |
| Frames.KeepLastIsLastOccurrences | LoadFileToBronze.py:129 | the rows kept are exactly the last occurrences, in their original order |
| Frames.WithName | Admin/LoadFileToBronze.py:200-203 | setting a column adds its name at the end unless already present, keeping the others in order |
| Frames.WithColumn | Admin/LoadFileToBronze.py:200-203 | setting a column fills it with the value in every row and leaves every other cell alone |
| Frames.DataFrame.constructor | LoadFileToBronze.py:343 | holds the columns and rows given |
| Frames.DataFrame.Rename | LoadFileToBronze.py:126 | renames in place as `RenameColumns` states; rows unchanged |
| Frames.DataFrame.DropDuplicatesKeepLast | LoadFileToBronze.py:129 | keeps in place the last occurrences as `KeepLast` states; columns unchanged |
| Frames.DataFrame.SetColumn | Admin/LoadFileToBronze.py:200-203 | sets a column in place as `WithColumn` states |
| Bronze.ColumnMapping | LoadFileToBronze.py:125 | every renamed column is a configured file column name; pairs whose file or Bronze name is null are dropped |
| Bronze.MappingLastWins | LoadFileToBronze.py:125 | a configured file column name maps to its Bronze name on its last configuration row |
| Bronze.UnlistedColumnKeepsName | LoadFileToBronze.py:125-126 | a column that is not configured keeps its name |
| Bronze.SharedColumns | LoadFileToBronze.py:132 | the merge keys are exactly the columns both frames have |
| Bronze.RightOnly | LoadFileToBronze.py:132 | the Bronze-only columns are exactly those the new records lack |
| Bronze.Unmatched | LoadFileToBronze.py:132 | exactly the new records whose key is in no Bronze record |
| Bronze.AntiJoin | LoadFileToBronze.py:132 | fails with the merge error exactly when no column is shared; otherwise the unmatched new records, widened by the Bronze-only columns filled with nulls |
| Bronze.AntiJoinNoMatch | LoadFileToBronze.py:132 | no record kept agrees with a Bronze record on the shared columns |
| Bronze.AntiJoinKeepsUnmatched | LoadFileToBronze.py:132 | every new record that agrees with no Bronze record is kept |
| Bronze.ToCopyRows | LoadFileToBronze.py:119-134 | into an empty Bronze file: the renamed columns and every distinct valid record once; into a non-empty one: fails exactly for want of shared columns, and no copied record is already in Bronze |
| Config.SheetOf | Utilities.py:109 | a read frame as a table keeps its columns and row count |
| Config.SelectBySource | Utilities.py:147 | fails with a key error exactly when there is no `Source` column; otherwise exactly the rows of that source, as a set, under the same columns |
| Config.SelectById | Utilities.py:112 | fails with a key error without a `ConfigurationFileID` column and with the conversion's error when the id is not an integer; otherwise exactly the rows with that id, as a set |
| Config.Pick | File2Bronze.py:128-130 | a key error without the column; the out-of-bounds error on no rows; otherwise the first row's cell |
| Config.Column | File2Bronze.py:137-138 | a key error exactly without the column; otherwise its cells, one per row, in order |
| Config.SourceRowIsFirst | File2Bronze.py:126-130 | the pick after selecting a source reads the source's earliest row |
| Config.SelectionComplete | Utilities.py:147 | every row of the source is selected |
| Tables.Where | LoadFileToBronze.py:482-483 | exactly the rows with the value in the column, as a set |
| Tables.WhereConcat | LoadFileToBronze.py:482-483 | selection keeps table order: the rows selected from two tables, one after the other, are the two selections one after the other |
| Tables.WhereInt | LoadFileToBronze.py:447-448 | exactly the rows whose cell is that integer, as a set |
| Tables.ColumnValues | LoadFileToBronze.py:125 | one cell per row, in order |
| Tables.FirstCell | LoadFileToBronze.py:333-336 | fails with the out-of-bounds error exactly on no rows |
| Tables.IntOf | LoadFileToBronze.py:448 | an integer only for a cell whose text parses as one |
| Tables.FirstMatchIsEarliest | LoadFileToBronze.py:333-336 | the first cell of a selection comes from the earliest matching row |
| Tables.NoMatchRaises | LoadFileToBronze.py:333-336 | a selection with no match makes the pick fail |
| Logging.Entry | LoadFileToBronze.py:154-182 | an entry always has an id: the one given or, when empty, a fresh one; severity, result and file as given |
| Logging.EntryCells | LoadFileToBronze.py:637 | an entry becomes one cell per log column, id first and `Begin` third |
| Logging.Environment.constructor | LoadFileToBronze.py:154-160 | the clock and the id generator start at zero |
| Logging.Environment.Now | LoadFileToBronze.py:158 | each reading of the clock advances it by one and issues no id |
| Logging.Environment.NewGuid | LoadFileToBronze.py:159 | each new id is non-empty and advances the generator by one |
| Logging.LogBuffer.constructor | LoadFileToBronze.py:76 | the buffer starts empty |
| Logging.LogBuffer.Append | LoadFileToBronze.py:177 | appends exactly the entry |
| Logging.Record | LoadFileToBronze.py:154-182 | appends exactly one entry with the clock's reading as `End` and a fresh id only when none is given |
| Logging.Outcome | Utilities.py:80-87 | an outcome is Info exactly when its result is "Success" |
| Logging.Insert | LoadFileToBronze.py:636 | inserting adds exactly the entry |
| Logging.InsertSorted | LoadFileToBronze.py:636 | inserting into an ordered log keeps it ordered by `Begin` |
| Logging.SortByBegin | LoadFileToBronze.py:636 | the entries ordered by `Begin`, a permutation of the buffer |
| Logging.InsertStable | LoadFileToBronze.py:636 | an inserted entry goes after every entry that begins at the same time, and the others with that `Begin` keep their order |
| Logging.SortStable | LoadFileToBronze.py:636 | the entries that begin at the same time come out in the order they were logged |
| Logging.StampOrder | LoadFileToBronze.py:636 | for readings below 10^20, one stamp sorts no later than another exactly when its reading is no later |
| Logging.DigitsOrder | LoadFileToBronze.py:636 | zero-padded numerals of the same width compare as texts exactly as the numbers compare |
| Logging.SortedPairwise | LoadFileToBronze.py:636 | in the ordered log every earlier entry begins no later than every later one |
| Logging.EntryRecords | LoadFileToBronze.py:637 | one record per entry, in order |
| Files.Parse | LoadFileToBronze.py:121 | an empty file has no columns to parse; otherwise the first line names the columns, a longer line fails, and each shorter one is padded with nulls |
| Files.ParseAppend | LoadFileToBronze.py:135 | appending records to a file that parses adds exactly those rows |
| Files.CsvAt | Utilities.py:232 | reads the file at the path, and fails where there is none |
| Files.FileSystem.constructor | LoadFileToBronze.py:53-76 | holds the files and folders given |
| Files.FileSystem.ReadCsv | LoadFileToBronze.py:121 | a missing path fails with the not-found error; a file is parsed |
| Files.FileSystem.ListDir | LoadFileToBronze.py:246 | a folder lists its entries, each once; a file fails with WinError 267, a missing path with WinError 3 |
| Files.FileSystem.Rename | LoadFileToBronze.py:284 | the file moves exactly when the source file exists, the target's folder exists and the target does not; the WinError 2, 3 or 183 otherwise, changing nothing |
| Files.FileSystem.AppendRecords | LoadFileToBronze.py:135 | the file gains exactly the records, created when missing, unless the path is a folder or its folder is missing |
| Files.FileSystem.MakeDirs | Admin/Utilities.py:91-97 | the folder and its missing ancestors are made, or nothing changes |
| Files.FileSystem.Mkdir | LoadFileToBronze.py:609-612 | one folder is made exactly when absent and its parent exists; otherwise nothing changes |
| Files.FileSystem.Truncate | Utilities.py:228 | opening for writing empties the file, or fails on a folder or a missing parent, changing nothing |
| Files.FileSystem.TreeFree | Utilities.py:226 | on a valid file system, `os.makedirs(..., exist_ok = True)` of a folder whose tree exists meets no file in its way |
| Paths.Join | LoadFileToBronze.py:212-218 | the joined path ends with the name |
| Paths.JoinSplit | LoadFileToBronze.py:319 | a name joined to a folder splits back into that folder and that name |
| Paths.SplitExt | Admin/LoadFileToBronze.py:188 | a name's stem and extension put together give the name back |
| Paths.SplitExtOfName | Admin/LoadFileToBronze.py:188 | the extension is the last dot and what follows it |
| Text.DropChar | LoadFileToBronze.py:326 | the character is gone and every other one kept |
| Text.ReplaceCharIsDrop | LoadFileToBronze.py:326 | replacing a character by nothing drops it |
| Text.ReplaceLeading | LoadFileToBronze.py:325 | a leading occurrence of the pattern is replaced |
| Text.ReprOfPlain | LoadFileToBronze.py:521-524 | a name without quotes or escapes is shown in single quotes |
| Text.UnboundLocal | Utilities.py:124-126 | the unbound-local error is never "Success" |

## Left out

- Console output: every `print` and the printed error reports. Where a report is the only outcome of a failure, it is returned as a value (`AdminLoadFileToBronze.Script.Run`).
- Time: `datetime.now()` is a counter in `Logging.Environment`, and a reading is rendered as a zero-padded numeral of 20 digits, not as `%Y-%m-%d %H:%M:%S.%f`. Like that format, it sorts as text in the order of the readings (`Logging.StampOrder`); readings from 10^20 on wrap around.
- Logging.SortByBegin: entries with the same `Begin` keep the order in which they were logged (`Logging.SortStable`). pandas's `sort_values` uses quicksort by default, which does not promise any order for such entries.
- Identifiers: `uuid.uuid4()` is a numbered generator that never returns an empty text. It is not random.
- Delimiters: each file's content is held as records that are already split. The configured `Delimiter` is picked and checked for presence, but it is not applied to the text. Quoting, escapes, type inference and `quoting = csv.QUOTE_NONE` are not modelled.
- Numbers: configuration cells are text, and `int(...)` is `Text.ParseInt` on decimal digits with an optional sign. pandas's numeric columns and the rendering of numpy integers in `str(...)` are not modelled.
- Utilities.Utilities.WriteToLogFile: the delimiter is fixed at `|` (`DelimiterDefault`). The delimiter parameter of `Utilities.py`'s `WriteToLogFile` is not modelled, because no script in the repository calls that function.
- The file system is a single process's view. Concurrent changes, permissions other than a path being a folder, and drive letters are not modelled. Windows error texts are modelled for `os.listdir` and `os.rename` only.
- Bronze.ColumnMapping: a configuration row whose `ColumnName_File` or `ColumnName_Bronze` is null (NaN) is dropped from the rename map, and so from `CopyPlan` and `ToCopyRows`. `dict(zip(...))` at LoadFileToBronze.py:125 keeps such a pair, so pandas would rename that column to NaN, or overwrite an earlier pair for the same name. Column names are texts in this model, so a NaN name cannot be represented.
- Utilities.Utilities.CreateLogFile: the success of the folder step is promised when the folder and every folder above it exist, not when only the folder exists. The model's folders need not be closed under their parents, while a real disk's are.
- Bronze.AntiJoin: the order of the rows appended to Bronze is not modelled. The model keeps the order of the new records, while pandas's outer merge at LoadFileToBronze.py:132 sorts on the join keys, and how it does so depends on the pandas version.
- Files.FileSystem: paths are compared exactly. Windows compares paths without regard to letter case, so two paths that differ only in case name the same file there but different files in the model.
- Fresh process: each script's `Run` starts from the state a new Python process has. The log buffer may already hold entries, but the Admin script requires that the log file was not yet validated (`!isValidLogFile`).
- AdminLoadFileToBronze.Script.Stamp: the time stamped into `IngestDatetime` is a parameter, not a reading of the clock.
- Admin call plumbing that cannot work as written is modelled by what it evidently computes, with the as-written consequence stated where it is observable:
  - the unpack orders at Admin/LoadFileToBronze.py lines 127, 131, 135, 213, 220 and 271-272;
  - the calls of `ProcessInboundFolder` at lines 151 and 154, which pass three arguments to a function of four and so raise a `TypeError`; the model passes the folder's own name as `Source`;
  - the path at line 297, which joins the source name twice (`FullPath_Bronze_Inbound_CurrentSource`, then `Source`, then the file name); the model reads the file at the source folder joined with the file name;
  - the `LogStep` calls with one positional argument too many at lines 163, 227, 311 and 343;
  - `os.listdir(Source)` at line 296, which lists the source name rather than the source folder.
  Lines 119 and 176 are modelled both ways (see Findings).
- Utilities.Utilities.RetrieveConfigurationsColumn: a failure is modelled as the `UnboundLocalError` that escapes from `finally`. The error text it would otherwise return is never produced.
- Utilities.Utilities.RetrieveConfigurationsFile: the same as the column-level retrieval.
- File2Bronze: the module-level lines marked as testing aids (lines 13-15 and 263-274) only print, and are left out. Running `File2Bronze.py` with a source that contains the root leaves `AllInboundFolders` at its initial `False` (line 246), as modelled.
- Files.FileSystem.Rename: only a file can be renamed. `os.rename` also moves a folder with everything below it, but here a folder source fails with WinError 2 and nothing changes. The model's folders need not be closed under their parents, so a folder move could not be stated without clashing with folders already below the target.
- Utilities.Utilities.MoveFile: "Success" is promised exactly when the source file exists. A source that is a folder fails, where `os.rename` at Utilities.py:77 would move it.
- AdminUtilities.Utilities.MoveFile: the same as `Files.FileSystem.Rename`: a folder source fails at line 172, where `os.rename` would move it.
- AdminLoadFileToBronze.Script.ProcessOne: a sub-folder of a source folder is listed by `os.listdir`, passed over by `ProcessInboundFile` (it is not `.csv`/`.txt`), and then moved to Silver by the script (Admin/LoadFileToBronze.py:301-304), which goes on with the next entry. In the model the move fails, so the sub-folder stops the folder with the line 304 error, and the entries after it are not processed (`ProcessFiles`, `ProcessEntries`, `Walk`, `RunIntended`). `AdminLoadFileToBronze.Script.Promote` fails on such an entry for the same reason.
- Text.Repr: escapes backslashes, the quote, newlines, carriage returns and tabs. Other non-printable characters are not escaped.
- Headers.Render: its contract states only the bracketed shape. The exact text is stated for every list by `Headers.RenderShort` and `Headers.RenderSnoc`.
- Paths.Join: its contract states only that the name ends the path. The full behaviour is stated by `Paths.JoinSplit`.
- Frames.KeepLast: its contract states only the bound on length. The rows kept are stated by `Frames.KeepLastIsLastOccurrences`, `Frames.KeepLastSameRows` and `Frames.NoDuplicatesAfterKeepLast`.
- AdminLoadFileToBronze.Script.Run: states that the log buffer grows, not which entries `SetGlobalVariables` records, since they are never written to the log file.

## Findings

| source | as written | input that shows it | evidently intended | confidence | as-written member | corrected member |
|---|---|---|---|---|---|---|
| Admin/LoadFileToBronze.py:119 | the returned pair is unpacked as entries, then result, so the result test at line 120 always raises and the walk never runs | any root folder, even one whose configuration and log files are valid | take the result of `SetGlobalVariables` as it returns it, and walk the Inbound folders once the log file is validated | not executed | AdminLoadFileToBronze.Script.Run | AdminLoadFileToBronze.Script.RunIntended |
| Admin/LoadFileToBronze.py:176 | `InboundFile` is set to '' before its use, so no file is ever `.csv` or `.txt` | a file `a.csv` in an Inbound source folder | process the file at the path the caller passed | not executed | AdminLoadFileToBronze.Script.ProcessInboundFileAsWritten | AdminLoadFileToBronze.Script.ProcessInboundFile |
| Utilities.py:228 | the second `open(..., 'w')` empties the log file just given its header line, and the `write` of a list raises | a root whose `Admin/Log.txt` does not exist | write the header line only, return the warning and go on validating | not executed | Utilities.CreatedLogFileNeverValid | Utilities.CreatedLogFileValid |
