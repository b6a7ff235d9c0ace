/** The file system the scripts work on: delimited files (already split into records, the
    first record being the header line) and directories, under Windows error semantics for
    `os.rename`, `os.listdir`, `os.mkdir`, `os.makedirs`, `open(..., 'w')`, `pandas.read_csv`
    and `DataFrame.to_csv(mode = 'a')`. */
module Files {
  import opened Wrappers
  import opened Text
  import opened Paths
  import opened Tables
  import opened Logging

  type Content = seq<Record>

  /** `read_csv` names an empty header field `Unnamed: <position>`. */
  function HeaderName(c: Cell, i: nat): string {
    match c
    case Null => "Unnamed: " + Decimal(i)
    case Value(s) => s
  }

  function HeaderNames(rec: Record): (r: seq<string>)
    ensures |r| == |rec|
  {
    seq(|rec|, i requires 0 <= i < |rec| => HeaderName(rec[i], i))
  }

  /** A short record is filled up with null cells. */
  function Pad(rec: Record, width: nat): (r: Record)
    requires |rec| <= width
    ensures |r| == width && r[..|rec|] == rec
    ensures forall i :: |rec| <= i < width ==> r[i] == Null
  {
    rec + seq(width - |rec|, _ => Null)
  }

  /** Index of the first record wider than the header. */
  function FirstTooLong(rows: seq<Record>, width: nat): (r: Option<nat>)
    ensures r.Some? ==> r.value < |rows| && |rows[r.value]| > width
    ensures r.Some? ==> forall j :: 0 <= j < r.value ==> |rows[j]| <= width
    ensures r.None? ==> forall j :: 0 <= j < |rows| ==> |rows[j]| <= width
  {
    if rows == [] then None
    else if |rows[0]| > width then Some(0)
    else match FirstTooLong(rows[1..], width)
      case None => None
      case Some(k) => Some(k + 1)
  }

  function TokenizingError(width: nat, line: nat, seen: nat): (r: string)
    ensures r != ResultSuccess
  {
    var head := "Error tokenizing data. C error: Expected ";
    var r := head + (Decimal(width) + " fields in line " + Decimal(line) + ", saw " + Decimal(seen) + "\n");
    assert r[0] == head[0];
    r
  }

  /** `pandas.read_csv` on a file's records. */
  function Parse(content: Content): (r: Result<Frame>)
    ensures content == [] ==> r == Raised("No columns to parse from file")
    ensures r.Raised? ==> r.error != ResultSuccess
    ensures r.Ok? ==> WellFormed(r.value)
    ensures r.Ok? ==> |r.value.columns| == |content[0]| && |r.value.rows| == |content| - 1
    ensures r.Ok? ==> forall i :: 1 <= i < |content| ==> |content[i]| <= |content[0]|
    ensures r.Ok? ==> forall i :: 1 <= i < |content| ==> r.value.rows[i - 1][..|content[i]|] == content[i]
    ensures r.Raised? && content != [] ==> exists i :: 1 <= i < |content| && |content[i]| > |content[0]|
  {
    if content == [] then Raised("No columns to parse from file")
    else
      var width := |content[0]|;
      match FirstTooLong(content[1..], width)
      case Some(k) => Raised(TokenizingError(width, k + 2, |content[k + 1]|))
      case None =>
        Ok(Frame(HeaderNames(content[0]),
                 seq(|content| - 1, i requires 0 <= i < |content| - 1 => Pad(content[i + 1], width))))
  }

  /** Records of exactly the header's width appended to a readable file are read back after
      the old rows, which are unchanged. */
  lemma ParseAppend(content: Content, recs: seq<Record>)
    requires Parse(content).Ok?
    requires forall i :: 0 <= i < |recs| ==> |recs[i]| == |Parse(content).value.columns|
    ensures Parse(content + recs).Ok?
    ensures Parse(content + recs).value.columns == Parse(content).value.columns
    ensures Parse(content + recs).value.rows == Parse(content).value.rows + recs
  {
    var c := content + recs;
    var width := |content[0]|;
    assert c[1..] == content[1..] + recs;
    var old_ := Parse(content).value;
    assert FirstTooLong(content[1..], width).None?;
    assert forall j :: 0 <= j < |c[1..]| ==> |c[1..][j]| <= width by {
      forall j | 0 <= j < |c[1..]| ensures |c[1..][j]| <= width {
        if j < |content| - 1 {
          assert c[1..][j] == content[1..][j];
        } else {
          assert c[1..][j] == recs[j - (|content| - 1)];
        }
      }
    }
    assert FirstTooLong(c[1..], width).None?;
    var n := Parse(c).value;
    assert |n.rows| == |old_.rows| + |recs|;
    forall i | 0 <= i < |n.rows| ensures n.rows[i] == (old_.rows + recs)[i] {
      if i < |old_.rows| {
        assert n.rows[i] == Pad(content[i + 1], width);
      } else {
        assert n.rows[i] == Pad(recs[i - |old_.rows|], width);
      }
    }
  }

  /** What `f.write` raises when handed the list of column names instead of a string. */
  const WriteListError: string := "write() argument must be str, not list"

  function NotFound(p: string): (r: string)
    ensures r != ResultSuccess
  {
    var r := "[Errno 2] No such file or directory: " + Repr(p);
    assert r[0] != ResultSuccess[0];
    r
  }

  function Denied(p: string): (r: string)
    ensures r != ResultSuccess
  {
    var r := "[Errno 13] Permission denied: " + Repr(p);
    assert r[0] != ResultSuccess[0];
    r
  }

  function WinError(code: string, text: string, p: string): (r: string)
    ensures r != ResultSuccess
  {
    var r := "[WinError " + code + "] " + text + ": " + Repr(p);
    assert r[0] != ResultSuccess[0];
    r
  }

  function WinError2(code: string, text: string, src: string, tgt: string): (r: string)
    ensures r != ResultSuccess
  {
    var r := "[WinError " + code + "] " + text + ": " + Repr(src) + " -> " + Repr(tgt);
    assert r[0] != ResultSuccess[0];
    r
  }

  const FileNotFoundText := "The system cannot find the file specified"
  const PathNotFoundText := "The system cannot find the path specified"
  const AlreadyExistsText := "Cannot create a file when that file already exists"
  const InvalidDirectoryText := "The directory name is invalid"

  /** The folders above `p`, nearest first, as `os.makedirs` creates them. */
  function AncestorsOf(p: string): set<string>
    decreases |p|
  {
    var d := DirName(p);
    if d == [] || |d| >= |p| then {} else {d} + AncestorsOf(d)
  }

  /** The folder a path names: trailing separators do not matter (`C:\R\` is `C:\R`). */
  function DirKey(p: string): string {
    if TrimSeps(p) == [] then p else TrimSeps(p)
  }

  /** `os.path.dirname` already names a folder the way `DirKey` spells it. */
  lemma DirNameIsKey(s: string)
    ensures DirKey(DirName(s)) == DirName(s)
  {
    var head := s[..TailStart(s)];
    if TrimSeps(head) != [] {
      var t := TrimSeps(head);
      assert TrimSeps(t) == t;
    }
  }

  /** A file at `p` sits in an existing folder and is not itself a folder. */
  predicate Placed(dirs: set<string>, p: string) {
    p !in dirs && DirKey(p) !in dirs && (DirName(p) == [] || DirName(p) in dirs)
  }

  /** The file at `p` does not occupy the folder name `a`. */
  predicate Apart(p: string, a: string) {
    p != a && DirKey(p) != a
  }

  /** The files after the one at `src` is renamed to `tgt`. */
  function Moved(files: map<string, Content>, src: string, tgt: string): map<string, Content>
    requires src in files
  {
    files - {src} + map[tgt := files[src]]
  }

  /** The file content ends with the given records. */
  predicate EndsWithRecords(c: Content, recs: seq<Record>) {
    |recs| <= |c| && c[|c| - |recs|..] == recs
  }

  /** Updating one path of a file map leaves every other path as it was. */
  lemma UpdateElsewhere(m: map<string, Content>, p: string, v: Content)
    ensures m[p := v] - {p} == m - {p}
  {
  }

  /** `pandas.read_csv(p)` on the files `files` and the folders `dirs`: a file parses, a
      folder is denied, anything else is not found. */
  function CsvAt(files: map<string, Content>, dirs: set<string>, p: string): (r: Result<Frame>)
    ensures p in files ==> r == Parse(files[p])
    ensures p !in files ==> r.Raised?
    ensures r.Raised? ==> r.error != ResultSuccess
    ensures r.Ok? ==> WellFormed(r.value)
  {
    if p in files then Parse(files[p])
    else if p in dirs || DirKey(p) in dirs then Raised(Denied(p))
    else Raised(NotFound(p))
  }

  /** No file of `files` occupies the folder name `a`, in any spelling. */
  predicate FreeIn(files: map<string, Content>, a: string) {
    forall p {:trigger Apart(p, a)} :: p in files ==> Apart(p, a)
  }

  /** `os.makedirs(d, exist_ok = True)` can make `d` and the folders above it: no file is in
      the way of any of them. */
  predicate Makeable(files: map<string, Content>, d: string) {
    d != [] && d !in files && FreeIn(files, DirKey(d))
    && forall a :: a in AncestorsOf(DirKey(d)) ==> FreeIn(files, a)
  }

  /** `os.path.exists(p)` on the files `files` and the folders `dirs`. */
  predicate PresentIn(files: map<string, Content>, dirs: set<string>, p: string) {
    p in files || p in dirs || DirKey(p) in dirs
  }

  /** The folder a new entry at `p` would go into is one of `dirs`. */
  predicate ParentIn(dirs: set<string>, p: string) {
    DirName(p) == [] || DirName(p) in dirs
  }

  /** The names of the files `files` and folders `dirs` directly inside `p`. */
  function ListingOf(files: map<string, Content>, dirs: set<string>, p: string): set<string> {
    set q | q in files.Keys + dirs && q != p && DirName(q) == p :: BaseName(q)
  }

  class FileSystem {
    var files: map<string, Content>
    var dirs: set<string>

    constructor(files0: map<string, Content>, dirs0: set<string>)
      ensures files == files0 && dirs == dirs0
    {
      files := files0;
      dirs := dirs0;
    }

    /** What holds of every real file system: a file sits in an existing folder and no path
        is both a file and a folder. Every operation below keeps it. */
    predicate Valid()
      reads this
    {
      forall p {:trigger Placed(dirs, p)} :: p in files ==> Placed(dirs, p)
    }

    /** No file occupies the folder name `a`, in any spelling. */
    predicate FreeForDir(a: string)
      reads this
    {
      FreeIn(files, a)
    }

    /** `os.path.isdir`. */
    predicate IsDir(p: string)
      reads this
    {
      p in dirs || DirKey(p) in dirs
    }

    /** `os.path.exists`. */
    predicate Exists(p: string)
      reads this
    {
      PresentIn(files, dirs, p)
    }

    /** The folder a new entry at `p` would go into exists. */
    predicate ParentExists(p: string)
      reads this
    {
      ParentIn(dirs, p)
    }

    /** The folder `d` exists, and so does every folder above it, as on a real disk. */
    predicate FolderTree(d: string)
      reads this
    {
      d != [] && DirKey(d) in dirs && AncestorsOf(DirKey(d)) <= dirs
    }

    /** On a valid file system no file occupies the name of an existing folder, so
        `os.makedirs(d, exist_ok = True)` succeeds on a folder tree that is already there. */
    lemma TreeFree(d: string)
      requires Valid() && FolderTree(d)
      ensures d !in files && FreeForDir(DirKey(d))
      ensures forall a :: a in AncestorsOf(DirKey(d)) ==> FreeForDir(a)
    {
      assert d in files ==> Placed(dirs, d);
      forall a, q | a in dirs && q in files ensures Apart(q, a) {
        assert Placed(dirs, q);
      }
    }

    /** `pandas.read_csv(p)`. */
    function ReadCsv(p: string): (r: Result<Frame>)
      reads this
      ensures !Exists(p) ==> r == Raised(NotFound(p))
      ensures p in files ==> r == Parse(files[p])
      ensures p !in files ==> r.Raised?
      ensures r.Raised? ==> r.error != ResultSuccess
      ensures r.Ok? ==> WellFormed(r.value)
    {
      CsvAt(files, dirs, p)
    }

    /** The names `os.listdir(p)` reports: files and folders directly inside `p`. */
    function Listing(p: string): set<string>
      reads this
    {
      ListingOf(files, dirs, p)
    }

    /** `os.listdir(p)`: every name in the folder once, in an order the model leaves open. */
    method ListDir(p: string) returns (r: Result<seq<string>>)
      ensures !IsDir(p) && p in files ==> r == Raised(WinError("267", InvalidDirectoryText, p))
      ensures !IsDir(p) && p !in files ==> r == Raised(WinError("3", PathNotFoundText, p))
      ensures IsDir(p) ==> r.Ok?
      ensures r.Raised? ==> r.error != ResultSuccess
      ensures r.Ok? ==> (forall n :: n in r.value <==> n in Listing(DirKey(p)))
      ensures r.Ok? ==> forall i, j :: 0 <= i < j < |r.value| ==> r.value[i] != r.value[j]
    {
      if !IsDir(p) {
        if p in files {
          return Raised(WinError("267", InvalidDirectoryText, p));
        }
        return Raised(WinError("3", PathNotFoundText, p));
      }
      var remaining := Listing(DirKey(p));
      var names: seq<string> := [];
      while remaining != {}
        invariant forall n :: n in names ==> n !in remaining
        invariant forall n :: n in Listing(DirKey(p)) <==> n in names || n in remaining
        invariant forall i, j :: 0 <= i < j < |names| ==> names[i] != names[j]
        decreases |remaining|
      {
        var n :| n in remaining;
        names := names + [n];
        remaining := remaining - {n};
      }
      r := Ok(names);
    }

    /** `os.rename(src, tgt)` for a file: the source must exist, the target's folder must
        exist and the target must not. */
    method Rename(src: string, tgt: string) returns (err: Option<string>)
      modifies this
      ensures old(Valid()) ==> Valid()
      ensures dirs == old(dirs)
      ensures err.Some? ==> err.value != ResultSuccess
      ensures src !in old(files) ==> err == Some(WinError2("2", FileNotFoundText, src, tgt))
      ensures src in old(files) && !old(ParentExists(tgt))
        ==> err == Some(WinError2("3", PathNotFoundText, src, tgt))
      ensures src in old(files) && old(ParentExists(tgt)) && old(Exists(tgt))
        ==> err == Some(WinError2("183", AlreadyExistsText, src, tgt))
      ensures err.None? <==> src in old(files) && old(ParentExists(tgt)) && !old(Exists(tgt))
      ensures err.Some? ==> files == old(files)
      ensures err.None? ==> files == old(files) - {src} + map[tgt := old(files)[src]]
    {
      if src !in files {
        return Some(WinError2("2", FileNotFoundText, src, tgt));
      }
      if !ParentExists(tgt) {
        return Some(WinError2("3", PathNotFoundText, src, tgt));
      }
      if Exists(tgt) {
        return Some(WinError2("183", AlreadyExistsText, src, tgt));
      }
      files := files - {src} + map[tgt := files[src]];
      err := None;
    }

    /** `DataFrame.to_csv(p, header = False, mode = 'a')`: the records go after whatever the
        file holds; a missing file is created without a header line. */
    method AppendRecords(p: string, recs: seq<Record>) returns (err: Option<string>)
      modifies this
      ensures old(Valid()) ==> Valid()
      ensures dirs == old(dirs)
      ensures err.Some? ==> err.value != ResultSuccess
      ensures err.None? <==> !old(IsDir(p)) && old(ParentExists(p))
      ensures err.Some? ==> files == old(files)
      ensures err.None? ==> files == old(files)[p := (if p in old(files) then old(files)[p] else []) + recs]
    {
      if IsDir(p) {
        return Some(Denied(p));
      }
      if !ParentExists(p) {
        var head := "Cannot save file into a non-existent directory: '";
        var e := head + (DirName(p) + "'");
        assert e[0] == head[0];
        return Some(e);
      }
      var before := if p in files then files[p] else [];
      files := files[p := before + recs];
      err := None;
    }

    /** `os.makedirs(p, exist_ok = True)`: creates `p` and the folders above it. */
    method MakeDirs(p: string) returns (err: Option<string>)
      modifies this
      ensures old(Valid()) ==> Valid()
      ensures files == old(files)
      ensures err.Some? ==> err.value != ResultSuccess
      ensures err.None? <==> (p != [] && p !in old(files) && old(FreeForDir(DirKey(p)))
        && (forall a :: a in AncestorsOf(DirKey(p)) ==> old(FreeForDir(a))))
      ensures err.None? ==> dirs == old(dirs) + {DirKey(p)} + AncestorsOf(DirKey(p))
      ensures err.Some? ==> dirs == old(dirs)
    {
      if p == [] {
        return Some(WinError("3", PathNotFoundText, p));
      }
      if p in files || !FreeForDir(DirKey(p)) {
        return Some(WinError("183", AlreadyExistsText, p));
      }
      if exists a :: a in AncestorsOf(DirKey(p)) && !FreeForDir(a) {
        return Some(WinError("3", PathNotFoundText, p));
      }
      var added := {DirKey(p)} + AncestorsOf(DirKey(p));
      assert forall a :: a in added ==> FreeForDir(a);
      forall q | q in files ensures q !in added && DirKey(q) !in added {
        assert q in added ==> FreeForDir(q) && Apart(q, q);
        assert DirKey(q) in added ==> FreeForDir(DirKey(q)) && Apart(q, DirKey(q));
      }
      ghost var before := dirs;
      dirs := dirs + added;
      forall q | q in files && old(Valid()) ensures Placed(dirs, q) {
        assert Placed(before, q);
      }
      err := None;
    }

    /** `os.mkdir(p)`: one folder, whose parent must exist. */
    method Mkdir(p: string) returns (err: Option<string>)
      modifies this
      ensures old(Valid()) ==> Valid()
      ensures files == old(files)
      ensures err.Some? ==> err.value != ResultSuccess
      ensures err.None? <==> !old(Exists(p)) && old(FreeForDir(DirKey(p))) && old(ParentExists(p))
      ensures err.None? ==> dirs == old(dirs) + {DirKey(p)}
      ensures err.Some? ==> dirs == old(dirs)
    {
      if Exists(p) || !FreeForDir(DirKey(p)) {
        return Some(WinError("183", AlreadyExistsText, p));
      }
      if !ParentExists(p) {
        return Some(WinError("3", PathNotFoundText, p));
      }
      forall q | q in files ensures q != DirKey(p) && DirKey(q) != DirKey(p) {
        assert Apart(q, DirKey(p));
      }
      ghost var before := dirs;
      dirs := dirs + {DirKey(p)};
      forall q | q in files && old(Valid()) ensures Placed(dirs, q) {
        assert Placed(before, q);
      }
      err := None;
    }

    /** `open(p, 'w')`: the file is created or emptied. */
    method Truncate(p: string) returns (err: Option<string>)
      modifies this
      ensures old(Valid()) ==> Valid()
      ensures dirs == old(dirs)
      ensures old(IsDir(p)) ==> err == Some(Denied(p))
      ensures err.Some? ==> err.value != ResultSuccess
      ensures err.None? <==> !old(IsDir(p)) && old(ParentExists(p))
      ensures err.None? ==> files == old(files)[p := []]
      ensures err.Some? ==> files == old(files)
    {
      if IsDir(p) {
        return Some(Denied(p));
      }
      if !ParentExists(p) {
        return Some(NotFound(p));
      }
      files := files[p := []];
      err := None;
    }
  }
}
