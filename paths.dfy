/** Windows path handling as the scripts use it through `os.path`: `join`, `dirname`,
    `basename` and `splitext`, with both `\` and `/` accepted as separators. Drive letters
    and UNC prefixes are not interpreted. */
module Paths {

  const Sep: char := '\\'

  predicate IsSep(c: char) {
    c == '\\' || c == '/'
  }

  predicate NoSep(s: string) {
    forall i :: 0 <= i < |s| ==> !IsSep(s[i])
  }

  /** `os.path.join(a, b)`: an absolute `b` replaces `a`; otherwise one separator is put
      between them unless `a` is empty or already ends with one. */
  function Join(a: string, b: string): (r: string)
    ensures |b| <= |r|
  {
    if b != [] && IsSep(b[0]) then b
    else if a == [] || IsSep(a[|a| - 1]) then a + b
    else a + [Sep] + b
  }

  /** `os.path.join(a, b, c)`: the two-argument join applied left to right. */
  function Join3(a: string, b: string, c: string): string {
    Join(Join(a, b), c)
  }

  /** Index just past the last separator of `s` (0 when there is none). */
  function TailStart(s: string): (i: nat)
    ensures i <= |s|
    ensures NoSep(s[i..])
    ensures i > 0 ==> IsSep(s[i - 1])
  {
    if s == [] then 0
    else if IsSep(s[|s| - 1]) then |s|
    else TailStart(s[..|s| - 1])
  }

  /** `s` with trailing separators removed. */
  function TrimSeps(s: string): (r: string)
    ensures |r| <= |s| && r == s[..|r|]
    ensures r == [] || !IsSep(r[|r| - 1])
  {
    if s != [] && IsSep(s[|s| - 1]) then TrimSeps(s[..|s| - 1]) else s
  }

  /** `os.path.dirname`: the head of `split`, trailing separators stripped unless the head
      consists of separators only. */
  function DirName(s: string): string {
    var head := s[..TailStart(s)];
    if TrimSeps(head) == [] then head else TrimSeps(head)
  }

  /** `os.path.basename`: the part after the last separator. */
  function BaseName(s: string): (r: string)
    ensures NoSep(r)
  {
    s[TailStart(s)..]
  }

  /** Index of the last `.` in `s`, if any. */
  function LastDot(s: string): (i: int)
    ensures -1 <= i < |s|
    ensures i >= 0 ==> s[i] == '.'
    ensures forall j :: i < j < |s| ==> s[j] != '.'
  {
    if s == [] then -1
    else if s[|s| - 1] == '.' then |s| - 1
    else LastDot(s[..|s| - 1])
  }

  /** Some character of `s[lo..hi]` is not a dot. */
  predicate HasNonDot(s: string, lo: int, hi: int)
    requires 0 <= lo <= hi <= |s|
  {
    exists j :: lo <= j < hi && s[j] != '.'
  }

  /** `os.path.splitext`: the extension starts at the last dot of the final component,
      unless everything before that dot in the component is dots (a leading-dot name). */
  function SplitExt(s: string): (r: (string, string))
    ensures r.0 + r.1 == s
  {
    var dot := LastDot(s);
    var start := TailStart(s);
    if dot >= start && HasNonDot(s, start, dot) then (s[..dot], s[dot..]) else (s, "")
  }

  /** Joining a folder and a plain file name and splitting the result again gives back the
      folder and the name; re-joining them reproduces the path. */
  lemma {:induction false} JoinSplit(folder: string, name: string)
    requires folder != [] && !IsSep(folder[|folder| - 1])
    requires NoSep(name)
    ensures DirName(Join(folder, name)) == folder
    ensures BaseName(Join(folder, name)) == name
    ensures Join(DirName(Join(folder, name)), BaseName(Join(folder, name))) == Join(folder, name)
  {
    var p := Join(folder, name);
    if name != [] {
      assert !IsSep(name[0]);
    }
    assert p == folder + [Sep] + name;
    TailStartAfter(folder + [Sep], name);
    assert TailStart(p) == |folder| + 1;
    assert p[..TailStart(p)] == folder + [Sep];
    assert (folder + [Sep])[..|folder|] == folder;
    assert TrimSeps(folder + [Sep]) == TrimSeps(folder) == folder;
  }

  /** The tail start of `prefix + tail` is `|prefix|` when `prefix` ends in a separator and
      `tail` has none. */
  lemma {:induction false} TailStartAfter(prefix: string, tail: string)
    requires prefix != [] && IsSep(prefix[|prefix| - 1])
    requires NoSep(tail)
    ensures TailStart(prefix + tail) == |prefix|
    decreases |tail|
  {
    if tail == [] {
      assert prefix + tail == prefix;
    } else {
      var s := prefix + tail;
      assert s[..|s| - 1] == prefix + tail[..|tail| - 1];
      assert !IsSep(s[|s| - 1]);
      TailStartAfter(prefix, tail[..|tail| - 1]);
    }
  }

  /** A plain name `base + "." + ext` whose base has a character other than a dot splits into
      `base` and `"." + ext` when the extension holds no dot. */
  lemma SplitExtOfName(base: string, ext: string)
    requires NoSep(base) && NoSep(ext)
    requires '.' !in ext
    requires exists j :: 0 <= j < |base| && base[j] != '.'
    ensures SplitExt(base + "." + ext) == (base, "." + ext)
  {
    var s := base + "." + ext;
    assert NoSep(s) by {
      forall i | 0 <= i < |s| ensures !IsSep(s[i]) {
        if i < |base| { assert s[i] == base[i]; }
        else if i > |base| { assert s[i] == ext[i - |base| - 1]; }
      }
    }
    NoSepTailStart(s);
    LastDotAfter(base + ".", ext);
    var j :| 0 <= j < |base| && base[j] != '.';
    assert s[j] == base[j];
    assert HasNonDot(s, 0, |base|);
    assert s[..|base|] == base;
    assert s[|base|..] == "." + ext;
  }

  lemma {:induction false} NoSepTailStart(s: string)
    requires NoSep(s)
    ensures TailStart(s) == 0
    decreases |s|
  {
    if s != [] {
      NoSepTailStart(s[..|s| - 1]);
    }
  }

  lemma {:induction false} LastDotAfter(prefix: string, tail: string)
    requires prefix != [] && prefix[|prefix| - 1] == '.'
    requires '.' !in tail
    ensures LastDot(prefix + tail) == |prefix| - 1
    decreases |tail|
  {
    if tail == [] {
      assert prefix + tail == prefix;
    } else {
      var s := prefix + tail;
      assert s[..|s| - 1] == prefix + tail[..|tail| - 1];
      assert s[|s| - 1] == tail[|tail| - 1];
      LastDotAfter(prefix, tail[..|tail| - 1]);
    }
  }
}
