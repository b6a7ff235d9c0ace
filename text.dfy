/** The few Python string operations the pipeline scripts rely on: suffix tests,
    `lower()`, `replace()`, substring membership and the decimal rendering of a number. */
module Text {
  import opened Wrappers

  predicate StartsWith(s: string, prefix: string) {
    |prefix| <= |s| && s[..|prefix|] == prefix
  }

  predicate EndsWith(s: string, suffix: string) {
    |suffix| <= |s| && s[|s| - |suffix|..] == suffix
  }

  /** `sub` occurs in `s` starting at index `i`. */
  predicate OccursAt(s: string, sub: string, i: int) {
    0 <= i && i + |sub| <= |s| && s[i..i + |sub|] == sub
  }

  /** Python's `sub in s`. */
  predicate Contains(s: string, sub: string) {
    exists i :: 0 <= i <= |s| && OccursAt(s, sub, i)
  }

  function LowerChar(c: char): char {
    if 'A' <= c <= 'Z' then (c as int + 32) as char else c
  }

  /** `str.lower()` on ASCII letters; other characters are kept. */
  function Lower(s: string): string {
    seq(|s|, i requires 0 <= i < |s| => LowerChar(s[i]))
  }

  /** Python's `str.replace(pat, rep)`: every non-overlapping occurrence of `pat`, scanning
      left to right, is replaced by `rep`; an empty `pat` inserts `rep` around every character. */
  function ReplaceAll(s: string, pat: string, rep: string): string
    decreases |s|
  {
    if pat == [] then InsertEverywhere(s, rep)
    else if |s| < |pat| then s
    else if s[..|pat|] == pat then rep + ReplaceAll(s[|pat|..], pat, rep)
    else [s[0]] + ReplaceAll(s[1..], pat, rep)
  }

  function InsertEverywhere(s: string, rep: string): string {
    if s == [] then rep else rep + [s[0]] + InsertEverywhere(s[1..], rep)
  }

  /** `s` with every occurrence of the character `c` dropped. */
  function DropChar(s: string, c: char): (r: string)
    ensures c !in r
    ensures forall d :: d in r <==> d in s && d != c
    ensures |r| <= |s|
  {
    if s == [] then [] else (if s[0] == c then [] else [s[0]]) + DropChar(s[1..], c)
  }

  /** Decimal rendering of a natural number, as `str(n)` prints it. */
  function Decimal(n: nat): (r: string)
    ensures |r| > 0
    decreases n
  {
    if n < 10 then [DigitChar(n)] else Decimal(n / 10) + [DigitChar(n % 10)]
  }

  function DigitChar(d: nat): char
    requires d < 10
  {
    ('0' as int + d) as char
  }

  /** Python's `repr` of a string: single quotes unless the text holds a single quote and
      no double quote; backslashes, the chosen quote and the common control characters are
      escaped. Other non-printable characters are not escaped here. */
  function Repr(s: string): (r: string)
    ensures |r| >= 2
  {
    var q := if '\'' in s && '"' !in s then '"' else '\'';
    [q] + Escaped(s, q) + [q]
  }

  function Escaped(s: string, q: char): string {
    if s == [] then "" else EscapeChar(s[0], q) + Escaped(s[1..], q)
  }

  function EscapeChar(c: char, q: char): string {
    if c == '\\' then "\\\\"
    else if c == q then ['\\', c]
    else if c == '\n' then "\\n"
    else if c == '\r' then "\\r"
    else if c == '\t' then "\\t"
    else [c]
  }

  /** A character that `repr` copies unchanged. */
  predicate Plain(c: char) {
    c != '\\' && c != '\'' && c != '"' && c != '\n' && c != '\r' && c != '\t'
  }

  /** `int(s)` for a decimal literal with an optional sign; `None` where Python raises. */
  function ParseInt(s: string): (r: Option<int>)
    ensures r.Some? && s != [] && s[0] != '-' ==> r.value >= 0
  {
    if s != [] && (s[0] == '-' || s[0] == '+') then
      if AllDigits(s[1..]) && |s| > 1 then
        var v: int := DigitsValue(s[1..]);
        Some(if s[0] == '-' then -v else v)
      else None
    else if AllDigits(s) && s != [] then Some(DigitsValue(s))
    else None
  }

  predicate IsDigit(c: char) {
    '0' <= c <= '9'
  }

  predicate AllDigits(s: string) {
    forall i :: 0 <= i < |s| ==> IsDigit(s[i])
  }

  function DigitsValue(s: string): nat
    requires AllDigits(s)
  {
    if s == [] then 0 else 10 * DigitsValue(s[..|s| - 1]) + (s[|s| - 1] as int - '0' as int)
  }

  /** `sep.join(parts)`. */
  function JoinWith(sep: string, parts: seq<string>): string {
    if parts == [] then ""
    else if |parts| == 1 then parts[0]
    else parts[0] + sep + JoinWith(sep, parts[1..])
  }

  /** Joining one more part puts it at the end, after the separator unless it is the only one. */
  lemma {:induction false} JoinWithSnoc(sep: string, parts: seq<string>, p: string)
    ensures JoinWith(sep, parts + [p]) == if parts == [] then p else JoinWith(sep, parts) + sep + p
    decreases |parts|
  {
    if |parts| > 1 {
      assert (parts + [p])[1..] == parts[1..] + [p];
      JoinWithSnoc(sep, parts[1..], p);
    } else if |parts| == 1 {
      assert (parts + [p])[1..] == [p];
    }
  }

  /** The text of the `UnboundLocalError` raised when a local variable is read before any
      assignment to it has run (the wording of Python 3.11 and later). */
  function UnboundLocal(name: string): (r: string)
    ensures r != "Success"
  {
    var head := "cannot access local variable '";
    var r := head + name + "' where it is not associated with a value";
    assert r[0] == head[0];
    r
  }

  /** Replacing a one-character pattern by nothing drops that character. */
  lemma {:induction false} ReplaceCharIsDrop(s: string, c: char)
    ensures ReplaceAll(s, [c], "") == DropChar(s, c)
    decreases |s|
  {
    if s != [] {
      ReplaceCharIsDrop(s[1..], c);
      if s[0] == c {
        assert s[..1] == [c];
      } else {
        assert s[..1] != [c];
      }
    }
  }

  /** A string with no occurrence of the pattern is left as it is. */
  lemma {:induction false} ReplaceAbsent(s: string, pat: string, rep: string)
    requires pat != []
    requires !Contains(s, pat)
    ensures ReplaceAll(s, pat, rep) == s
    decreases |s|
  {
    if |s| >= |pat| {
      assert !OccursAt(s, pat, 0);
      assert s[0..0 + |pat|] == s[..|pat|];
      if Contains(s[1..], pat) {
        var i :| 0 <= i <= |s[1..]| && OccursAt(s[1..], pat, i);
        assert s[i + 1..i + 1 + |pat|] == s[1..][i..i + |pat|];
        assert OccursAt(s, pat, i + 1);
        assert false;
      }
      ReplaceAbsent(s[1..], pat, rep);
      assert [s[0]] + s[1..] == s;
    }
  }

  /** A leading occurrence of the pattern is replaced and scanning resumes after it. */
  lemma ReplaceLeading(pat: string, t: string, rep: string)
    requires pat != []
    ensures ReplaceAll(pat + t, pat, rep) == rep + ReplaceAll(t, pat, rep)
  {
    assert (pat + t)[..|pat|] == pat;
    assert (pat + t)[|pat|..] == t;
  }

  /** A string of plain characters is shown between single quotes as it is. */
  lemma {:induction false} ReprOfPlain(s: string)
    requires forall i :: 0 <= i < |s| ==> Plain(s[i])
    ensures Repr(s) == "'" + s + "'"
  {
    assert '\'' !in s;
    EscapedPlain(s, '\'');
  }

  lemma {:induction false} EscapedPlain(s: string, q: char)
    requires q == '\''
    requires forall i :: 0 <= i < |s| ==> Plain(s[i])
    ensures Escaped(s, q) == s
    decreases |s|
  {
    if s != [] {
      assert Plain(s[0]);
      EscapedPlain(s[1..], q);
      assert [s[0]] + s[1..] == s;
    }
  }

  /** Reading back the decimal rendering of a number gives the number. */
  lemma {:induction false} ParseDecimal(n: nat)
    ensures AllDigits(Decimal(n)) && DigitsValue(Decimal(n)) == n
    ensures ParseInt(Decimal(n)) == Some(n)
    decreases n
  {
    var d := Decimal(n);
    if n >= 10 {
      ParseDecimal(n / 10);
      assert d[..|d| - 1] == Decimal(n / 10);
    }
    assert d[0] != '-' && d[0] != '+' by {
      if n >= 10 {
        assert d[0] == Decimal(n / 10)[0];
      }
    }
  }

  /** Lower case distributes over concatenation. */
  lemma LowerAppend(a: string, b: string)
    ensures Lower(a + b) == Lower(a) + Lower(b)
  {
  }

  /** Dropping a character that does not occur changes nothing. */
  lemma {:induction false} DropAbsent(s: string, c: char)
    requires c !in s
    ensures DropChar(s, c) == s
    decreases |s|
  {
    if s != [] {
      assert c !in s[1..];
      DropAbsent(s[1..], c);
      assert [s[0]] + s[1..] == s;
    }
  }
}
