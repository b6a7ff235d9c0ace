/** The run log shared by all scripts: one 14-field entry per logged step, kept in memory
    during a run and appended to `Admin/Log.txt` at the end, ordered by `Begin`. */
module Logging {
  import opened Wrappers
  import opened Text
  import opened Tables

  const ResultSuccess: string := "Success"
  const SeverityError: string := "Error"
  const SeverityInfo: string := "Info"
  const DelimiterDefault: string := "|"

  /** Column names of the log file, in the order entries are written. */
  const LogFileDefinition: seq<string> := [
    "ExecutionGUID", "ParentExecutionGUID", "Begin", "End", "Severity", "Caller",
    "CallStack", "Action", "RowCount", "Source", "Target", "Result", "File", "Parameters"
  ]

  /** The optional keyword arguments of a `LogStep` call; an absent one is `None`. */
  datatype Varied = Varied(
    parent: Option<string>, severity: Option<string>, action: Option<string>,
    rowCount: Option<string>, source: Option<string>, target: Option<string>,
    result: Option<string>, file: Option<string>)

  /** The keyword arguments the scripts pass: result and severity, with an optional parent
      execution id and an optional `File`. */
  function Step(parent: Option<string>, severity: string, result: string, file: Option<string>): Varied {
    Varied(parent, Some(severity), None, None, None, None, Some(result), file)
  }

  datatype LogEntry = LogEntry(
    executionGuid: string, parentExecutionGuid: Option<string>, begin: string, end: string,
    severity: Option<string>, caller: string, callStack: string, action: Option<string>,
    rowCount: Option<string>, source: Option<string>, target: Option<string>,
    result: Option<string>, file: Option<string>, parameters: string)

  /** The entry a step records: the caller's execution id, or a fresh one when it passed ''. */
  function Entry(guid: string, newGuid: string, begin: string, end: string, caller: string,
                 callStack: string, parameters: string, v: Varied): (e: LogEntry)
    requires newGuid != ""
    ensures e.executionGuid != ""
    ensures e.executionGuid == guid || (guid == "" && e.executionGuid == newGuid)
    ensures e.severity == v.severity && e.result == v.result && e.file == v.file
  {
    LogEntry(if guid == "" then newGuid else guid, v.parent, begin, end, v.severity, caller,
             callStack, v.action, v.rowCount, v.source, v.target, v.result, v.file, parameters)
  }

  function CellOfOption(o: Option<string>): Cell {
    match o
    case None => Null
    case Some(s) => Value(s)
  }

  /** The fields of an entry in log-file column order; `None` is written as an empty field. */
  function EntryCells(e: LogEntry): (r: Record)
    ensures |r| == |LogFileDefinition|
    ensures r[0] == Value(e.executionGuid) && r[2] == Value(e.begin)
    ensures r[4] == CellOfOption(e.severity) && r[11] == CellOfOption(e.result)
  {
    [Value(e.executionGuid), CellOfOption(e.parentExecutionGuid), Value(e.begin), Value(e.end),
     CellOfOption(e.severity), Value(e.caller), Value(e.callStack), CellOfOption(e.action),
     CellOfOption(e.rowCount), CellOfOption(e.source), CellOfOption(e.target),
     CellOfOption(e.result), CellOfOption(e.file), Value(e.parameters)]
  }

  /** What a reader of the log looks for in an entry: severity, result and file. */
  datatype Note = Note(severity: Option<string>, result: Option<string>, file: Option<string>)

  function ErrorNote(result: string): Note {
    Note(Some(SeverityError), Some(result), None)
  }

  function InfoNote(result: string): Note {
    Note(Some(SeverityInfo), Some(result), None)
  }

  function NoteOf(e: LogEntry): Note {
    Note(e.severity, e.result, e.file)
  }

  function Notes(es: seq<LogEntry>): (r: seq<Note>)
    ensures |r| == |es|
    ensures forall i :: 0 <= i < |es| ==> r[i] == NoteOf(es[i])
  {
    seq(|es|, i requires 0 <= i < |es| => NoteOf(es[i]))
  }

  /** `str(d)` of a dictionary whose values are already rendered and whose keys are plain
      identifiers, which `repr` shows between single quotes (see `Text.ReprOfPlain`). */
  function DictText(pairs: seq<(string, string)>): string {
    "{" + JoinWith(", ", seq(|pairs|, i requires 0 <= i < |pairs| => "'" + pairs[i].0 + "': " + pairs[i].1)) + "}"
  }

  /** The number of digits of a clock reading's text. Like the text of
      `strftime('%Y-%m-%d %H:%M:%S.%f')`, it has a fixed width. */
  const StampWidth: nat := 20

  function Pow10(w: nat): (p: nat)
    ensures p >= 1
  {
    if w == 0 then 1 else 10 * Pow10(w - 1)
  }

  /** The last `w` decimal digits of `n`, leading zeros included. */
  function Digits(n: nat, w: nat): (s: string)
    ensures |s| == w
  {
    if w == 0 then "" else Digits(n / 10, w - 1) + [DigitChar(n % 10)]
  }

  /** The text of clock reading `n`: its `StampWidth` low digits, zero-padded, so that texts
      compare as the readings do (`StampOrder`). */
  function Stamp(n: nat): (t: string)
    ensures |t| == StampWidth
  {
    Digits(n, StampWidth)
  }

  /** The text of the n-th `uuid4()` of a run. */
  function GuidText(n: nat): (g: string)
    ensures g != ""
  {
    "uuid-" + Decimal(n)
  }

  /** The clock and the id generator: `datetime.now()` and `uuid.uuid4()`. */
  class Environment {
    var tick: nat
    var issued: nat

    constructor()
      ensures tick == 0 && issued == 0
    {
      tick := 0;
      issued := 0;
    }

    method Now() returns (t: string)
      modifies this
      ensures t == Stamp(old(tick))
      ensures tick == old(tick) + 1 && issued == old(issued)
    {
      t := Stamp(tick);
      tick := tick + 1;
    }

    method NewGuid() returns (g: string)
      modifies this
      ensures g == GuidText(old(issued)) && g != ""
      ensures issued == old(issued) + 1 && tick == old(tick)
    {
      g := GuidText(issued);
      issued := issued + 1;
    }
  }

  /** The in-memory list `LogEntries`; the scripts only ever append to it. */
  class LogBuffer {
    var entries: seq<LogEntry>

    constructor()
      ensures entries == []
    {
      entries := [];
    }

    method Append(e: LogEntry)
      modifies this
      ensures entries == old(entries) + [e]
    {
      entries := entries + [e];
    }
  }

  /** The body every `LogStep` shares: read the clock for `End`, draw a fresh id only when
      the caller passed an empty one, and append exactly one entry. */
  method Record(buf: LogBuffer, env: Environment, begin: string, caller: string,
                callStack: string, guid: string, parameters: string, v: Varied)
    modifies buf, env
    ensures env.tick == old(env.tick) + 1
    ensures env.issued == old(env.issued) + (if guid == "" then 1 else 0)
    ensures buf.entries == old(buf.entries) + [Entry(guid, GuidText(old(env.issued)), begin,
      Stamp(old(env.tick)), caller, callStack, parameters, v)]
    ensures Appended(old(buf.entries), buf.entries, [Note(v.severity, v.result, v.file)])
  {
    var end := env.Now();
    var id := guid;
    if id == "" {
      id := env.NewGuid();
    }
    buf.Append(LogEntry(id, v.parent, begin, end, v.severity, caller, callStack, v.action,
                        v.rowCount, v.source, v.target, v.result, v.file, parameters));
  }

  /** `after` is `before` followed by entries that read as `notes`, one per note. */
  predicate Appended(before: seq<LogEntry>, after: seq<LogEntry>, notes: seq<Note>) {
    |after| == |before| + |notes| && after[..|before|] == before && Notes(after[|before|..]) == notes
  }

  /** `after` keeps every entry of `before` in place and has at least `k` more. */
  predicate GrewBy(before: seq<LogEntry>, after: seq<LogEntry>, k: nat) {
    |before| + k <= |after| && after[..|before|] == before
  }

  /** `after` keeps `before` and goes on with entries that read as `notes`, possibly followed
      by more. */
  predicate Continued(before: seq<LogEntry>, after: seq<LogEntry>, notes: seq<Note>) {
    |before| + |notes| <= |after| && after[..|before|] == before && Notes(after[|before|..|before| + |notes|]) == notes
  }

  /** Entries appended and then kept continue the log. */
  lemma AppendedContinued(a: seq<LogEntry>, b: seq<LogEntry>, c: seq<LogEntry>, notes: seq<Note>)
    requires Appended(a, b, notes) && GrewBy(b, c, 0)
    ensures Continued(a, c, notes)
  {
    assert c[..|a|] == c[..|b|][..|a|];
    assert c[|a|..|a| + |notes|] == b[|a|..];
  }

  /** `after` keeps `before` and its last entry reads as `n`. */
  predicate EndsWithNote(before: seq<LogEntry>, after: seq<LogEntry>, n: Note) {
    GrewBy(before, after, 1) && NoteOf(after[|after| - 1]) == n
  }

  /** The note of a step that logs Info on success and Error with the failure otherwise. */
  function Outcome(result: string, file: Option<string>): (n: Note)
    ensures n.result == Some(result) && n.file == file
    ensures n.severity == Some(SeverityInfo) <==> result == ResultSuccess
  {
    Note(Some(if result == ResultSuccess then SeverityInfo else SeverityError), Some(result), file)
  }

  /** Growth followed by one last appended entry ends the log with that entry's note. */
  lemma EndsWithLast(a: seq<LogEntry>, b: seq<LogEntry>, c: seq<LogEntry>, k: nat, n: Note)
    requires GrewBy(a, b, k) && Appended(b, c, [n])
    ensures EndsWithNote(a, c, n) && GrewBy(a, c, k + 1)
  {
    assert c[..|a|] == c[..|b|][..|a|];
    assert c[|b|..][0] == c[|c| - 1];
  }

  /** Two appends in a row append the notes of both, in order. */
  lemma AppendedChain(a: seq<LogEntry>, b: seq<LogEntry>, c: seq<LogEntry>, n1: seq<Note>, n2: seq<Note>)
    requires Appended(a, b, n1) && Appended(b, c, n2)
    ensures Appended(a, c, n1 + n2)
  {
    assert c[..|a|] == b[..|a|];
    assert c[|a|..] == b[|a|..] + c[|b|..];
  }

  /** An append of `n` notes grows the log by `n` entries. */
  lemma AppendedGrows(a: seq<LogEntry>, b: seq<LogEntry>, notes: seq<Note>)
    requires Appended(a, b, notes)
    ensures GrewBy(a, b, |notes|)
  {
  }

  /** Growth composes. */
  lemma GrewChain(a: seq<LogEntry>, b: seq<LogEntry>, c: seq<LogEntry>, k1: nat, k2: nat)
    requires GrewBy(a, b, k1) && GrewBy(b, c, k2)
    ensures GrewBy(a, c, k1 + k2)
  {
    assert c[..|a|] == c[..|b|][..|a|];
  }

  /** A log that ends with `n` after growing from `b` still does so from any earlier `a`. */
  lemma EndsWithGrew(a: seq<LogEntry>, b: seq<LogEntry>, c: seq<LogEntry>, n: Note)
    requires GrewBy(a, b, 0) && EndsWithNote(b, c, n)
    ensures EndsWithNote(a, c, n)
  {
    GrewChain(a, b, c, 0, 1);
  }

  /** Python's ordering of strings: lexicographic by code point. */
  predicate StrLe(a: string, b: string) {
    a == [] || (b != [] && (a[0] < b[0] || (a[0] == b[0] && StrLe(a[1..], b[1..]))))
  }

  lemma {:induction false} StrLeTotal(a: string, b: string)
    ensures StrLe(a, b) || StrLe(b, a)
    decreases |a|
  {
    if a != [] && b != [] && a[0] == b[0] {
      StrLeTotal(a[1..], b[1..]);
    }
  }

  lemma {:induction false} StrLeTrans(a: string, b: string, c: string)
    requires StrLe(a, b) && StrLe(b, c)
    ensures StrLe(a, c)
    decreases |a|
  {
    if a != [] && b != [] && c != [] && a[0] == b[0] && b[0] == c[0] {
      StrLeTrans(a[1..], b[1..], c[1..]);
    }
  }

  /** Fixed-width texts compare as the numbers they write. */
  lemma {:induction false} DigitsOrder(a: nat, b: nat, w: nat)
    requires a < Pow10(w) && b < Pow10(w)
    ensures StrLe(Digits(a, w), Digits(b, w)) <==> a <= b
    ensures Digits(a, w) == Digits(b, w) <==> a == b
    decreases w
  {
    if w > 0 {
      var x, y := Digits(a / 10, w - 1), Digits(b / 10, w - 1);
      DigitsOrder(a / 10, b / 10, w - 1);
      DigitCharOrder(a % 10, b % 10);
      StrLeLast(x, y, DigitChar(a % 10), DigitChar(b % 10));
      assert Digits(a, w) == x + [DigitChar(a % 10)] && Digits(b, w) == y + [DigitChar(b % 10)];
      if x + [DigitChar(a % 10)] == y + [DigitChar(b % 10)] {
        assert x == (x + [DigitChar(a % 10)])[..w - 1] && y == (y + [DigitChar(b % 10)])[..w - 1];
      }
    }
  }

  /** Texts of one length, each with a character added, compare first by the texts and then
      by the characters. */
  lemma {:induction false} StrLeLast(x: string, y: string, c: char, e: char)
    requires |x| == |y|
    ensures StrLe(x + [c], y + [e]) <==> (x != y && StrLe(x, y)) || (x == y && c <= e)
    decreases |x|
  {
    if x != [] {
      StrLeLast(x[1..], y[1..], c, e);
      assert (x + [c])[1..] == x[1..] + [c] && (y + [e])[1..] == y[1..] + [e];
      assert x == [x[0]] + x[1..] && y == [y[0]] + y[1..];
    }
  }

  /** Digit characters are ordered as their digits. */
  lemma DigitCharOrder(d: nat, e: nat)
    requires d < 10 && e < 10
    ensures DigitChar(d) < DigitChar(e) <==> d < e
    ensures DigitChar(d) == DigitChar(e) <==> d == e
  {
    assert DigitChar(d) as int == '0' as int + d;
    assert DigitChar(e) as int == '0' as int + e;
  }

  /** Clock readings' texts are ordered as the readings, for the first `Pow10(StampWidth)`
      readings. */
  lemma StampOrder(a: nat, b: nat)
    requires a < Pow10(StampWidth) && b < Pow10(StampWidth)
    ensures StrLe(Stamp(a), Stamp(b)) <==> a <= b
  {
    DigitsOrder(a, b, StampWidth);
  }

  /** Each entry's `Begin` is at most the next one's. */
  predicate SortedByBegin(es: seq<LogEntry>) {
    forall i :: 0 <= i < |es| - 1 ==> StrLe(es[i].begin, es[i + 1].begin)
  }

  /** Places `e` before the first entry that begins strictly after it, so after every entry
      that begins at the same time. */
  function Insert(sorted: seq<LogEntry>, e: LogEntry): (r: seq<LogEntry>)
    ensures multiset(r) == multiset(sorted) + multiset{e}
    ensures |r| == |sorted| + 1
    ensures r[0] == e || (sorted != [] && r[0] == sorted[0])
  {
    if sorted == [] then [e]
    else if !StrLe(sorted[0].begin, e.begin) then [e] + sorted
    else
      assert sorted == [sorted[0]] + sorted[1..];
      [sorted[0]] + Insert(sorted[1..], e)
  }

  /** Inserting into a sorted list keeps it sorted. */
  lemma {:induction false} InsertSorted(sorted: seq<LogEntry>, e: LogEntry)
    requires SortedByBegin(sorted)
    ensures SortedByBegin(Insert(sorted, e))
    decreases |sorted|
  {
    if sorted == [] {
    } else if !StrLe(sorted[0].begin, e.begin) {
      StrLeTotal(e.begin, sorted[0].begin);
      var r := Insert(sorted, e);
      assert forall i :: 1 <= i < |r| ==> r[i] == sorted[i - 1];
    } else {
      InsertSorted(sorted[1..], e);
      var rest := Insert(sorted[1..], e);
      var r := Insert(sorted, e);
      assert r == [sorted[0]] + rest;
      assert StrLe(sorted[0].begin, rest[0].begin);
      assert forall i :: 1 <= i < |r| ==> r[i] == rest[i - 1];
    }
  }

  /** `sort_values(by = 'Begin')`: the same entries, in non-decreasing `Begin` order. */
  function SortByBegin(es: seq<LogEntry>): (r: seq<LogEntry>)
    ensures SortedByBegin(r)
    ensures multiset(r) == multiset(es)
  {
    if es == [] then []
    else
      assert es == es[..|es| - 1] + [es[|es| - 1]];
      var sorted := SortByBegin(es[..|es| - 1]);
      InsertSorted(sorted, es[|es| - 1]);
      Insert(sorted, es[|es| - 1])
  }

  /** The entries of `es` that begin at `b`, in their order in `es`. */
  function Ties(es: seq<LogEntry>, b: string): seq<LogEntry> {
    if es == [] then [] else (if es[0].begin == b then [es[0]] else []) + Ties(es[1..], b)
  }

  lemma {:induction false} TiesAppend(a: seq<LogEntry>, c: seq<LogEntry>, b: string)
    ensures Ties(a + c, b) == Ties(a, b) + Ties(c, b)
    decreases |a|
  {
    if a == [] {
      assert a + c == c;
    } else {
      assert (a + c)[1..] == a[1..] + c;
      TiesAppend(a[1..], c, b);
    }
  }

  /** In a sorted list, an entry that begins at `b` comes no earlier than the first. */
  lemma {:induction false} TiesAfterFirst(sorted: seq<LogEntry>, b: string)
    requires SortedByBegin(sorted) && sorted != []
    ensures Ties(sorted, b) != [] ==> StrLe(sorted[0].begin, b)
    decreases |sorted|
  {
    if sorted[0].begin == b {
      StrLeRefl(b);
    } else if |sorted| == 1 {
      assert Ties(sorted, b) == Ties([], b);
    } else {
      assert Ties(sorted, b) == Ties(sorted[1..], b);
      TiesAfterFirst(sorted[1..], b);
      if Ties(sorted[1..], b) != [] {
        StrLeTrans(sorted[0].begin, sorted[1].begin, b);
      }
    }
  }

  /** Inserting `e` into a sorted list puts it after every entry that begins at the same
      time, and leaves the order of the others alone. */
  lemma {:induction false} InsertStable(sorted: seq<LogEntry>, e: LogEntry, b: string)
    requires SortedByBegin(sorted)
    ensures Ties(Insert(sorted, e), b) == Ties(sorted, b) + (if e.begin == b then [e] else [])
    decreases |sorted|
  {
    var mine := if e.begin == b then [e] else [];
    assert Ties([e], b) == mine + Ties([], b);
    if sorted == [] {
    } else if !StrLe(sorted[0].begin, e.begin) {
      assert Insert(sorted, e) == [e] + sorted;
      TiesAppend([e], sorted, b);
      TiesAfterFirst(sorted, b);
      assert e.begin == b ==> Ties(sorted, b) == [];
    } else {
      var head, rest := sorted[0], Insert(sorted[1..], e);
      assert Insert(sorted, e) == [head] + rest;
      assert sorted == [head] + sorted[1..];
      InsertStable(sorted[1..], e, b);
      TiesAppend([head], rest, b);
      TiesAppend([head], sorted[1..], b);
    }
  }

  /** The sort is stable: the entries that begin at the same time keep the order in which
      they were logged. */
  lemma {:induction false} SortStable(es: seq<LogEntry>, b: string)
    ensures Ties(SortByBegin(es), b) == Ties(es, b)
    decreases |es|
  {
    if es != [] {
      var init, last := es[..|es| - 1], es[|es| - 1];
      assert es == init + [last];
      var sorted := SortByBegin(init);
      assert SortByBegin(es) == Insert(sorted, last);
      SortStable(init, b);
      InsertStable(sorted, last, b);
      TiesAppend(init, [last], b);
      assert Ties([last], b) == (if last.begin == b then [last] else []) + Ties([], b);
    }
  }

  /** In a sorted list every earlier entry begins no later than every later one. */
  lemma {:induction false} SortedPairwise(es: seq<LogEntry>, i: int, j: int)
    requires SortedByBegin(es)
    requires 0 <= i <= j < |es|
    ensures StrLe(es[i].begin, es[j].begin)
    decreases j - i
  {
    if i == j {
      StrLeRefl(es[i].begin);
    } else {
      SortedPairwise(es, i + 1, j);
      StrLeTrans(es[i].begin, es[i + 1].begin, es[j].begin);
    }
  }

  lemma {:induction false} StrLeRefl(a: string)
    ensures StrLe(a, a)
    decreases |a|
  {
    if a != [] {
      StrLeRefl(a[1..]);
    }
  }

  /** The records `to_csv` appends for a list of entries, one per entry. */
  function EntryRecords(es: seq<LogEntry>): (r: seq<Record>)
    ensures |r| == |es|
    ensures forall i :: 0 <= i < |es| ==> r[i] == EntryCells(es[i])
  {
    seq(|es|, i requires 0 <= i < |es| => EntryCells(es[i]))
  }
}
