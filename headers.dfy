/** Column-header validation: which actual headers are not expected (extra), which expected
    headers are not present (missing), and the result text and log notes built from them.

    Two result styles exist. In LoadFileToBronze.py, File2Bronze.py and Utilities.py the
    missing-columns message overwrites the extra-columns message ("overwriting"). In
    Admin/Utilities.py the messages are joined with "; " onto a result that starts as
    "Success", and an `Issue` tag names the kinds of mismatch ("joined"). */
module Headers {
  import opened Wrappers
  import opened Seqs
  import opened Text
  import opened Tables
  import opened Logging

  /** `[item for item in xs if item not in ys]`. */
  function Without(xs: seq<Cell>, ys: seq<Cell>): (r: seq<Cell>)
    ensures |r| <= |xs|
    ensures forall x :: x in r <==> x in xs && x !in ys
  {
    Filter(xs, (x: Cell) => x !in ys)
  }

  /** Actual headers that are not expected, in actual order. */
  function ExtraColumns(actual: seq<Cell>, expected: seq<Cell>): (r: seq<Cell>)
    ensures forall x :: x in r <==> x in actual && x !in expected
  {
    Without(actual, expected)
  }

  /** Expected headers that are not present, in expected order. */
  function MissingColumns(actual: seq<Cell>, expected: seq<Cell>): (r: seq<Cell>)
    ensures forall x :: x in r <==> x in expected && x !in actual
  {
    Without(expected, actual)
  }

  /** The header list a file presents, as cells. */
  function Names(columns: seq<string>): (r: seq<Cell>)
    ensures |r| == |columns|
    ensures forall i :: 0 <= i < |columns| ==> r[i] == Value(columns[i])
  {
    seq(|columns|, i requires 0 <= i < |columns| => Value(columns[i]))
  }

  /** How `str(list)` shows one element: a string by its `repr`, a null cell as `nan`. */
  function Shown(c: Cell): string {
    match c
    case Null => "nan"
    case Value(s) => Repr(s)
  }

  /** `str(list)` of a list of header cells. */
  function Render(cs: seq<Cell>): (r: string)
    ensures |r| >= 2 && r[0] == '[' && r[|r| - 1] == ']'
  {
    "[" + JoinWith(", ", seq(|cs|, i requires 0 <= i < |cs| => Shown(cs[i]))) + "]"
  }

  function ExtraMessage(extra: seq<Cell>): string {
    "Extra column(s) found: " + Render(extra)
  }

  function MissingMessage(missing: seq<Cell>): string {
    "Column(s) missing: " + Render(missing)
  }

  /** Headers match when neither list has anything to report. */
  predicate Matches(actual: seq<Cell>, expected: seq<Cell>) {
    ExtraColumns(actual, expected) == [] && MissingColumns(actual, expected) == []
  }

  /** The log file is valid when it parses with exactly the log columns. */
  predicate LogFileValid(read: Result<Frame>) {
    read.Ok? && Matches(Names(read.value.columns), Names(LogFileDefinition))
  }

  /** The overwriting style: the missing message, else the extra message, else "Success". */
  function OverwritingResult(actual: seq<Cell>, expected: seq<Cell>): (r: string)
    ensures r == ResultSuccess <==> Matches(actual, expected)
  {
    var extra := ExtraColumns(actual, expected);
    var missing := MissingColumns(actual, expected);
    MessagesAreNotSuccess(extra, missing);
    if missing != [] then MissingMessage(missing)
    else if extra != [] then ExtraMessage(extra)
    else ResultSuccess
  }

  /** The entries the overwriting style logs: one Error per kind of mismatch, in the order
      extra then missing, or a single Info "Success". */
  function OverwritingNotes(actual: seq<Cell>, expected: seq<Cell>): (r: seq<Note>)
    ensures 1 <= |r| <= 2
  {
    var extra := ExtraColumns(actual, expected);
    var missing := MissingColumns(actual, expected);
    (if extra != [] then [ErrorNote(ExtraMessage(extra))] else [])
    + (if missing != [] then [ErrorNote(MissingMessage(missing))] else [])
    + (if extra == [] && missing == [] then [InfoNote(ResultSuccess)] else [])
  }

  /** The joined style: "Success", replaced by the extra message, then "; " and the missing
      message appended. */
  function JoinedResult(actual: seq<Cell>, expected: seq<Cell>): (r: string)
    ensures r == ResultSuccess <==> Matches(actual, expected)
  {
    var extra := ExtraColumns(actual, expected);
    var missing := MissingColumns(actual, expected);
    var first := if extra != [] then ExtraMessage(extra) else ResultSuccess;
    MessagesAreNotSuccess(extra, missing);
    if missing != [] then first + "; " + MissingMessage(missing) else first
  }

  /** The `Issue` tag of the joined style. */
  function JoinedIssue(actual: seq<Cell>, expected: seq<Cell>): (r: string)
    ensures r in {"", "ExtraColumns", "MissingColumns", "ExtraColumns.MissingColumns"}
    ensures r == "" <==> Matches(actual, expected)
  {
    var extra := ExtraColumns(actual, expected);
    var missing := MissingColumns(actual, expected);
    if extra != [] && missing != [] then "ExtraColumns.MissingColumns"
    else if extra != [] then "ExtraColumns"
    else if missing != [] then "MissingColumns"
    else ""
  }

  /** The entries the joined style logs; the second Error carries the joined text. */
  function JoinedNotes(actual: seq<Cell>, expected: seq<Cell>): (r: seq<Note>)
    ensures 1 <= |r| <= 2
  {
    var extra := ExtraColumns(actual, expected);
    var missing := MissingColumns(actual, expected);
    (if extra != [] then [ErrorNote(ExtraMessage(extra))] else [])
    + (if missing != [] then [ErrorNote(JoinedResult(actual, expected))] else [])
    + (if extra == [] && missing == [] then [InfoNote(ResultSuccess)] else [])
  }

  lemma MessagesAreNotSuccess(extra: seq<Cell>, missing: seq<Cell>)
    ensures ExtraMessage(extra) != ResultSuccess
    ensures MissingMessage(missing) != ResultSuccess
    ensures forall s :: s + "; " + MissingMessage(missing) != ResultSuccess
  {
    assert ExtraMessage(extra)[0] == 'E';
    assert MissingMessage(missing)[0] == 'C';
    assert |MissingMessage(missing)| > |ResultSuccess|;
  }

  /** Dropping elements preserves the order of what is kept: the filter of a concatenation is
      the concatenation of the filters. */
  lemma WithoutConcat(a: seq<Cell>, b: seq<Cell>, ys: seq<Cell>)
    ensures Without(a + b, ys) == Without(a, ys) + Without(b, ys)
  {
    FilterConcat(a, b, (x: Cell) => x !in ys);
  }

  /** Nothing is left over exactly when every element of `xs` occurs in `ys`. */
  lemma {:induction false} WithoutEmpty(xs: seq<Cell>, ys: seq<Cell>)
    ensures Without(xs, ys) == [] <==> (forall x :: x in xs ==> x in ys)
    decreases |xs|
  {
    if xs != [] {
      WithoutEmpty(xs[1..], ys);
      assert Without(xs, ys) == (if xs[0] !in ys then [xs[0]] else []) + Without(xs[1..], ys);
      assert forall x :: x in xs <==> x == xs[0] || x in xs[1..];
    }
  }

  /** Headers match exactly when the two lists hold the same names: their order and
      repetitions never matter. */
  lemma MatchesIffSameNames(actual: seq<Cell>, expected: seq<Cell>)
    ensures Matches(actual, expected) <==> (forall c :: c in actual <==> c in expected)
  {
    WithoutEmpty(actual, expected);
    WithoutEmpty(expected, actual);
  }

  /** Reordering the actual headers never changes whether validation succeeds. */
  lemma OrderIrrelevant(actual: seq<Cell>, reordered: seq<Cell>, expected: seq<Cell>)
    requires multiset(actual) == multiset(reordered)
    ensures OverwritingResult(actual, expected) == ResultSuccess
        <==> OverwritingResult(reordered, expected) == ResultSuccess
    ensures JoinedResult(actual, expected) == ResultSuccess
        <==> JoinedResult(reordered, expected) == ResultSuccess
  {
    forall c ensures c in actual <==> c in reordered {
      assert c in actual <==> c in multiset(actual);
      assert c in reordered <==> c in multiset(reordered);
    }
    MatchesIffSameNames(actual, expected);
    MatchesIffSameNames(reordered, expected);
  }

  /** With both kinds of mismatch the overwriting style reports only the missing columns,
      yet logs two Error entries. */
  lemma OverwritingBoth(actual: seq<Cell>, expected: seq<Cell>)
    requires ExtraColumns(actual, expected) != [] && MissingColumns(actual, expected) != []
    ensures OverwritingResult(actual, expected) == MissingMessage(MissingColumns(actual, expected))
    ensures OverwritingNotes(actual, expected) == [
      ErrorNote(ExtraMessage(ExtraColumns(actual, expected))),
      ErrorNote(MissingMessage(MissingColumns(actual, expected)))]
  {
  }

  /** On success exactly one Info entry carrying "Success" is logged, in both styles. */
  lemma SuccessLogsOneInfo(actual: seq<Cell>, expected: seq<Cell>)
    requires Matches(actual, expected)
    ensures OverwritingNotes(actual, expected) == [InfoNote(ResultSuccess)]
    ensures JoinedNotes(actual, expected) == [InfoNote(ResultSuccess)]
  {
  }

  /** Every mismatch logs only Error entries, one per kind. */
  lemma MismatchLogsErrors(actual: seq<Cell>, expected: seq<Cell>)
    requires !Matches(actual, expected)
    ensures forall n :: n in OverwritingNotes(actual, expected) ==> n.severity == Some(SeverityError)
    ensures forall n :: n in JoinedNotes(actual, expected) ==> n.severity == Some(SeverityError)
  {
  }

  /** In the joined style only missing columns keep the leading "Success": the result is
      "Success; Column(s) missing: [...]". */
  lemma JoinedMissingOnly(actual: seq<Cell>, expected: seq<Cell>)
    requires ExtraColumns(actual, expected) == [] && MissingColumns(actual, expected) != []
    ensures JoinedResult(actual, expected)
        == "Success; " + MissingMessage(MissingColumns(actual, expected))
    ensures JoinedIssue(actual, expected) == "MissingColumns"
  {
  }

  /** In the joined style both kinds of mismatch are reported, extra first. */
  lemma JoinedBoth(actual: seq<Cell>, expected: seq<Cell>)
    requires ExtraColumns(actual, expected) != [] && MissingColumns(actual, expected) != []
    ensures JoinedResult(actual, expected)
        == ExtraMessage(ExtraColumns(actual, expected)) + "; "
           + MissingMessage(MissingColumns(actual, expected))
    ensures JoinedIssue(actual, expected) == "ExtraColumns.MissingColumns"
  {
  }

  /** The tag is empty exactly when the result is "Success". */
  lemma IssueAgreesWithResult(actual: seq<Cell>, expected: seq<Cell>)
    ensures JoinedIssue(actual, expected) == "" <==> JoinedResult(actual, expected) == ResultSuccess
  {
  }

  /** `str` of the empty list is `[]`, and of a one-element list the element's text in
      brackets. */
  lemma RenderShort(c: Cell)
    ensures Render([]) == "[]"
    ensures Render([c]) == "[" + Shown(c) + "]"
  {
    var shown := seq(1, i requires 0 <= i < 1 => Shown([c][i]));
    assert JoinWith(", ", shown) == Shown(c);
  }

  /** `str` of a list with one more element: the element's text goes before the closing
      bracket, after ", " unless the list was empty. With `RenderShort` this fixes the text of
      every list. */
  lemma RenderSnoc(cs: seq<Cell>, c: Cell)
    ensures Render(cs + [c]) == Render(cs)[..|Render(cs)| - 1] + (if cs == [] then "" else ", ") + Shown(c) + "]"
  {
    var before := seq(|cs|, i requires 0 <= i < |cs| => Shown(cs[i]));
    var after := seq(|cs + [c]|, i requires 0 <= i < |cs + [c]| => Shown((cs + [c])[i]));
    assert after == before + [Shown(c)];
    JoinWithSnoc(", ", before, Shown(c));
    var r := Render(cs);
    assert r == "[" + JoinWith(", ", before) + "]";
    assert r[..|r| - 1] == "[" + JoinWith(", ", before);
  }

  /** A concrete case: a file whose header has `Memo` instead of `Note`. */
  lemma ExampleMismatch()
    ensures ExtraColumns([Value("Date"), Value("Memo")], [Value("Date"), Value("Note")]) == [Value("Memo")]
    ensures MissingColumns([Value("Date"), Value("Memo")], [Value("Date"), Value("Note")]) == [Value("Note")]
    ensures Render([Value("Note")]) == "['Note']"
  {
    var a := [Value("Date"), Value("Memo")];
    var e := [Value("Date"), Value("Note")];
    assert a[1..] == [Value("Memo")];
    assert e[1..] == [Value("Note")];
    ReprOfPlain("Note");
    var shown := seq(1, i requires 0 <= i < 1 => Shown([Value("Note")][i]));
    assert shown[0] == Repr("Note") == "'Note'";
    assert JoinWith(", ", shown) == "'Note'";
  }
}
