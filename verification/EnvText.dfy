/** Environment files as text: splitting into lines, updating and reading whole documents. */
module EnvText {
  import opened Wrappers
  import opened EnvFiles
  import opened EnvUpdates
  import opened EnvRoundTrip

  function Split(text: string): (lines: seq<string>)
    ensures lines != []
    decreases |text|
  {
    var end := Find(text, '\n');
    if end == |text| then [text] else [text[..end]] + Split(text[end + 1..])
  }

  function Join(lines: seq<string>): string
    requires lines != []
  {
    if |lines| == 1 then lines[0] else lines[0] + "\n" + Join(lines[1..])
  }

  function WithoutLastNewline(text: string): string {
    if text != "" && text[|text| - 1] == '\n' then text[..|text| - 1] else text
  }

  predicate OneLine(line: string) {
    '\n' !in line
  }

  predicate OneLineEach(lines: seq<string>) {
    forall i :: 0 <= i < |lines| ==> OneLine(lines[i])
  }

  /** The text as it was, with its lines rewritten or added to, always ended by a newline. */
  ghost predicate UpdatedText(x: Syntax, text: string, updates: Values, updated: string) {
    exists result ::
      result != [] && UpdatedTo(x, Split(WithoutLastNewline(text)), updates, result) && updated == Join(result) + "\n"
  }

  method UpdateDocument(x: Syntax, text: string, updates: Values) returns (updated: string)
    ensures UpdatedText(x, text, updates, updated)
  {
    var lines := Split(WithoutLastNewline(text));
    var changed := UpdateLines(x, lines, updates);
    UpdatedIsLonger(x, lines, updates, changed);
    updated := Join(changed) + "\n";
  }

  lemma UpdatedIsLonger(x: Syntax, lines: seq<string>, updates: Values, result: seq<string>)
    requires UpdatedTo(x, lines, updates, result)
    ensures |result| >= |lines|
  {
  }

  /** A blank line after the last newline is nothing. */
  function ParseText(x: Syntax, text: string): Result<map<string, string>, (nat, LineError)> {
    ParseLines(x, Split(text))
  }

  // ---- Splitting and joining ----

  lemma {:induction false} SplitIsOneLineEach(text: string)
    ensures OneLineEach(Split(text))
    decreases |text|
  {
    var end := Find(text, '\n');
    if end < |text| {
      SplitIsOneLineEach(text[end + 1..]);
    }
  }

  /** Splitting loses nothing. */
  lemma {:induction false} JoinSplit(text: string)
    ensures Join(Split(text)) == text
    decreases |text|
  {
    var end := Find(text, '\n');
    hide Find;
    if end < |text| {
      var line, rest := text[..end], text[end + 1..];
      assert Split(text) == [line] + Split(rest);
      hide Split, Join;
      JoinSplit(rest);
      JoinFirst(line, Split(rest));
      CutAt(text, end, '\n');
    }
  }

  lemma JoinFirst(line: string, lines: seq<string>)
    requires lines != []
    ensures Join([line] + lines) == line + "\n" + Join(lines)
  {
    assert ([line] + lines)[1..] == lines;
  }

  lemma CutAt(text: string, i: nat, c: char)
    requires i < |text| && text[i] == c
    ensures text == text[..i] + [c] + text[i + 1..]
  {
  }

  lemma SplitFirst(line: string, rest: string)
    requires OneLine(line)
    ensures Split(line) == [line] && Split(line + "\n" + rest) == [line] + Split(rest)
  {
    FindAfter(line, '\n', rest);
    assert line + ['\n'] + rest == line + "\n" + rest;
    var text := line + "\n" + rest;
    assert text[..|line|] == line && text[|line| + 1..] == rest;
    assert Find(line, '\n') == |line|;
  }

  /** Joining lines and ending the text with a newline splits back into the lines and one empty line. */
  lemma {:induction false} SplitJoin(lines: seq<string>)
    requires lines != [] && OneLineEach(lines)
    ensures Split(Join(lines)) == lines && Split(Join(lines) + "\n") == lines + [""]
  {
    hide Split, Find;
    assert OneLine(lines[0]);
    if |lines| == 1 {
      SplitFirst(lines[0], "");
      SplitFirst("", "");
      assert lines[0] + "\n" + "" == lines[0] + "\n";
      assert lines == [lines[0]];
    } else {
      SplitJoin(lines[1..]);
      SplitFirst(lines[0], Join(lines[1..]));
      SplitFirst(lines[0], Join(lines[1..]) + "\n");
      assert Join(lines) + "\n" == lines[0] + "\n" + (Join(lines[1..]) + "\n");
      assert lines == [lines[0]] + lines[1..];
    }
  }

  lemma EmptyLineIsNothing(x: Syntax, lines: seq<string>)
    ensures ParseLines(x, lines + [""]) == ParseLines(x, lines)
  {
    assert (lines + [""])[..|lines|] == lines;
    assert ParseLine(x, "") == Ignored;
  }

  lemma LastNewlineIsNothing(x: Syntax, text: string)
    ensures ParseText(x, WithoutLastNewline(text)) == ParseText(x, text)
  {
    hide Find, Split, Join, ParseLines;
    var front := WithoutLastNewline(text);
    if front != text {
      JoinSplit(front);
      SplitIsOneLineEach(front);
      SplitJoin(Split(front));
      EmptyLineIsNothing(x, Split(front));
      assert text == front + "\n";
    }
  }

  lemma UpdatedIsOneLineEach(x: Syntax, lines: seq<string>, updates: Values, keys: seq<string>, result: seq<string>)
    requires Lawful(x) && ValidUpdates(x, updates) && Updated(x, lines, updates, keys, result) && OneLineEach(lines)
    ensures OneLineEach(result)
  {
    hide ParseLine, Lawful, FirstFor, AssignmentKey, ValidKey, Assignment;
    forall i | 0 <= i < |result| ensures OneLine(result[i]) {
      if i < |lines| {
        var key := AssignmentKey(x, lines[i]);
        assert OneLine(lines[i]);
        if key in updates {
          AssignmentReadsBack(x, key, updates[key]);
        }
      } else {
        var key := keys[i - |lines|];
        assert result[|lines| + (i - |lines|)] == result[i];
        AssignmentReadsBack(x, key, updates[key]);
      }
    }
  }

  // ---- Documents ----

  /** For every readable text: reading the updated text gives the old bindings overlaid by the updates exactly when no
      update is undone by a later line. */
  lemma UpdateDocumentOverlays(x: Syntax, text: string, updates: Values, updated: string)
    requires Lawful(x) && ValidUpdates(x, updates) && ParseText(x, text).Ok? && UpdatedText(x, text, updates, updated)
    ensures ParseText(x, updated).Ok?
    ensures ParseText(x, updated).value == ParseText(x, text).value + updates <==>
            forall key :: key in updates ==> Settled(x, Split(WithoutLastNewline(text)), key, updates[key])
  {
    hide Lawful, ValidUpdates, Updated, Settled, ParseLines, WithoutLastNewline, Split, Join;
    var lines := Split(WithoutLastNewline(text));
    var result :| result != [] && UpdatedTo(x, lines, updates, result) && updated == Join(result) + "\n";
    var keys :| Updated(x, lines, updates, keys, result);
    LastNewlineIsNothing(x, text);
    SplitIsOneLineEach(WithoutLastNewline(text));
    UpdatedIsOneLineEach(x, lines, updates, keys, result);
    SplitJoin(result);
    EmptyLineIsNothing(x, result);
    UpdateOverlays(x, lines, updates, keys, result);
  }

  /** A text that gives each updated key a value on at most one line takes every update. */
  lemma SingleAssignmentsAreSettled(x: Syntax, lines: seq<string>, key: string, value: string)
    requires Lawful(x) && ValidKey(x, key) && Parses(x, lines)
    requires forall i, j :: 0 <= i < j < |lines| ==> Bound(x, lines[i], key) == None || Bound(x, lines[j], key) == None
    ensures Settled(x, lines, key, value)
  {
    hide FirstFor, AssignmentKey, LastValue, ValidKey, Lawful, ParseLine;
    var first := FirstFor(x, lines, key);
    if first < |lines| {
      AssignmentAgrees(x, lines[first]);
      assert Bound(x, lines[first], key).Some?;
      hide Bound;
      assert forall j :: first < j < |lines| ==> Bound(x, lines[j], key) == None;
      NeverBound(x, lines[first + 1..], key);
    }
  }

  lemma {:induction false} NeverBound(x: Syntax, lines: seq<string>, key: string)
    requires forall i :: 0 <= i < |lines| ==> Bound(x, lines[i], key) == None
    ensures LastValue(x, lines, key) == None
  {
    if lines != [] {
      assert Bound(x, lines[|lines| - 1], key) == None;
      NeverBound(x, lines[..|lines| - 1], key);
    }
  }

  /** A file that assigns a key twice keeps the second value when the key is updated. */
  lemma SecondAssignmentWins(x: Syntax, key: string, first: string, second: string, value: string,
                             keys: seq<string>, result: seq<string>)
    requires Lawful(x) && ValidKey(x, key)
    requires Updated(x, [Assignment(x, key, first), Assignment(x, key, second)], map[key := value], keys, result)
    ensures ParseLines(x, result).Ok? && key in ParseLines(x, result).value
    ensures ParseLines(x, result).value[key] == second
  {
    var lines := [Assignment(x, key, first), Assignment(x, key, second)];
    AssignmentReadsBack(x, key, first);
    AssignmentReadsBack(x, key, second);
    hide ParseLine, AssignmentKey, Assignment, ValidKey, Lawful, Updated;
    ParseIsLastValue(x, lines, key);
    assert FirstFor(x, lines, key) == 0;
    assert lines[1..] == [lines[1]];
    assert LastValue(x, [lines[1]], key) == Some(second);
    UpdateThenParse(x, lines, map[key := value], keys, result, key);
  }

  // ---- Updating again ----

  lemma UpdatedKeyAt(x: Syntax, lines: seq<string>, updates: Values, keys: seq<string>, result: seq<string>, i: nat)
    requires Lawful(x) && ValidUpdates(x, updates) && Updated(x, lines, updates, keys, result) && i < |result|
    ensures i < |lines| ==> AssignmentKey(x, result[i]) == AssignmentKey(x, lines[i])
    ensures |result| == |lines| + |keys|
    ensures i >= |lines| ==> AssignmentKey(x, result[i]) == keys[i - |lines|] && keys[i - |lines|] in updates
    ensures i >= |lines| ==> result[i] == Assignment(x, keys[i - |lines|], updates[keys[i - |lines|]])
  {
    hide ParseLine, Lawful, FirstFor, AssignmentKey, ValidKey, Assignment;
    if i < |lines| {
      var key := AssignmentKey(x, lines[i]);
      if key in updates {
        AssignmentReadsBack(x, key, updates[key]);
      }
    } else {
      var key := keys[i - |lines|];
      assert result[|lines| + (i - |lines|)] == result[i];
      AssignmentReadsBack(x, key, updates[key]);
    }
  }

  lemma SomeListed(keys: seq<string>, values: Values)
    requires Lists(keys, values)
    ensures keys == [] || keys[0] in values
  {
  }

  /** A second update with the same values changes nothing. */
  lemma UpdateIsStable(x: Syntax, lines: seq<string>, updates: Values, keys: seq<string>, result: seq<string>,
                       keys': seq<string>, result': seq<string>)
    requires Lawful(x) && ValidUpdates(x, updates) && Updated(x, lines, updates, keys, result)
    requires Updated(x, result, updates, keys', result')
    ensures result' == result
  {
    hide ParseLine, Lawful, AssignmentKey, ValidKey, Assignment, FirstFor, Ascending, ValidUpdates;
    forall key | key in updates ensures FirstFor(x, result, key) < |result| {
      var first := FirstFor(x, lines, key);
      if first < |lines| {
        UpdatedKeyAt(x, lines, updates, keys, result, first);
      } else {
        assert key in Absent(x, lines, updates);
        var j :| 0 <= j < |keys| && keys[j] == key;
        UpdatedKeyAt(x, lines, updates, keys, result, |lines| + j);
      }
    }
    assert Absent(x, result, updates) == map[];
    SomeListed(keys', Absent(x, result, updates));
    forall i | 0 <= i < |result| ensures Rewritten(x, result, updates, i) == result[i] {
      UpdatedKeyAt(x, lines, updates, keys, result, i);
      if i < |lines| {
        FirstStays(x, lines, updates, keys, result, AssignmentKey(x, lines[i]));
      }
    }
  }

  /** Where the updater finds a key does not change by updating. */
  lemma FirstStays(x: Syntax, lines: seq<string>, updates: Values, keys: seq<string>, result: seq<string>, key: string)
    requires Lawful(x) && ValidUpdates(x, updates) && Updated(x, lines, updates, keys, result)
    ensures FirstFor(x, lines, key) < |lines| ==> FirstFor(x, result, key) == FirstFor(x, lines, key)
  {
    var first := FirstFor(x, lines, key);
    if first < |lines| {
      forall i | 0 <= i <= first ensures AssignmentKey(x, result[i]) == AssignmentKey(x, lines[i]) {
        UpdatedKeyAt(x, lines, updates, keys, result, i);
      }
      var found := FirstFor(x, result, key);
      assert found <= first;
      assert AssignmentKey(x, result[found]) == key;
    }
  }
}
