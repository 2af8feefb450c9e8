/** Reader and updater together: what a file means after an update, line by line and as text. */
module EnvRoundTrip {
  import opened Wrappers
  import opened EnvFiles
  import opened EnvUpdates

  ghost predicate ValidUpdates(x: Syntax, updates: Values) {
    forall key :: key in updates ==> ValidKey(x, key)
  }

  // ---- Reader and updater see the same keys ----

  /** A readable line that the updater takes to assign a valid key is read as assigning that key. */
  lemma AssignmentAgrees(x: Syntax, line: string)
    requires Lawful(x) && ValidKey(x, AssignmentKey(x, line)) && !ParseLine(x, line).Bad?
    ensures ParseLine(x, line).Binding? && ParseLine(x, line).key == AssignmentKey(x, line)
  {
    var trimmed, key := Trim(x, line), AssignmentKey(x, line);
    TrimStarts(x, line);
    KeyIsTight(x, key);
    var separator := Find(trimmed, '=');
    var left := trimmed[..separator];
    TrimOfTight(x, left);
    hide ValidKey, Lawful, Trim, Find;
    assert trimmed[0] == left[0] == key[0];
    if EXPORT <= trimmed {
      ExportNeedsName(x, trimmed, separator, key);
    } else {
      TrimKeeps(x, trimmed);
    }
  }

  lemma TrimOfTight(x: Syntax, s: string)
    requires s != "" && !x.isSpace(s[0])
    ensures Trim(x, s) != "" && Trim(x, s) <= s && Spaces(x, s[|Trim(x, s)|..])
  {
    TrimRightCuts(x, s);
  }

  lemma ExportEndsBefore(line: string, separator: nat)
    requires EXPORT <= line && separator < |line| && line[separator] == '='
    ensures separator >= |EXPORT| && line[6] == ' '
  {
    assert '=' !in EXPORT;
    assert forall k :: 0 <= k < |EXPORT| ==> line[k] in EXPORT;
    assert line[6] == EXPORT[6];
  }

  lemma SpacesAfter(x: Syntax, s: string, from: nat, later: nat, to: nat)
    requires from <= later <= to <= |s| && Spaces(x, s[from..to])
    ensures Spaces(x, s[later..to])
  {
    assert s[later..to] == s[from..to][later - from..];
  }

  /** Behind an export mark, nothing but spaces before the equals sign is no assignment. */
  lemma ExportNeedsName(x: Syntax, trimmed: string, separator: nat, key: string)
    requires Lawful(x) && EXPORT <= trimmed && separator == Find(trimmed, '=') < |trimmed|
    requires key <= trimmed[..separator] && Spaces(x, trimmed[|key|..separator]) && ' ' !in key
    ensures ParseAssignment(x, Trim(x, trimmed[|EXPORT|..])).Bad?
  {
    hide *;
    MarksAreNoSpaces(x);
    ExportIsAllKey(x, trimmed, separator, key);
    EqualsFirst(x, trimmed[|EXPORT|..separator], trimmed[separator..]);
    Joined(trimmed, |EXPORT|, separator);
  }

  lemma Joined(s: string, from: nat, to: nat)
    requires from <= to <= |s|
    ensures s[from..] == s[from..to] + s[to..]
  {
  }

  lemma ExportIsAllKey(x: Syntax, trimmed: string, separator: nat, key: string)
    requires EXPORT <= trimmed && separator < |trimmed| && trimmed[separator] == '='
    requires key <= trimmed[..separator] && Spaces(x, trimmed[|key|..separator]) && ' ' !in key
    ensures |EXPORT| <= separator && Spaces(x, trimmed[|EXPORT|..separator])
  {
    hide Spaces;
    ExportEndsBefore(trimmed, separator);
    assert forall i :: 0 <= i < |key| ==> trimmed[i] in key;
    SpacesAfter(x, trimmed, |key|, |EXPORT|, separator);
  }

  lemma EqualsFirst(x: Syntax, spaces: string, rest: string)
    requires Spaces(x, spaces) && rest != "" && rest[0] == '=' && !x.isSpace('=')
    ensures ParseAssignment(x, Trim(x, spaces + rest)).Bad?
  {
    TrimLeftSkips(x, spaces, rest);
    TrimRightCuts(x, rest);
    hide TrimLeft, TrimRight, ValidKey, ParseValue;
    FindsFirst(Trim(x, spaces + rest), '=');
  }

  lemma FindsFirst(s: string, c: char)
    requires s != "" && s[0] == c
    ensures Find(s, c) == 0
  {
  }

  // ---- One key through an update ----

  /** What a line says about a key. */
  function Bound(x: Syntax, line: string, key: string): Option<string> {
    var parsed := ParseLine(x, line);
    if parsed.Binding? && parsed.key == key then Some(parsed.value) else None
  }

  function Later(v: Option<string>, before: Option<string>): Option<string> {
    if v.Some? then v else before
  }

  lemma LastValueStep(x: Syntax, lines: seq<string>, n: nat, key: string)
    requires n < |lines|
    ensures LastValue(x, lines[..n + 1], key) == Later(Bound(x, lines[n], key), LastValue(x, lines[..n], key))
  {
    assert lines[..n + 1][..n] == lines[..n];
  }

  /** The line in a place says what the line before it said, except about the update that takes the place. */
  lemma RewrittenBinds(x: Syntax, lines: seq<string>, updates: Values, i: nat, key: string)
    requires Lawful(x) && ValidUpdates(x, updates) && i < |lines| && !ParseLine(x, lines[i]).Bad?
    ensures !ParseLine(x, Rewritten(x, lines, updates, i)).Bad?
    ensures Bound(x, Rewritten(x, lines, updates, i), key) ==
            if key in updates && FirstFor(x, lines, key) == i then Some(updates[key]) else Bound(x, lines[i], key)
  {
    hide AssignmentKey, FirstFor, ParseLine, ValidKey, Lawful, Assignment;
    var taken := AssignmentKey(x, lines[i]);
    if taken in updates {
      AssignmentAgrees(x, lines[i]);
      AssignmentReadsBack(x, taken, updates[taken]);
    }
  }

  lemma KeptLine(x: Syntax, lines: seq<string>, updates: Values, keys: seq<string>, result: seq<string>, i: nat,
                 key: string)
    requires Lawful(x) && ValidUpdates(x, updates) && Parses(x, lines) && Updated(x, lines, updates, keys, result)
    requires i < |lines|
    ensures i < |result| && !ParseLine(x, result[i]).Bad?
    ensures Bound(x, result[i], key) ==
            if key in updates && FirstFor(x, lines, key) == i then Some(updates[key]) else Bound(x, lines[i], key)
  {
    hide ParseLine, Bound, Lawful, FirstFor, Rewritten;
    RewrittenBinds(x, lines, updates, i, key);
  }

  /** The lines kept in place give a key that is not updated the value it had. */
  lemma {:induction false} OthersKeepTheirValue(x: Syntax, lines: seq<string>, updates: Values, keys: seq<string>,
                                                result: seq<string>, n: nat, key: string)
    requires Lawful(x) && ValidUpdates(x, updates) && Parses(x, lines) && Updated(x, lines, updates, keys, result)
    requires n <= |lines| && key !in updates
    ensures |lines| <= |result| && LastValue(x, result[..n], key) == LastValue(x, lines[..n], key)
  {
    hide *;
    UpdatedLength(x, lines, updates, keys, result);
    if n == 0 {
      assert result[..0] == lines[..0];
    } else {
      OthersKeepTheirValue(x, lines, updates, keys, result, n - 1, key);
      KeptLine(x, lines, updates, keys, result, n - 1, key);
      LastValueStep(x, lines, n - 1, key);
      LastValueStep(x, result, n - 1, key);
    }
  }

  /** From the first line the updater takes for a key on, the key has its new value until a later line binds it again.
      */
  lemma {:induction false} UpdatedUntilRebound(x: Syntax, lines: seq<string>, updates: Values, keys: seq<string>,
                                               result: seq<string>, n: nat, key: string)
    requires Lawful(x) && ValidUpdates(x, updates) && Parses(x, lines) && Updated(x, lines, updates, keys, result)
    requires FirstFor(x, lines, key) < n <= |lines| && key in updates
    ensures |lines| <= |result|
    ensures LastValue(x, result[..n], key) ==
            Later(LastValue(x, lines[FirstFor(x, lines, key) + 1..n], key), Some(updates[key]))
  {
    hide LastValue, Bound, Updated, Lawful, ValidUpdates, Parses, FirstFor, Rewritten, ParseLine;
    var first := FirstFor(x, lines, key);
    KeptLine(x, lines, updates, keys, result, n - 1, key);
    UpdatedLength(x, lines, updates, keys, result);
    LastValueStep(x, result, n - 1, key);
    if n - 1 == first {
      NothingIsLast(x, lines[first + 1..n], key);
    } else {
      UpdatedUntilRebound(x, lines, updates, keys, result, n - 1, key);
      LastValueOfSlice(x, lines, first + 1, n, key);
    }
  }

  lemma NothingIsLast(x: Syntax, lines: seq<string>, key: string)
    requires |lines| == 0
    ensures LastValue(x, lines, key) == None
  {
  }

  lemma UpdatedLength(x: Syntax, lines: seq<string>, updates: Values, keys: seq<string>, result: seq<string>)
    requires Updated(x, lines, updates, keys, result)
    ensures |result| == |lines| + |keys| && forall key :: key in keys ==> key in updates
  {
  }

  lemma LastValueOfSlice(x: Syntax, lines: seq<string>, from: nat, n: nat, key: string)
    requires from < n <= |lines|
    ensures LastValue(x, lines[from..n], key) ==
            Later(Bound(x, lines[n - 1], key), LastValue(x, lines[from..n - 1], key))
  {
    assert lines[from..n][..n - 1 - from] == lines[from..n - 1];
  }

  /** The lines added at the end bind exactly the updates that no line took. */
  lemma {:induction false} AddedAtTheEnd(x: Syntax, lines: seq<string>, updates: Values, keys: seq<string>,
                                         result: seq<string>, j: nat, key: string)
    requires Lawful(x) && ValidUpdates(x, updates) && Updated(x, lines, updates, keys, result) && j <= |keys|
    ensures |result| == |lines| + |keys| && (key in keys ==> key in updates)
    ensures LastValue(x, result[..|lines| + j], key) ==
            if key in keys[..j] then Some(updates[key]) else LastValue(x, result[..|lines|], key)
  {
    hide LastValue, Bound, Updated, Lawful, ValidUpdates, ParseLine;
    UpdatedLength(x, lines, updates, keys, result);
    if j > 0 {
      AddedAtTheEnd(x, lines, updates, keys, result, j - 1, key);
      AddedLine(x, lines, updates, keys, result, j - 1, key);
      LastValueStep(x, result, |lines| + j - 1, key);
      assert keys[..j] == keys[..j - 1] + [keys[j - 1]];
    }
  }

  lemma AddedLine(x: Syntax, lines: seq<string>, updates: Values, keys: seq<string>, result: seq<string>, j: nat,
                  key: string)
    requires Lawful(x) && ValidUpdates(x, updates) && Updated(x, lines, updates, keys, result) && j < |keys|
    ensures |result| == |lines| + |keys| && keys[j] in updates && !ParseLine(x, result[|lines| + j]).Bad?
    ensures Bound(x, result[|lines| + j], key) == if key == keys[j] then Some(updates[key]) else None
  {
    hide ParseLine, Lawful, FirstFor, ValidKey, Assignment, Rewritten;
    AssignmentReadsBack(x, keys[j], updates[keys[j]]);
  }

  // ---- A whole update ----

  lemma UpdatedParses(x: Syntax, lines: seq<string>, updates: Values, keys: seq<string>, result: seq<string>)
    requires Lawful(x) && ValidUpdates(x, updates) && Parses(x, lines) && Updated(x, lines, updates, keys, result)
    ensures Parses(x, result)
  {
    hide ParseLine, Lawful, FirstFor, Rewritten, Bound;
    forall i | 0 <= i < |result| ensures !ParseLine(x, result[i]).Bad? {
      if i < |lines| {
        KeptLine(x, lines, updates, keys, result, i, "");
      } else {
        AddedLine(x, lines, updates, keys, result, i - |lines|, "");
        assert result[|lines| + (i - |lines|)] == result[i];
      }
    }
  }

  /** The value an update leaves a key with: the new one, unless a line after the one the updater takes binds it again.
      */
  function Effective(x: Syntax, lines: seq<string>, updates: Values, key: string): Option<string> {
    if key !in updates then LastValue(x, lines, key)
    else
      var first := FirstFor(x, lines, key);
      if first == |lines| then Some(updates[key]) else Later(LastValue(x, lines[first + 1..], key), Some(updates[key]))
  }

  /** What reading an updated file gives, for every readable file and every key. */
  lemma UpdateThenParse(x: Syntax, lines: seq<string>, updates: Values, keys: seq<string>, result: seq<string>,
                        key: string)
    requires Lawful(x) && ValidUpdates(x, updates) && ParseLines(x, lines).Ok?
    requires Updated(x, lines, updates, keys, result)
    ensures ParseLines(x, result).Ok? && Lookup(ParseLines(x, result).value, key) == Effective(x, lines, updates, key)
  {
    hide ParseLine, ParseLines, LastValue, Lawful, FirstFor, AssignmentKey, ValidKey, Assignment, Rewritten, Lookup;
    ParseIsLastValue(x, lines, key);
    UpdatedParses(x, lines, updates, keys, result);
    ParseIsLastValue(x, result, key);
    AddedAtTheEnd(x, lines, updates, keys, result, |keys|, key);
    assert keys[..|keys|] == keys && result[..|result|] == result && lines[..|lines|] == lines;
    if key !in updates {
      OthersKeepTheirValue(x, lines, updates, keys, result, |lines|, key);
    } else if FirstFor(x, lines, key) < |lines| {
      UpdatedUntilRebound(x, lines, updates, keys, result, |lines|, key);
      assert lines[FirstFor(x, lines, key) + 1..|lines|] == lines[FirstFor(x, lines, key) + 1..];
    }
  }

  /** No line after the one the updater takes for a key gives the key another value. */
  predicate Settled(x: Syntax, lines: seq<string>, key: string, value: string) {
    var first := FirstFor(x, lines, key);
    first == |lines| || LastValue(x, lines[first + 1..], key) in [None, Some(value)]
  }

  lemma EffectiveWhenSettled(x: Syntax, lines: seq<string>, updates: Values, key: string)
    requires key in updates
    ensures Effective(x, lines, updates, key) == Some(updates[key]) <==> Settled(x, lines, key, updates[key])
  {
  }

  /** Reading the updated file gives the old bindings overlaid by the updates exactly when every update is settled. */
  lemma UpdateOverlays(x: Syntax, lines: seq<string>, updates: Values, keys: seq<string>, result: seq<string>)
    requires Lawful(x) && ValidUpdates(x, updates) && ParseLines(x, lines).Ok?
    requires Updated(x, lines, updates, keys, result)
    ensures ParseLines(x, result).Ok?
    ensures ParseLines(x, result).value == ParseLines(x, lines).value + updates <==>
            forall key :: key in updates ==> Settled(x, lines, key, updates[key])
  {
    hide ParseLines, LastValue, Lawful, ValidUpdates, FirstFor, Updated, Effective, Settled, ParseLine;
    UpdateThenParse(x, lines, updates, keys, result, "");
    var before, after := ParseLines(x, lines).value, ParseLines(x, result).value;
    forall key ensures Lookup(after, key) == Lookup(before + updates, key) <==>
                         (key in updates ==> Settled(x, lines, key, updates[key]))
    {
      UpdateThenParse(x, lines, updates, keys, result, key);
      if key in updates {
        EffectiveWhenSettled(x, lines, updates, key);
      } else {
        UntouchedKeepsValue(x, lines, updates, key);
      }
    }
    if forall key :: key in updates ==> Settled(x, lines, key, updates[key]) {
      assert forall key :: Lookup(after, key) == Lookup(before + updates, key);
      LookupDecides(after, before + updates);
    }
  }

  lemma UntouchedKeepsValue(x: Syntax, lines: seq<string>, updates: Values, key: string)
    requires ParseLines(x, lines).Ok? && key !in updates
    ensures Effective(x, lines, updates, key) == Lookup(ParseLines(x, lines).value, key)
  {
    ParseIsLastValue(x, lines, key);
  }

  lemma LookupDecides(a: Values, b: Values)
    requires forall key :: Lookup(a, key) == Lookup(b, key)
    ensures a == b
  {
    assert forall key :: key in a <==> Lookup(a, key).Some?;
    assert forall key :: key in b <==> Lookup(b, key).Some?;
    assert forall key :: key in a ==> a[key] == Lookup(a, key).value;
  }
}
