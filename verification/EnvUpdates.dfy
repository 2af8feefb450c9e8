/** Updating an environment file in place, and what reading the updated file gives. */
module EnvUpdates {
  import opened Wrappers
  import opened EnvFiles

  type Values = map<string, string>

  /** What an updater takes a line to assign, without looking at the value or for an export mark. */
  function AssignmentKey(x: Syntax, line: string): string {
    var trimmed := Trim(x, line);
    var separator := Find(trimmed, '=');
    if separator == 0 || separator == |trimmed| then "" else Trim(x, trimmed[..separator])
  }

  function Assignment(x: Syntax, key: string, value: string): string {
    key + "=" + x.quote(value)
  }

  /** The first line that seems to assign a key, or the number of lines. */
  function FirstFor(x: Syntax, lines: seq<string>, key: string): (i: nat)
    ensures i <= |lines| && (i < |lines| ==> AssignmentKey(x, lines[i]) == key)
    ensures forall k :: 0 <= k < i ==> AssignmentKey(x, lines[k]) != key
  {
    if lines == [] || AssignmentKey(x, lines[0]) == key then 0 else 1 + FirstFor(x, lines[1..], key)
  }

  function Rewritten(x: Syntax, lines: seq<string>, updates: Values, i: nat): string
    requires i < |lines|
  {
    var key := AssignmentKey(x, lines[i]);
    if key in updates && FirstFor(x, lines, key) == i then Assignment(x, key, updates[key]) else lines[i]
  }

  /** The updates that no line takes. */
  function Absent(x: Syntax, lines: seq<string>, updates: Values): Values {
    map key | key in updates && FirstFor(x, lines, key) == |lines| :: updates[key]
  }

  predicate Less(a: string, b: string) {
    b != "" && (a == "" || a[0] < b[0] || (a[0] == b[0] && Less(a[1..], b[1..])))
  }

  predicate Ascending(keys: seq<string>) {
    forall i, j :: 0 <= i < j < |keys| ==> Less(keys[i], keys[j])
  }

  ghost predicate Lists(keys: seq<string>, values: Values) {
    forall key :: key in keys <==> key in values
  }

  /** Every line in its place, with the first one for each update rewritten, and the other updates at the end in order.
      */
  ghost predicate Updated(x: Syntax, lines: seq<string>, updates: Values, keys: seq<string>, result: seq<string>) {
    && Lists(keys, Absent(x, lines, updates)) && Ascending(keys)
    && |result| == |lines| + |keys|
    && (forall i :: 0 <= i < |lines| ==> result[i] == Rewritten(x, lines, updates, i))
    && (forall j :: 0 <= j < |keys| ==>
          keys[j] in updates && result[|lines| + j] == Assignment(x, keys[j], updates[keys[j]]))
  }

  ghost predicate UpdatedTo(x: Syntax, lines: seq<string>, updates: Values, result: seq<string>) {
    exists keys :: Updated(x, lines, updates, keys, result)
  }

  // ---- The updater ----

  lemma {:induction false} LessIsTotal(a: string, b: string)
    ensures Less(a, b) || a == b || Less(b, a)
    ensures !(Less(a, b) && Less(b, a)) && !Less(a, a)
  {
    if a != "" && b != "" {
      LessIsTotal(a[1..], b[1..]);
      LessIsTotal(a[1..], a[1..]);
      assert a == [a[0]] + a[1..] && b == [b[0]] + b[1..];
    } else if a != "" {
      LessIsTotal(a[1..], a[1..]);
    }
  }

  lemma {:induction false} LessIsTransitive(a: string, b: string, c: string)
    requires Less(a, b) && Less(b, c)
    ensures Less(a, c)
  {
    if a != "" && a[0] == b[0] && b[0] == c[0] {
      LessIsTransitive(a[1..], b[1..], c[1..]);
    }
  }

  /** Inserts each key where it belongs. */
  method SortedKeys(values: Values) returns (keys: seq<string>)
    ensures Lists(keys, values) && Ascending(keys)
  {
    keys := [];
    var pending := values.Keys;
    while pending != {}
      invariant pending <= values.Keys && Ascending(keys)
      invariant forall key :: key in keys <==> key in values && key !in pending
    {
      var key :| key in pending;
      pending := pending - {key};
      keys := Insert(keys, key);
    }
  }

  method Insert(keys: seq<string>, key: string) returns (grown: seq<string>)
    requires Ascending(keys) && key !in keys
    ensures Ascending(grown) && forall k :: k in grown <==> k in keys || k == key
  {
    var at := 0;
    while at < |keys| && Less(keys[at], key)
      invariant 0 <= at <= |keys|
      invariant forall k :: 0 <= k < at ==> Less(keys[k], key)
    {
      at := at + 1;
    }
    if at < |keys| {
      LessIsTotal(keys[at], key);
      assert keys[at] in keys;
      forall k | at < k < |keys| ensures Less(key, keys[k]) {
        LessIsTransitive(key, keys[at], keys[k]);
      }
    }
    grown := keys[..at] + [key] + keys[at..];
    assert forall k :: k in keys <==> k in keys[..at] || k in keys[at..] by { assert keys == keys[..at] + keys[at..]; }
  }

  /** Rewrites lines as it meets them and consumes the updates they take. */
  method RewriteLines(x: Syntax, lines: seq<string>, updates: Values) returns (result: seq<string>, remaining: Values)
    ensures |result| == |lines| && forall i :: 0 <= i < |lines| ==> result[i] == Rewritten(x, lines, updates, i)
    ensures remaining == Absent(x, lines, updates)
  {
    hide AssignmentKey, FirstFor, Assignment;
    remaining := updates;
    result := lines;
    for index := 0 to |lines|
      invariant |result| == |lines|
      invariant forall i :: 0 <= i < index ==> result[i] == Rewritten(x, lines, updates, i)
      invariant forall i :: index <= i < |lines| ==> result[i] == lines[i]
      invariant remaining == Pending(x, lines, updates, index)
    {
      var key := AssignmentKey(x, result[index]);
      PendingStep(x, lines, updates, index);
      if key in remaining {
        result := result[index := Assignment(x, key, remaining[key])];
        remaining := remaining - {key};
      }
    }
  }

  method UpdateLines(x: Syntax, lines: seq<string>, updates: Values) returns (result: seq<string>)
    ensures UpdatedTo(x, lines, updates, result)
  {
    hide AssignmentKey, FirstFor, Assignment, Rewritten, Ascending;
    var rewritten, remaining := RewriteLines(x, lines, updates);
    var order := SortedKeys(remaining);
    result := rewritten;
    for j := 0 to |order|
      invariant |result| == |lines| + j
      invariant forall i :: 0 <= i < |lines| ==> result[i] == rewritten[i]
      invariant forall k :: 0 <= k < j ==>
                  order[k] in updates && result[|lines| + k] == Assignment(x, order[k], updates[order[k]])
    {
      assert order[j] in remaining;
      result := result + [Assignment(x, order[j], remaining[order[j]])];
    }
    assert Updated(x, lines, updates, order, result);
  }

  /** The updates not yet taken by the first `n` lines. */
  function Pending(x: Syntax, lines: seq<string>, updates: Values, n: nat): Values {
    map key | key in updates && FirstFor(x, lines, key) >= n :: updates[key]
  }

  lemma PendingStep(x: Syntax, lines: seq<string>, updates: Values, n: nat)
    requires n < |lines|
    ensures var key := AssignmentKey(x, lines[n]);
            && (key in Pending(x, lines, updates, n) <==> key in updates && FirstFor(x, lines, key) == n)
            && Pending(x, lines, updates, n + 1) ==
               Pending(x, lines, updates, n) - (if key in Pending(x, lines, updates, n) then {key} else {})
  {
    hide AssignmentKey, FirstFor;
    var key := AssignmentKey(x, lines[n]);
    assert FirstFor(x, lines, key) <= n;
    forall k | k in updates && k != key ensures FirstFor(x, lines, k) != n {
    }
  }

  // ---- Reading an assignment back ----

  lemma KeyIsTight(x: Syntax, key: string)
    requires Lawful(x) && ValidKey(x, key)
    ensures forall i :: 0 <= i < |key| ==> !x.isSpace(key[i]) && key[i] != '=' && key[i] != '#' && key[i] != ' '
    ensures Trim(x, key) == key && '=' !in key
  {
    forall i | 0 <= i < |key| ensures !x.isSpace(key[i]) && key[i] != '=' && key[i] != '#' && key[i] != ' ' {
      assert key[i] == '_' || x.isLetter(key[i]) || x.isDigit(key[i]);
      assert key[i] in "=#\"'_ " ==> key[i] == '_';
    }
    TrimKeeps(x, key);
  }

  lemma {:induction false} FindAfter(s: string, c: char, rest: string)
    requires c !in s
    ensures Find(s + [c] + rest, c) == |s|
  {
    if s != "" {
      assert (s + [c] + rest)[1..] == s[1..] + [c] + rest;
      FindAfter(s[1..], c, rest);
    }
  }

  lemma ExportIsNoKey(x: Syntax, key: string, rest: string)
    requires ' ' !in key
    ensures !(EXPORT <= key + "=" + rest)
  {
    var line := key + "=" + rest;
    if |key| > 6 {
      assert line[6] == key[6] && EXPORT[6] == ' ';
    } else {
      assert line[|key|] == '=' && EXPORT[|key|] != '=';
    }
  }

  lemma AssignmentShape(x: Syntax, key: string, value: string)
    requires Lawful(x) && ValidKey(x, key)
    ensures var line, q := Assignment(x, key, value), x.quote(value);
            && Trim(x, line) == line && Trim(x, q) == q && Trim(x, key) == key
            && key != "" && line != "" && line[0] != '#' && !(EXPORT <= line)
            && Find(line, '=') == |key| < |line| && line[..|key|] == key && line[|key| + 1..] == q && '\n' !in line
  {
    KeyIsTight(x, key);
    assert Quoted(x, value);
    var line, q := Assignment(x, key, value), x.quote(value);
    hide ValidKey, Lawful, Quoted, Trim, Find;
    assert !x.isSpace('"') && x.isSpace('\n') by { MarksAreNoSpaces(x); }
    assert line[0] == key[0] && line[|line| - 1] == q[|q| - 1];
    TrimKeeps(x, line);
    TrimKeeps(x, q);
    FindAfter(key, '=', q);
    ExportIsNoKey(x, key, q);
  }

  lemma MarksAreNoSpaces(x: Syntax)
    requires Lawful(x)
    ensures !x.isSpace('"') && !x.isSpace('=') && x.isSpace('\n') && x.isSpace(' ')
  {
    assert '"' in "_=\"'#" && '=' in "_=\"'#";
  }

  /** What the updater writes for a key is read back as that key with exactly the given value. */
  lemma AssignmentReadsBack(x: Syntax, key: string, value: string)
    requires Lawful(x) && ValidKey(x, key)
    ensures ParseLine(x, Assignment(x, key, value)) == Binding(key, value)
    ensures AssignmentKey(x, Assignment(x, key, value)) == key
    ensures '\n' !in Assignment(x, key, value)
  {
    hide Trim, Find, ValidKey;
    AssignmentShape(x, key, value);
    assert Quoted(x, value);
  }
}
