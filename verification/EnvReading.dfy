/** What each form of line in an environment file means to the reader. */
module EnvReading {
  import opened Wrappers
  import opened EnvFiles
  import opened EnvUpdates
  import opened EnvRoundTrip

  /** A portable variable name. */
  predicate LegalKey(x: Syntax, key: string) {
    && key != "" && (key[0] == '_' || x.isLetter(key[0]))
    && forall i :: 0 < i < |key| ==> key[i] == '_' || x.isLetter(key[i]) || x.isDigit(key[i])
  }

  lemma LegalKeysAreValid(x: Syntax, key: string)
    ensures ValidKey(x, key) <==> LegalKey(x, key)
  {
  }

  /** Neither end of the text is a space. */
  predicate Tight(x: Syntax, s: string) {
    s != "" ==> !x.isSpace(s[0]) && !x.isSpace(s[|s| - 1])
  }

  lemma TightStays(x: Syntax, s: string)
    requires Tight(x, s)
    ensures Trim(x, s) == s
  {
  }

  // ---- Assignments ----

  lemma RawShape(x: Syntax, key: string, raw: string)
    requires Lawful(x) && LegalKey(x, key) && Tight(x, raw)
    ensures var line := key + "=" + raw;
            && Trim(x, line) == line && Trim(x, raw) == raw && Trim(x, key) == key
            && key != "" && line[0] != '#' && !(EXPORT <= line)
            && Find(line, '=') == |key| && line[..|key|] == key && line[|key| + 1..] == raw
  {
    LegalKeysAreValid(x, key);
    KeyIsTight(x, key);
    MarksAreNoSpaces(x);
    hide Lawful, ValidKey, LegalKey, Find, Trim;
    var line := key + "=" + raw;
    assert line[0] == key[0];
    assert line[|line| - 1] == if raw == "" then '=' else raw[|raw| - 1];
    TightStays(x, line);
    TightStays(x, raw);
    FindAfter(key, '=', raw);
    ExportIsNoKey(x, key, raw);
  }

  /** A line that assigns a raw value binds whatever the raw value stands for. */
  lemma RawAssignment(x: Syntax, key: string, raw: string)
    requires Lawful(x) && LegalKey(x, key) && Tight(x, raw)
    ensures ParseLine(x, key + "=" + raw) ==
            if ParseValue(x, raw).None? then Bad(BadValue) else Binding(key, ParseValue(x, raw).value)
  {
    RawShape(x, key, raw);
    LegalKeysAreValid(x, key);
    hide Trim, Find, ValidKey, ParseValue, Lawful, LegalKey;
  }

  /** An export mark in front of an assignment means nothing. */
  lemma ExportMeansNothing(x: Syntax, key: string, raw: string)
    requires Lawful(x) && LegalKey(x, key) && Tight(x, raw)
    ensures ParseLine(x, "export " + key + "=" + raw) == ParseLine(x, key + "=" + raw)
  {
    RawShape(x, key, raw);
    MarksAreNoSpaces(x);
    ExportIsTight(x);
    var line := key + "=" + raw;
    var marked := "export " + key + "=" + raw;
    hide Trim, Find, ValidKey, ParseValue, Lawful, LegalKey, ParseAssignment;
    assert marked == EXPORT + line;
    assert marked[0] == 'e' && marked[|marked| - 1] == line[|line| - 1];
    assert line[|line| - 1] == if raw == "" then '=' else raw[|raw| - 1];
    TightStays(x, marked);
    assert marked[|EXPORT|..] == line;
  }

  lemma ExportIsTight(x: Syntax)
    requires Lawful(x)
    ensures !x.isSpace('e') && !x.isSpace('=')
  {
    assert 'e' in "export" && '=' in "_=\"'#";
  }

  lemma QuoteIsTight(x: Syntax)
    requires Lawful(x)
    ensures !x.isSpace('\'') && !x.isSpace('#') && x.isSpace(' ')
  {
    assert '\'' in "_=\"'#" && '#' in "_=\"'#";
  }

  lemma SingleQuotedValue(x: Syntax, value: string)
    requires !x.isSpace('\'')
    ensures var raw := "'" + value + "'"; Tight(x, raw) && ParseValue(x, raw) == Some(value)
  {
    var raw := "'" + value + "'";
    assert raw[0] == '\'' && raw[|raw| - 1] == '\'';
    assert raw[1..|raw| - 1] == value;
    hide FindComment, Trim;
  }

  /** Between single quotes everything is literal, further quotes and comment marks included. */
  lemma SingleQuotedReadsBack(x: Syntax, key: string, value: string)
    requires Lawful(x) && LegalKey(x, key)
    ensures ParseLine(x, key + "='" + value + "'") == Binding(key, value)
  {
    QuoteIsTight(x);
    var raw := "'" + value + "'";
    SingleQuotedValue(x, value);
    hide Lawful, LegalKey, ParseLine, ParseValue, Tight;
    RawAssignment(x, key, raw);
    QuoteOpens(key, value);
    Regroup(key + "=", "'", value, "'");
  }

  lemma QuoteOpens(key: string, rest: string)
    ensures key + "='" + rest == key + "=" + "'" + rest
    ensures key + "=" + "'" + rest == key + "=" + ("'" + rest)
  {
  }

  /** A single quote that is not closed is an error. */
  lemma UnclosedQuoteIsBad(x: Syntax, key: string, value: string)
    requires Lawful(x) && LegalKey(x, key)
    requires value != "" ==> value[|value| - 1] != '\'' && !x.isSpace(value[|value| - 1])
    ensures ParseLine(x, key + "='" + value) == Bad(BadValue)
  {
    QuoteIsTight(x);
    var raw := "'" + value;
    UnclosedValue(x, value);
    hide Lawful, LegalKey, ParseLine, ParseValue, Tight;
    RawAssignment(x, key, raw);
    QuoteOpens(key, value);
  }

  lemma UnclosedValue(x: Syntax, value: string)
    requires !x.isSpace('\'') && (value != "" ==> value[|value| - 1] != '\'' && !x.isSpace(value[|value| - 1]))
    ensures Tight(x, "'" + value) && ParseValue(x, "'" + value) == None
  {
    hide FindComment, Trim;
    var raw := "'" + value;
    assert raw[|raw| - 1] == if value == "" then '\'' else value[|value| - 1];
  }

  /** Somewhere a comment starts: a hash after a space. */
  predicate Commented(s: string) {
    exists i :: 0 <= i < |s| - 1 && s[i] == ' ' && s[i + 1] == '#'
  }

  lemma {:induction false} NoCommentFound(s: string)
    ensures FindComment(s) == |s| <==> !Commented(s)
  {
    if |s| >= 2 {
      NoCommentFound(s[1..]);
      if s[0] == ' ' && s[1] == '#' {
        assert Commented(s);
      } else if Commented(s[1..]) {
        var i :| 0 <= i < |s[1..]| - 1 && s[1..][i] == ' ' && s[1..][i + 1] == '#';
        assert s[i + 1] == ' ' && s[i + 1 + 1] == '#';
      } else {
        forall i | 0 <= i < |s| - 1 ensures !(s[i] == ' ' && s[i + 1] == '#') {
          assert i > 0 ==> s[1..][i - 1] == s[i] && s[1..][i - 1 + 1] == s[i + 1];
        }
      }
    }
  }

  lemma {:induction false} CommentFoundAfter(value: string, comment: string)
    requires !Commented(value + " ")
    ensures FindComment(value + " #" + comment) == |value|
  {
    var s := value + " #" + comment;
    if value != "" {
      assert s[1..] == value[1..] + " #" + comment;
      assert value + " " == [value[0]] + (value[1..] + " ");
      forall i | 0 <= i < |value[1..] + " "| - 1
        ensures !((value[1..] + " ")[i] == ' ' && (value[1..] + " ")[i + 1] == '#')
      {
        assert (value[1..] + " ")[i] == (value + " ")[i + 1] && (value[1..] + " ")[i + 1] == (value + " ")[i + 1 + 1];
      }
      CommentFoundAfter(value[1..], comment);
      assert s[0] == value[0] && s[1] == if |value| == 1 then ' ' else value[1];
      assert |value| >= 2 ==> (value + " ")[0] == value[0] && (value + " ")[0 + 1] == value[1];
    }
  }

  /** A value without quotes stands for itself, hashes included, as long as none follows a space. */
  lemma PlainReadsBack(x: Syntax, key: string, value: string)
    requires Lawful(x) && LegalKey(x, key) && Tight(x, value) && !Commented(value)
    requires value != "" ==> value[0] != '\'' && value[0] != '"'
    ensures ParseLine(x, key + "=" + value) == Binding(key, value)
  {
    NoCommentFound(value);
    hide FindComment, Commented;
    RawAssignment(x, key, value);
  }

  /** A comment after a value without quotes is no part of it. */
  lemma CommentIsCutOff(x: Syntax, key: string, value: string, comment: string)
    requires Lawful(x) && LegalKey(x, key) && value != "" && Tight(x, value) && !Commented(value)
    requires value[0] != '\'' && value[0] != '"' && (comment != "" ==> !x.isSpace(comment[|comment| - 1]))
    ensures ParseLine(x, key + "=" + value + " #" + comment) == Binding(key, value)
  {
    QuoteIsTight(x);
    hide Lawful, LegalKey, Commented, ParseLine, ParseValue;
    var raw := value + " #" + comment;
    CommentedValue(x, value, comment);
    RawAssignment(x, key, raw);
    Regroup(key + "=", value, " #", comment);
  }

  lemma Regroup(a: string, b: string, c: string, d: string)
    ensures a + b + c + d == a + (b + c + d)
  {
  }

  lemma CommentedValue(x: Syntax, value: string, comment: string)
    requires x.isSpace(' ') && !x.isSpace('#') && value != "" && Tight(x, value) && !Commented(value)
    requires value[0] != '\'' && value[0] != '"' && (comment != "" ==> !x.isSpace(comment[|comment| - 1]))
    ensures var raw := value + " #" + comment; Tight(x, raw) && ParseValue(x, raw) == Some(value)
  {
    hide FindComment, Commented, Trim;
    var raw := value + " #" + comment;
    EndIsNoComment(x, value);
    CommentFoundAfter(value, comment);
    assert raw[0] == value[0] && raw[|raw| - 1] == if comment == "" then '#' else comment[|comment| - 1];
    assert raw[..|value|] == value;
    TightStays(x, value);
  }

  lemma EndIsNoComment(x: Syntax, value: string)
    requires x.isSpace(' ') && value != "" && !Commented(value) && !x.isSpace(value[|value| - 1])
    ensures !Commented(value + " ")
  {
    var s := value + " ";
    forall i | 0 <= i < |s| - 1 ensures !(s[i] == ' ' && s[i + 1] == '#') {
      assert i + 1 < |value| ==> s[i] == value[i] && s[i + 1] == value[i + 1];
    }
  }

  // ---- Lines that bind nothing ----

  /** Blank lines and comment lines are ignored, however far they are indented. */
  lemma CommentsAreIgnored(x: Syntax, spaces: string, comment: string)
    requires Lawful(x) && Spaces(x, spaces)
    ensures ParseLine(x, spaces) == Ignored && ParseLine(x, spaces + "#" + comment) == Ignored
  {
    var rest := "#" + comment;
    assert '#' in "_=\"'#";
    TrimLeftSkips(x, spaces, rest);
    TrimRightCuts(x, rest);
    assert spaces + "#" + comment == spaces + rest;
    AllSpaces(x, spaces);
    hide Lawful, TrimLeft, TrimRight, Spaces;
  }

  lemma {:induction false} AllSpaces(x: Syntax, s: string)
    requires Spaces(x, s)
    ensures TrimLeft(x, s) == "" && Trim(x, s) == ""
  {
    if s != "" {
      AllSpaces(x, s[1..]);
    }
  }

  /** Only portable names are ever bound. */
  lemma BoundKeysAreLegal(x: Syntax, line: string)
    ensures ParseLine(x, line).Binding? ==> LegalKey(x, ParseLine(x, line).key)
  {
    hide Trim, Find, ParseValue;
  }

  /** A file that is not read fails at its first bad line, by its number and fault. */
  lemma {:induction false} FirstBadLine(x: Syntax, lines: seq<string>, n: nat, error: LineError)
    ensures ParseLines(x, lines) == Err((n, error)) <==>
            1 <= n <= |lines| && ParseLine(x, lines[n - 1]) == Bad(error) && Parses(x, lines[..n - 1])
  {
    hide ParseLine;
    if lines != [] {
      var front := lines[..|lines| - 1];
      FirstBadLine(x, front, n, error);
      ParseIsLastValue(x, front, "");
      if 1 <= n <= |front| {
        assert front[..n - 1] == lines[..n - 1];
        assert ParseLine(x, lines[n - 1]).Bad? ==> !Parses(x, front) by { assert front[n - 1] == lines[n - 1]; }
      }
    }
  }
}
