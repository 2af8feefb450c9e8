/** Environment files: how a line is read, and what a whole file binds. */
module EnvFiles {
  import opened Wrappers

  /** The character classes and the quoted-string syntax the reader consults. */
  datatype Syntax = Syntax(isSpace: char -> bool, isLetter: char -> bool, isDigit: char -> bool,
                           quote: string -> string, unquote: string -> Option<string>)

  /** What the tables and the quoting guarantee: classes do not overlap each other or the file's own marks, and a quoted
      string stays on its line and reads back as it was. */
  ghost predicate Lawful(x: Syntax) {
    && x.isSpace(' ') && x.isSpace('\n')
    && (forall c :: x.isLetter(c) || x.isDigit(c) || c in "_=\"'#" ==> !x.isSpace(c))
    && (forall c :: c in "=#\"'_ " ==> !x.isLetter(c) && !x.isDigit(c))
    && (forall c :: c in "export" ==> x.isLetter(c))
    && forall v :: Quoted(x, v)
  }

  ghost predicate Quoted(x: Syntax, v: string) {
    var q := x.quote(v);
    && |q| >= 2 && q[0] == '"' && q[|q| - 1] == '"' && '\n' !in q
    && x.unquote(q) == Some(v)
  }

  datatype LineError = NoAssignment | BadName | BadValue

  datatype Line = Ignored | Binding(key: string, value: string) | Bad(error: LineError)

  const EXPORT := "export "

  // ---- Pieces of a line ----

  function TrimLeft(x: Syntax, s: string): string {
    if s != [] && x.isSpace(s[0]) then TrimLeft(x, s[1..]) else s
  }

  function TrimRight(x: Syntax, s: string): string {
    if s != [] && x.isSpace(s[|s| - 1]) then TrimRight(x, s[..|s| - 1]) else s
  }

  function Trim(x: Syntax, s: string): string {
    TrimRight(x, TrimLeft(x, s))
  }

  /** Where a character first stands, or the length if it does not occur. */
  function Find(s: string, c: char): (i: nat)
    ensures i <= |s| && (i < |s| ==> s[i] == c) && forall k :: 0 <= k < i ==> s[k] != c
  {
    if s == [] || s[0] == c then 0 else 1 + Find(s[1..], c)
  }

  /** Where a comment that follows a space begins. */
  function FindComment(s: string): (i: nat)
    ensures i <= |s|
  {
    if |s| < 2 then |s| else if s[0] == ' ' && s[1] == '#' then 0 else 1 + FindComment(s[1..])
  }

  predicate ValidKey(x: Syntax, key: string) {
    key != "" && forall i :: 0 <= i < |key| ==> key[i] == '_' || x.isLetter(key[i]) || (i > 0 && x.isDigit(key[i]))
  }

  function ParseValue(x: Syntax, value: string): Option<string> {
    if value == "" then Some("")
    else if value[0] == '\'' then
      if |value| < 2 || value[|value| - 1] != '\'' then None else Some(value[1..|value| - 1])
    else if value[0] == '"' then
      if |value| < 2 || value[|value| - 1] != '"' then None else x.unquote(value)
    else if FindComment(value) < |value| then Some(Trim(x, value[..FindComment(value)]))
    else Some(value)
  }

  /** A whole line, already trimmed and without its export mark. */
  function ParseAssignment(x: Syntax, line: string): Line {
    var separator := Find(line, '=');
    if separator == 0 || separator == |line| then Bad(NoAssignment)
    else
      var key := Trim(x, line[..separator]);
      if !ValidKey(x, key) then Bad(BadName)
      else
        match ParseValue(x, Trim(x, line[separator + 1..]))
        case None => Bad(BadValue)
        case Some(value) => Binding(key, value)
  }

  function ParseLine(x: Syntax, line: string): Line {
    var trimmed := Trim(x, line);
    if trimmed == "" || trimmed[0] == '#' then Ignored
    else ParseAssignment(x, Trim(x, if EXPORT <= trimmed then trimmed[|EXPORT|..] else trimmed))
  }

  // ---- Files ----

  /** The bindings of a file, the last of several for one key counting, or the number and fault of its first bad line.
      */
  function ParseLines(x: Syntax, lines: seq<string>): Result<map<string, string>, (nat, LineError)> {
    if lines == [] then Ok(map[])
    else
      match ParseLines(x, lines[..|lines| - 1])
      case Err(e) => Err(e)
      case Ok(values) =>
        match ParseLine(x, lines[|lines| - 1])
        case Ignored => Ok(values)
        case Binding(key, value) => Ok(values[key := value])
        case Bad(error) => Err((|lines|, error))
  }

  method Parse(x: Syntax, lines: seq<string>) returns (r: Result<map<string, string>, (nat, LineError)>)
    ensures r == ParseLines(x, lines)
  {
    var values: map<string, string> := map[];
    for n := 0 to |lines|
      invariant ParseLines(x, lines[..n]) == Ok(values)
    {
      assert lines[..n + 1][..n] == lines[..n];
      match ParseLine(x, lines[n])
      case Bad(error) =>
        ErrorsStay(x, lines, n + 1);
        return Err((n + 1, error));
      case Ignored =>
      case Binding(key, value) => values := values[key := value];
    }
    assert lines[..|lines|] == lines;
    r := Ok(values);
  }

  lemma {:induction false} ErrorsStay(x: Syntax, lines: seq<string>, n: nat)
    requires n <= |lines| && ParseLines(x, lines[..n]).Err?
    ensures ParseLines(x, lines) == ParseLines(x, lines[..n])
    decreases |lines|
  {
    if n < |lines| {
      var front := lines[..|lines| - 1];
      assert front[..n] == lines[..n];
      ErrorsStay(x, front, n);
    } else {
      assert lines[..n] == lines;
    }
  }

  /** The value the last binding of a key gives it. */
  function LastValue(x: Syntax, lines: seq<string>, key: string): Option<string> {
    if lines == [] then None
    else
      match ParseLine(x, lines[|lines| - 1])
      case Binding(k, v) => if k == key then Some(v) else LastValue(x, lines[..|lines| - 1], key)
      case Ignored => LastValue(x, lines[..|lines| - 1], key)
      case Bad(_) => LastValue(x, lines[..|lines| - 1], key)
  }

  predicate Parses(x: Syntax, lines: seq<string>) {
    forall i :: 0 <= i < |lines| ==> !ParseLine(x, lines[i]).Bad?
  }

  function Lookup(values: map<string, string>, key: string): Option<string> {
    if key in values then Some(values[key]) else None
  }

  /** A file is read exactly when each of its lines is, and then binds each key to its last value. */
  lemma {:induction false} ParseIsLastValue(x: Syntax, lines: seq<string>, key: string)
    ensures ParseLines(x, lines).Ok? <==> Parses(x, lines)
    ensures ParseLines(x, lines).Ok? ==> Lookup(ParseLines(x, lines).value, key) == LastValue(x, lines, key)
  {
    hide ParseLine;
    if lines != [] {
      var front := lines[..|lines| - 1];
      ParseIsLastValue(x, front, key);
      assert Parses(x, lines) <==> Parses(x, front) && !ParseLine(x, lines[|lines| - 1]).Bad?;
    }
  }

  // ---- Trimming ----

  predicate Spaces(x: Syntax, s: string) {
    forall i :: 0 <= i < |s| ==> x.isSpace(s[i])
  }

  lemma {:induction false} TrimLeftSkips(x: Syntax, spaces: string, rest: string)
    requires Spaces(x, spaces) && rest != [] && !x.isSpace(rest[0])
    ensures TrimLeft(x, spaces + rest) == rest
  {
    if spaces == [] {
      assert spaces + rest == rest;
    } else {
      assert (spaces + rest)[1..] == spaces[1..] + rest;
      TrimLeftSkips(x, spaces[1..], rest);
    }
  }

  lemma {:induction false} TrimLeftStarts(x: Syntax, s: string)
    ensures TrimLeft(x, s) != [] ==> !x.isSpace(TrimLeft(x, s)[0])
  {
    if s != [] && x.isSpace(s[0]) {
      TrimLeftStarts(x, s[1..]);
    }
  }

  lemma SpacesGrow(x: Syntax, s: string, c: char, n: nat)
    requires n <= |s| && Spaces(x, s[n..]) && x.isSpace(c)
    ensures Spaces(x, (s + [c])[n..])
  {
    assert (s + [c])[n..] == s[n..] + [c];
  }

  /** Trimming the end cuts off only spaces, and stops at what is none. */
  lemma {:induction false} TrimRightCuts(x: Syntax, s: string)
    ensures TrimRight(x, s) <= s && Spaces(x, s[|TrimRight(x, s)|..])
    ensures TrimRight(x, s) != [] ==> !x.isSpace(TrimRight(x, s)[|TrimRight(x, s)| - 1])
    ensures s != [] && !x.isSpace(s[0]) ==> TrimRight(x, s) != []
  {
    if s != [] && x.isSpace(s[|s| - 1]) {
      var front := s[..|s| - 1];
      TrimRightCuts(x, front);
      SpacesGrow(x, front, s[|s| - 1], |TrimRight(x, front)|);
      assert s == front + [s[|s| - 1]];
    }
  }

  lemma TrimKeeps(x: Syntax, s: string)
    requires s != [] && !x.isSpace(s[0]) && !x.isSpace(s[|s| - 1])
    ensures Trim(x, s) == s
  {
  }

  /** What a trimmed string starts with. */
  lemma TrimStarts(x: Syntax, s: string)
    ensures Trim(x, s) != [] ==> !x.isSpace(Trim(x, s)[0]) && !x.isSpace(Trim(x, s)[|Trim(x, s)| - 1])
  {
    TrimLeftStarts(x, s);
    TrimRightCuts(x, TrimLeft(x, s));
  }
}
