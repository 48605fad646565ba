/** The part of the POSIX shell that quoting relies on: token recognition and quoting
    (sections 2.2 and 2.3 of the POSIX.1-2017 Shell Command Language) and assignments
    followed by `export`. */
module Shell {
  import opened Wrappers
  import opened Strings

  predicate IsLetter(c: char) { IsLowerLetter(c) || 'A' <= c <= 'Z' }

  predicate IsBlank(c: char) { c == ' ' || c == '\t' }

  /** Characters that end an unquoted word: blanks, newline and operators. */
  predicate Ends(c: char) {
    IsBlank(c) || c in {'\n', ';', '&', '|', '<', '>', '(', ')'}
  }

  /** Characters that start an expansion, a comment or a pattern when unquoted. */
  predicate Expands(c: char) {
    c in {'$', '`', '*', '?', '[', '#', '~', '{', '}', '!', '\\'}
  }

  datatype Mode = Plain | Single | Double

  /** The rest of a word and the text after it; `Unclear` when it holds an expansion, an
      unterminated quote, or a NUL, which no script can hold. */
  datatype Tail = Tail(text: string, rest: string) | Unclear

  function Prepend(c: char, t: Tail): Tail {
    if t.Tail? then Tail([c] + t.text, t.rest) else Unclear
  }

  /** Read on from inside a word. In single quotes everything is literal (2.2.2); in double
      quotes everything but `$`, the backquote and the backslash (2.2.3). */
  function LexTail(s: string, mode: Mode): Tail {
    if s == "" then (if mode.Plain? then Tail("", "") else Unclear)
    else
      var c, t := s[0], s[1..];
      if c == '\0' then Unclear
      else
        match mode
        case Plain =>
          if Ends(c) then Tail("", s)
          else if c == '\'' then LexTail(t, Single)
          else if c == '"' then LexTail(t, Double)
          else if Expands(c) then Unclear
          else Prepend(c, LexTail(t, Plain))
        case Single => if c == '\'' then LexTail(t, Plain) else Prepend(c, LexTail(t, Single))
        case Double =>
          if c == '"' then LexTail(t, Plain)
          else if c in {'$', '`', '\\'} then Unclear
          else Prepend(c, LexTail(t, Double))
  }

  datatype Lexed = Word(text: string, rest: string) | NoWord | Stuck

  /** One word from an unquoted position. */
  function LexWord(s: string): Lexed {
    if s == "" || Ends(s[0]) then NoWord
    else
      match LexTail(s, Plain)
      case Tail(text, rest) => Word(text, rest)
      case Unclear => Stuck
  }

  // ---- quoting (shlex.quote) ----

  /** `[a-zA-Z0-9_@%+=:,./-]` */
  predicate IsSafe(c: char) {
    IsLetter(c) || IsDigit(c) || c in {'_', '@', '%', '+', '=', ':', ',', '.', '/', '-'}
  }

  const QUOTED_QUOTE := "'\"'\"'"

  function EscapeQuotes(s: string): string {
    if s == "" then ""
    else (if s[0] == '\'' then QUOTED_QUOTE else [s[0]]) + EscapeQuotes(s[1..])
  }

  function Quote(s: string): string {
    if s == "" then "''"
    else if forall i :: 0 <= i < |s| ==> IsSafe(s[i]) then s
    else "'" + EscapeQuotes(s) + "'"
  }

  /** The word so far, in front of what follows it. */
  function Onto(text: string, t: Tail): Tail {
    if t.Tail? then Tail(text + t.text, t.rest) else Unclear
  }

  predicate NoNul(s: string) { '\0' !in s }

  lemma {:induction false} SafeRun(v: string, rest: string)
    requires forall i :: 0 <= i < |v| ==> IsSafe(v[i])
    ensures LexTail(v + rest, Plain) == Onto(v, LexTail(rest, Plain))
  {
    if v == "" {
      assert v + rest == rest;
    } else {
      SafeRun(v[1..], rest);
      assert (v + rest)[1..] == v[1..] + rest;
      assert v == [v[0]] + v[1..];
    }
  }

  lemma QuotedQuote(rest: string)
    ensures LexTail(QUOTED_QUOTE + rest, Single) == Prepend('\'', LexTail(rest, Single))
  {
    var s := QUOTED_QUOTE + rest;
    assert s[0] == '\'' && s[1..][0] == '"' && s[1..][1..][0] == '\'' && s[1..][1..][1..][0] == '"';
    assert s[1..][1..][1..][1..][0] == '\'' && s[1..][1..][1..][1..][1..] == rest;
    var s3 := s[1..][1..][1..];
    assert LexTail(s3, Double) == LexTail(rest, Single) by {
      assert LexTail(s3[1..], Plain) == LexTail(rest, Single);
    }
    assert LexTail(s[1..][1..], Double) == Prepend('\'', LexTail(s3, Double));
    assert LexTail(s[1..], Plain) == LexTail(s[1..][1..], Double);
  }

  lemma {:induction false} EscapedRun(v: string, rest: string)
    ensures LexTail(EscapeQuotes(v) + "'" + rest, Single)
            == if NoNul(v) then Onto(v, LexTail(rest, Plain)) else Unclear
  {
    if v == "" {
      assert EscapeQuotes(v) + "'" + rest == "'" + rest;
      assert ("'" + rest)[1..] == rest;
    } else {
      var tail := EscapeQuotes(v[1..]) + "'" + rest;
      EscapedRun(v[1..], rest);
      assert v == [v[0]] + v[1..];
      if v[0] == '\'' {
        assert EscapeQuotes(v) + "'" + rest == QUOTED_QUOTE + tail;
        QuotedQuote(tail);
      } else {
        assert EscapeQuotes(v) + "'" + rest == [v[0]] + tail;
        assert ([v[0]] + tail)[1..] == tail;
      }
    }
  }

  lemma EmptyQuotes(rest: string)
    ensures LexTail("''" + rest, Plain) == LexTail(rest, Plain)
  {
  }

  lemma SingleQuotes(v: string, rest: string)
    ensures LexTail("'" + EscapeQuotes(v) + "'" + rest, Plain)
            == if NoNul(v) then Onto(v, LexTail(rest, Plain)) else Unclear
  {
    var inside := EscapeQuotes(v) + "'" + rest;
    var s := "'" + EscapeQuotes(v) + "'" + rest;
    assert s[0] == '\'' && s[1..] == inside;
    assert LexTail(s, Plain) == LexTail(inside, Single);
    EscapedRun(v, rest);
  }

  /** At any unquoted position, whatever follows, the literal contributes exactly the value
      to the word it is in; only a NUL cannot be quoted. */
  lemma QuotedContributes(v: string, rest: string)
    ensures LexTail(Quote(v) + rest, Plain) == if NoNul(v) then Onto(v, LexTail(rest, Plain)) else Unclear
  {
    if v == "" {
      EmptyQuotes(rest);
    } else if forall i :: 0 <= i < |v| ==> IsSafe(v[i]) {
      SafeRun(v, rest);
      assert NoNul(v);
    } else {
      SingleQuotes(v, rest);
    }
  }

  lemma QuoteStartsAWord(v: string)
    ensures Quote(v) != "" && !Ends(Quote(v)[0])
  {
  }

  /** Where a word can start and ends after the literal, the literal is one word, and that word
      is the value, exactly when the value has no NUL. */
  lemma QuotedIsOneWord(v: string, rest: string)
    requires rest == "" || Ends(rest[0])
    ensures LexWord(Quote(v) + rest) == Word(v, rest) <==> NoNul(v)
  {
    QuotedContributes(v, rest);
    QuoteStartsAWord(v);
    assert (Quote(v) + rest)[0] == Quote(v)[0];
    assert NoNul(v) ==> v + "" == v;
  }

  // ---- assignments ----

  predicate IsNameChar(c: char) { IsLetter(c) || IsDigit(c) || c == '_' }

  /** A shell variable name (section 3.235 of the base definitions). */
  predicate ShellName(s: string) {
    s != "" && !IsDigit(s[0]) && forall i :: 0 <= i < |s| ==> IsNameChar(s[i])
  }

  function ReadName(s: string): string {
    if s != "" && IsNameChar(s[0]) then [s[0]] + ReadName(s[1..]) else ""
  }

  /** Run one line `NAME=word; export NAME` and return what is left of the script. */
  function RunAssignment(s: string, env: map<string, string>): Option<(map<string, string>, string)> {
    var name := ReadName(s);
    if !ShellName(name) || !(name + "=" <= s) then None
    else
      match LexTail(s[|name| + 1..], Plain)
      case Unclear => None
      case Tail(text, rest) =>
        var done := "; export " + name + "\n";
        if done <= rest then Some((env[name := text], rest[|done|..])) else None
  }

  /** Run the first `lines` lines of a script. */
  function RunAssignments(s: string, lines: nat, env: map<string, string>): Option<(map<string, string>, string)>
    decreases lines
  {
    if lines == 0 then Some((env, s))
    else
      match RunAssignment(s, env)
      case None => None
      case Some((env', rest)) => RunAssignments(rest, lines - 1, env')
  }

  function ExportLine(k: string, v: string): string {
    k + "=" + Quote(v) + "; export " + k + "\n"
  }

  function Exports(keys: seq<string>, values: map<string, string>): string
    requires forall k :: k in keys ==> k in values
  {
    if keys == [] then "" else ExportLine(keys[0], values[keys[0]]) + Exports(keys[1..], values)
  }

  lemma {:induction false} ReadNameStops(name: string, rest: string)
    requires forall i :: 0 <= i < |name| ==> IsNameChar(name[i])
    requires rest == "" || !IsNameChar(rest[0])
    ensures ReadName(name + rest) == name
  {
    if name == "" {
      assert name + rest == rest;
    } else {
      assert (name + rest)[1..] == name[1..] + rest;
      ReadNameStops(name[1..], rest);
    }
  }

  /** Split a line into its name, the `=` and the rest. */
  lemma AssignmentRuns(k: string, after: string, env: map<string, string>)
    requires ShellName(k)
    ensures RunAssignment(k + ("=" + after), env)
            == match LexTail(after, Plain)
               case Unclear => None
               case Tail(text, rest) =>
                 var done := "; export " + k + "\n";
                 if done <= rest then Some((env[k := text], rest[|done|..])) else None
  {
    var s := k + ("=" + after);
    ReadNameStops(k, "=" + after);
    assert s[|k| + 1..] == after;
    assert k + "=" <= s;
  }

  lemma ExportLineSplits(k: string, v: string, rest: string)
    ensures ExportLine(k, v) + rest == k + ("=" + (Quote(v) + ("; export " + k + "\n" + rest)))
  {
  }

  /** Running an export line of a legal name sets it to the value, unless a NUL stops it. */
  lemma ExportLineRuns(k: string, v: string, rest: string, env: map<string, string>)
    requires ShellName(k)
    ensures RunAssignment(ExportLine(k, v) + rest, env)
            == if NoNul(v) then Some((env[k := v], rest)) else None
  {
    var done := "; export " + k + "\n";
    var tail := done + rest;
    ExportLineSplits(k, v, rest);
    AssignmentRuns(k, Quote(v) + tail, env);
    QuotedContributes(v, tail);
    assert tail[0] == ';' && tail[|done|..] == rest && done <= tail;
    assert v + "" == v;
  }

  lemma ExportsUnfold(keys: seq<string>, values: map<string, string>, body: string)
    requires keys != [] && forall k :: k in keys ==> k in values
    ensures Exports(keys, values) + body
            == ExportLine(keys[0], values[keys[0]]) + (Exports(keys[1..], values) + body)
  {
  }

  /** The first line runs and leaves the others, or a NUL stops it. */
  lemma FirstLineRuns(keys: seq<string>, values: map<string, string>, body: string, env: map<string, string>)
    requires keys != [] && (forall k :: k in keys ==> k in values) && ShellName(keys[0])
    ensures RunAssignments(Exports(keys, values) + body, |keys|, env)
            == if NoNul(values[keys[0]])
               then RunAssignments(Exports(keys[1..], values) + body, |keys[1..]|, env[keys[0] := values[keys[0]]])
               else None
  {
    var k, s := keys[0], Exports(keys[1..], values) + body;
    ExportsUnfold(keys, values, body);
    ExportLineRuns(k, values[k], s, env);
  }

  ghost predicate Legal(keys: seq<string>, values: map<string, string>)
    requires forall k :: k in keys ==> k in values
  {
    forall k :: k in keys ==> ShellName(k) && NoNul(values[k])
  }

  function Select(values: map<string, string>, keys: seq<string>): map<string, string>
    requires forall k :: k in keys ==> k in values
  {
    map k | k in keys :: values[k]
  }

  lemma {:induction false} LegalExportsRun(keys: seq<string>, values: map<string, string>, body: string,
                                           env: map<string, string>)
    requires (forall k :: k in keys ==> k in values) && Legal(keys, values)
    ensures RunAssignments(Exports(keys, values) + body, |keys|, env) == Some((env + Select(values, keys), body))
  {
    if keys == [] {
      assert Exports(keys, values) + body == body;
      assert env + Select(values, keys) == env;
    } else {
      var k, rest := keys[0], keys[1..];
      FirstLineRuns(keys, values, body, env);
      assert Legal(rest, values);
      LegalExportsRun(rest, values, body, env[k := values[k]]);
      SelectSplits(keys, values, env);
    }
  }

  lemma SelectSplits(keys: seq<string>, values: map<string, string>, env: map<string, string>)
    requires keys != [] && forall k :: k in keys ==> k in values
    ensures env[keys[0] := values[keys[0]]] + Select(values, keys[1..]) == env + Select(values, keys)
  {
  }

  /** Whatever the script, assignments only ever set legal names. */
  lemma {:induction false} OnlyShellNames(s: string, lines: nat, env: map<string, string>)
    ensures var r := RunAssignments(s, lines, env);
      r.Some? ==> forall k :: k in r.value.0 && k !in env ==> ShellName(k)
    decreases lines
  {
    if lines > 0 {
      var r := RunAssignment(s, env);
      if r.Some? {
        OnlyShellNames(r.value.1, lines - 1, r.value.0);
      }
    }
  }

  /** A NUL in a value stops the preamble. */
  lemma {:induction false} NulStops(keys: seq<string>, values: map<string, string>, body: string,
                                    env: map<string, string>)
    requires forall k :: k in keys ==> k in values && ShellName(k)
    requires exists k :: k in keys && !NoNul(values[k])
    ensures RunAssignments(Exports(keys, values) + body, |keys|, env).None?
  {
    var k, rest := keys[0], keys[1..];
    FirstLineRuns(keys, values, body, env);
    if NoNul(values[k]) {
      var bad :| bad in keys && !NoNul(values[bad]);
      assert bad in rest;
      NulStops(rest, values, body, env[k := values[k]]);
    }
  }

  /** Interpreting the preamble rebuilds exactly the value map and stops at the body, exactly
      when every key is a legal name and no value holds a NUL. */
  lemma PreambleRebuilds(keys: seq<string>, values: map<string, string>, body: string)
    requires forall k :: k in keys <==> k in values
    ensures RunAssignments(Exports(keys, values) + body, |keys|, map[]) == Some((values, body)) <==> Legal(keys, values)
  {
    if Legal(keys, values) {
      LegalExportsRun(keys, values, body, map[]);
      assert map[] + Select(values, keys) == values;
    } else if forall k :: k in keys ==> ShellName(k) {
      NulStops(keys, values, body, map[]);
    } else {
      OnlyShellNames(Exports(keys, values) + body, |keys|, map[]);
    }
  }
}
