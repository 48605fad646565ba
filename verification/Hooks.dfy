/** Placeholders and hook rendering (params.py). */
module Hooks {
  import opened Wrappers
  import opened Strings
  import opened Params
  import Shell

  // ---- the pattern ----

  predicate Spaces(text: string, a: nat, b: nat) {
    a <= b <= |text| && forall i :: a <= i < b ==> IsSpace(text[i])
  }

  /** `{{`, space, a name, space, `}}`: what the placeholder pattern matches. */
  predicate PlaceholderAt(text: string, i: nat, a: nat, b: nat, j: nat) {
    && i + 2 <= a <= b && b + 2 <= j <= |text|
    && text[i] == '{' && text[i + 1] == '{'
    && Spaces(text, i + 2, a) && NameText(text[a..b]) && Spaces(text, b, j - 2)
    && text[j - 2] == '}' && text[j - 1] == '}'
  }

  ghost predicate Placeholder(text: string, i: nat, j: nat, name: string) {
    exists a: nat, b: nat :: PlaceholderAt(text, i, a, b, j) && name == text[a..b]
  }

  // ---- the scanner ----

  function SkipSpaces(text: string, i: nat): (r: nat)
    requires i <= |text|
    ensures i <= r <= |text|
    decreases |text| - i
  {
    if i < |text| && IsSpace(text[i]) then SkipSpaces(text, i + 1) else i
  }

  function SkipWord(text: string, i: nat): (r: nat)
    requires i <= |text|
    ensures i <= r <= |text|
    decreases |text| - i
  {
    if i < |text| && IsWordChar(text[i]) then SkipWord(text, i + 1) else i
  }

  predicate Has(text: string, i: nat, c: char) {
    i + 2 <= |text| && text[i] == c && text[i + 1] == c
  }

  /** Match at `i`: the name and where the match ends. */
  function MatchAt(text: string, i: nat): Option<(string, nat)> {
    if !Has(text, i, '{') then None
    else
      var a := SkipSpaces(text, i + 2);
      var b := SkipWord(text, a);
      var c := SkipSpaces(text, b);
      if NameText(text[a..b]) && Has(text, c, '}') then Some((text[a..b], c + 2)) else None
  }

  lemma {:induction false} SkipSpacesIs(text: string, i: nat, r: nat)
    requires i <= r <= |text|
    ensures SkipSpaces(text, i) == r <==> Spaces(text, i, r) && (r == |text| || !IsSpace(text[r]))
    decreases |text| - i
  {
    if i < |text| && IsSpace(text[i]) && i < r {
      SkipSpacesIs(text, i + 1, r);
    }
  }

  lemma {:induction false} SkipWordIs(text: string, i: nat, r: nat)
    requires i <= r <= |text|
    ensures SkipWord(text, i) == r
      <==> ((forall k :: i <= k < r ==> IsWordChar(text[k])) && (r == |text| || !IsWordChar(text[r])))
    decreases |text| - i
  {
    if i < |text| && IsWordChar(text[i]) && i < r {
      SkipWordIs(text, i + 1, r);
    }
  }

  lemma MatchSound(text: string, i: nat)
    ensures match MatchAt(text, i)
      case Some((found, end)) => Placeholder(text, i, end, found)
      case None => true
  {
    if MatchAt(text, i).Some? {
      var a := SkipSpaces(text, i + 2);
      var b := SkipWord(text, a);
      var c := SkipSpaces(text, b);
      SkipSpacesIs(text, i + 2, a);
      SkipSpacesIs(text, b, c);
      assert PlaceholderAt(text, i, a, b, c + 2);
    }
  }

  lemma MatchComplete(text: string, i: nat, a: nat, b: nat, j: nat)
    requires PlaceholderAt(text, i, a, b, j)
    ensures MatchAt(text, i) == Some((text[a..b], j))
  {
    assert text[a..b][0] == text[a] && forall k :: a <= k < b ==> text[k] == text[a..b][k - a];
    SkipSpacesIs(text, i + 2, a);
    SkipWordIs(text, a, b);
    SkipSpacesIs(text, b, j - 2);
  }

  /** The scanner finds a match exactly where the pattern has one, and the only one. */
  lemma MatchIff(text: string, i: nat, j: nat, name: string)
    ensures MatchAt(text, i) == Some((name, j)) <==> Placeholder(text, i, j, name)
  {
    MatchSound(text, i);
    if Placeholder(text, i, j, name) {
      var a: nat, b: nat :| PlaceholderAt(text, i, a, b, j) && name == text[a..b];
      MatchComplete(text, i, a, b, j);
    }
  }

  // ---- segments ----

  /** What a script is made of: characters and placeholders (with their own text). */
  datatype Segment = Literal(c: char) | Hole(name: string, raw: string)

  lemma MatchAdvances(text: string, i: nat)
    ensures MatchAt(text, i).Some? ==> i < MatchAt(text, i).value.1 <= |text|
  {
  }

  function First(text: string, i: nat): Segment
    requires i < |text|
  {
    match MatchAt(text, i)
    case Some((name, j)) =>
      MatchAdvances(text, i);
      Hole(name, text[i..j])
    case None => Literal(text[i])
  }

  function Text(s: Segment): string {
    match s
    case Literal(c) => [c]
    case Hole(_, raw) => raw
  }

  function Scan(text: string, i: nat): seq<Segment>
    decreases |text| - i
  {
    if i >= |text| then []
    else
      [First(text, i)] + Scan(text, i + |Text(First(text, i))|)
  }

  /** A piece that may stand at `i`: it spells the text there, a hole is a placeholder, and a
      literal is a character at which no placeholder starts. */
  ghost predicate Stands(text: string, i: nat, seg: Segment) {
    var j := i + |Text(seg)|;
    && i < j <= |text| && text[i..j] == Text(seg)
    && match seg
       case Literal(_) => forall e: nat, name :: !Placeholder(text, i, e, name)
       case Hole(name, _) => Placeholder(text, i, j, name)
  }

  /** `segs` is a leftmost decomposition of the text from `i`. */
  ghost predicate Decomposes(text: string, i: nat, segs: seq<Segment>)
    decreases |segs|
  {
    if segs == [] then i == |text|
    else Stands(text, i, segs[0]) && Decomposes(text, i + |Text(segs[0])|, segs[1..])
  }

  lemma NoPlaceholder(text: string, i: nat)
    requires MatchAt(text, i).None?
    ensures forall e: nat, name :: !Placeholder(text, i, e, name)
  {
    forall e: nat, name ensures !Placeholder(text, i, e, name) {
      MatchIff(text, i, e, name);
    }
  }

  lemma HoleStandsIff(text: string, i: nat, name: string, raw: string)
    ensures Stands(text, i, Hole(name, raw))
      <==> (MatchAt(text, i) == Some((name, i + |raw|)) && raw == text[i..i + |raw|])
  {
    MatchAdvances(text, i);
    MatchIff(text, i, i + |raw|, name);
  }

  lemma LiteralStandsIff(text: string, i: nat, c: char)
    requires i < |text|
    ensures Stands(text, i, Literal(c)) <==> (MatchAt(text, i).None? && c == text[i])
  {
    MatchSound(text, i);
    if MatchAt(text, i).None? {
      NoPlaceholder(text, i);
    }
  }

  /** Exactly one piece may stand anywhere: the one the scanner finds. */
  lemma StandsIff(text: string, i: nat, seg: Segment)
    requires i < |text|
    ensures Stands(text, i, seg) <==> seg == First(text, i)
  {
    MatchAdvances(text, i);
    match seg
    case Hole(name, raw) => HoleStandsIff(text, i, name, raw);
    case Literal(c) => LiteralStandsIff(text, i, c);
  }

  lemma StandsInside(text: string, i: nat, seg: Segment)
    requires Stands(text, i, seg)
    ensures i < i + |Text(seg)| <= |text|
  {
  }

  lemma {:induction false} ScanDecomposes(text: string, i: nat)
    requires i <= |text|
    ensures Decomposes(text, i, Scan(text, i))
    decreases |text| - i
  {
    hide Stands, First;
    if i < |text| {
      var first, segs := First(text, i), Scan(text, i);
      var j := i + |Text(first)|;
      StandsIff(text, i, first);
      StandsInside(text, i, first);
      ScanDecomposes(text, j);
      assert segs[0] == first && segs[1..] == Scan(text, j);
    }
  }

  lemma {:induction false} DecompositionIsScan(text: string, i: nat, segs: seq<Segment>)
    requires i <= |text| && Decomposes(text, i, segs)
    ensures segs == Scan(text, i)
    decreases |segs|
  {
    hide Stands, First;
    if segs != [] {
      StandsInside(text, i, segs[0]);
      var first := First(text, i);
      StandsIff(text, i, segs[0]);
      assert segs[0] == first;
      DecompositionIsScan(text, i + |Text(first)|, segs[1..]);
      assert segs == [first] + segs[1..];
    }
  }

  /** The scan is the leftmost decomposition, and there is no other. */
  lemma ScanIff(text: string, segs: seq<Segment>)
    ensures Decomposes(text, 0, segs) <==> segs == Scan(text, 0)
  {
    ScanDecomposes(text, 0);
    if Decomposes(text, 0, segs) {
      DecompositionIsScan(text, 0, segs);
    }
  }

  // ---- placeholders and substitution ----

  function HoleNames(segs: seq<Segment>): set<string> {
    set k | 0 <= k < |segs| && segs[k].Hole? :: segs[k].name
  }

  function Placeholders(text: string): set<string> {
    HoleNames(Scan(text, 0))
  }

  predicate Supplied(segs: seq<Segment>, values: map<string, string>) {
    forall k :: 0 <= k < |segs| && segs[k].Hole? ==> segs[k].name in values
  }

  /** Each literal as it is, each hole the quoted value, in order. */
  function Substitute(segs: seq<Segment>, values: map<string, string>): string
    requires Supplied(segs, values)
  {
    if segs == [] then ""
    else
      (match segs[0] case Literal(c) => [c] case Hole(name, _) => Shell.Quote(values[name]))
      + Substitute(segs[1..], values)
  }

  /** `pattern.sub` over what it finds, left to right: `None` is the undeclared placeholder. */
  function Sub(segs: seq<Segment>, values: map<string, string>): Option<string> {
    if segs == [] then Some("")
    else
      match segs[0]
      case Literal(c) =>
        (match Sub(segs[1..], values)
         case None => None
         case Some(rest) => Some([c] + rest))
      case Hole(name, _) =>
        if name !in values then None
        else
          match Sub(segs[1..], values)
          case None => None
          case Some(rest) => Some(Shell.Quote(values[name]) + rest)
  }

  predicate Blank(script: string) { Strip(script) == "" }

  /** `render`: the exports of every value, then the script with its placeholders replaced. */
  ghost function Render(script: string, values: map<string, string>): Option<string> {
    if Blank(script) then Some("")
    else
      match Sub(Scan(script, 0), values)
      case None => None
      case Some(body) => Some(Shell.Exports(SortedKeys(values.Keys), values) + body)
  }

  lemma {:induction false} SubIs(segs: seq<Segment>, values: map<string, string>)
    ensures Sub(segs, values) == if Supplied(segs, values) then Some(Substitute(segs, values)) else None
  {
    if segs != [] {
      SubIs(segs[1..], values);
      if Supplied(segs[1..], values) && (segs[0].Hole? ==> segs[0].name in values) {
        assert forall k :: 0 < k < |segs| ==> segs[k] == segs[1..][k - 1];
      }
    }
  }

  /** A script that is not blank renders exactly when every placeholder in it is supplied. What
      comes out is the exports followed by the script's one leftmost decomposition, literals
      unchanged and each hole its quoted value: nothing a value brings in is looked at again. */
  lemma RenderIff(script: string, values: map<string, string>, segs: seq<Segment>)
    requires !Blank(script) && Decomposes(script, 0, segs)
    ensures Placeholders(script) == HoleNames(segs)
    ensures Render(script, values).Some? <==> Placeholders(script) <= values.Keys
    ensures Render(script, values).Some? ==>
      && Supplied(segs, values)
      && Render(script, values).value == Shell.Exports(SortedKeys(values.Keys), values) + Substitute(segs, values)
  {
    ScanIff(script, segs);
    SubIs(segs, values);
    SuppliedIff(segs, values);
  }

  lemma SuppliedIff(segs: seq<Segment>, values: map<string, string>)
    ensures Supplied(segs, values) <==> HoleNames(segs) <= values.Keys
  {
  }

  /** The exports do not depend on how the values are sorted: any ascending listing of their names
      gives the same text. */
  lemma RenderSorted(script: string, values: map<string, string>, keys: seq<string>)
    requires !Blank(script) && Ascending(keys) && (forall k :: k in keys <==> k in values)
    ensures Render(script, values).Some? ==>
      Supplied(Scan(script, 0), values)
      && Render(script, values).value == Shell.Exports(keys, values) + Substitute(Scan(script, 0), values)
  {
    hide Render, Substitute, Scan, Shell.Exports, Ascending;
    ScanIff(script, Scan(script, 0));
    RenderIff(script, values, Scan(script, 0));
    AscendingIsUnique(keys, SortedKeys(values.Keys));
  }

  /** Run by a shell, what is rendered first assigns exactly the values and then reaches the script
      with its placeholders replaced, exactly when every name is one a shell can assign to and no
      value holds a NUL. */
  lemma HookSeesItsValues(script: string, values: map<string, string>)
    requires !Blank(script) && Render(script, values).Some?
    ensures Supplied(Scan(script, 0), values)
    ensures Shell.RunAssignments(Render(script, values).value, |SortedKeys(values.Keys)|, map[])
        == Some((values, Substitute(Scan(script, 0), values)))
      <==> forall k :: k in values ==> Shell.ShellName(k) && Shell.NoNul(values[k])
  {
    hide Render, Substitute, Scan, Shell.RunAssignments, Shell.Exports, Shell.ShellName, Shell.NoNul;
    ScanIff(script, Scan(script, 0));
    RenderIff(script, values, Scan(script, 0));
    Shell.PreambleRebuilds(SortedKeys(values.Keys), values, Substitute(Scan(script, 0), values));
  }

  /** A blank script names no placeholder. */
  lemma BlankHasNoPlaceholders(script: string)
    requires Blank(script)
    ensures Placeholders(script) == {}
  {
    BlankIsSpaces(script);
    BlankScan(script, 0);
  }

  lemma {:induction false} BlankScan(text: string, i: nat)
    requires forall k :: 0 <= k < |text| ==> IsSpace(text[k])
    ensures forall k :: 0 <= k < |Scan(text, i)| ==> Scan(text, i)[k].Literal?
    decreases |text| - i
  {
    if i < |text| {
      BlankScan(text, i + 1);
    }
  }

  lemma BlankIsSpaces(s: string)
    requires Strip(s) == ""
    ensures forall k :: 0 <= k < |s| ==> IsSpace(s[k])
  {
    LStripSuffix(s);
    RStripSpaces(LStrip(s));
  }

  lemma {:induction false} LStripSuffix(s: string)
    ensures var n := |s| - |LStrip(s)|; n >= 0 && s[n..] == LStrip(s) && forall k :: 0 <= k < n ==> IsSpace(s[k])
  {
    if s != "" && IsSpace(s[0]) {
      LStripSuffix(s[1..]);
      var n := |s| - |LStrip(s)|;
      assert s[n..] == s[1..][n - 1..];
      assert forall k :: 0 < k < n ==> s[k] == s[1..][k - 1];
    }
  }

  lemma {:induction false} RStripSpaces(s: string)
    requires RStrip(s) == ""
    ensures forall k :: 0 <= k < |s| ==> IsSpace(s[k])
  {
    if s != "" {
      RStripSpaces(s[..|s| - 1]);
      assert forall k :: 0 <= k < |s| - 1 ==> s[k] == s[..|s| - 1][k];
    }
  }
}
