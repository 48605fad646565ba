/** What `sanitize` makes of a name: its words, joined by dashes and cut to length. */
module Slugs {
  import opened Strings
  import Naming

  predicate WordChar(c: char) { 'a' <= c <= 'z' || '0' <= c <= '9' }

  /** Letters and digits up to the first other character. */
  function Word(s: string): (w: string)
    ensures |w| <= |s| && s[..|w|] == w && (forall i :: 0 <= i < |w| ==> WordChar(w[i]))
    ensures |w| < |s| ==> !WordChar(s[|w|])
  {
    if s != "" && WordChar(s[0]) then [s[0]] + Word(s[1..]) else ""
  }

  /** The maximal runs of letters and digits, in order. */
  function Words(s: string): seq<string> {
    if s == "" then []
    else if WordChar(s[0]) then [Word(s)] + Words(s[|Word(s)|..])
    else Words(s[1..])
  }

  function Joined(words: seq<string>): string {
    if words == [] then "" else if |words| == 1 then words[0] else words[0] + "-" + Joined(words[1..])
  }

  predicate Leads(s: string) { s != "" && !WordChar(s[0]) }

  predicate Trails(s: string) { s != "" && !WordChar(s[|s| - 1]) && Words(s) != [] }

  lemma {:induction false} CollapseWord(w: string, s: string)
    requires forall i :: 0 <= i < |w| ==> WordChar(w[i])
    ensures Naming.Collapse(w + s) == w + Naming.Collapse(s)
  {
    if w == "" {
      assert w + s == s;
    } else {
      CollapseWord(w[1..], s);
      assert (w + s)[1..] == w[1..] + s;
      assert w == [w[0]] + w[1..];
    }
  }

  lemma {:induction false} DropJunkWords(s: string)
    ensures Words(Naming.DropJunk(s)) == Words(s) && !Leads(Naming.DropJunk(s))
    ensures Trails(Naming.DropJunk(s)) == Trails(s)
  {
    if Leads(s) {
      DropJunkWords(s[1..]);
    }
  }

  /** A dash before or after, if so. */
  function Framed(lead: bool, j: string, trail: bool): string {
    (if lead then "-" else "") + j + (if trail then "-" else "")
  }

  lemma FrameMore(w: string, j: string, trail: bool)
    ensures "-" + Framed(false, j, trail) == Framed(true, j, trail)
    ensures w + Framed(true, j, trail) == Framed(false, w + "-" + j, trail)
    ensures w + Framed(true, "", false) == Framed(false, w, true)
    ensures w + "" == Framed(false, w, false)
  {
    assert w + ("-" + j + "-") == (w + "-" + j) + "-";
    assert w + ("-" + j + "") == (w + "-" + j) + "";
  }

  lemma WordFirst(s: string)
    requires s != "" && WordChar(s[0])
    ensures var w, rest := Word(s), s[|Word(s)|..];
      && s == w + rest && |w| >= 1 && |rest| < |s| && Words(s) == [w] + Words(rest) && (rest == "" || Leads(rest))
      && (rest == "" ==> !Trails(s)) && (rest != "" ==> (Trails(s) <==> !WordChar(rest[|rest| - 1])))
  {
    var w, rest := Word(s), s[|Word(s)|..];
    assert rest != "" ==> s[|s| - 1] == rest[|rest| - 1];
    assert rest == "" ==> s[|s| - 1] == w[|w| - 1];
  }

  lemma JoinedMore(w: string, words: seq<string>)
    ensures Joined([w] + words) == if words == [] then w else w + "-" + Joined(words)
  {
    assert ([w] + words)[1..] == words;
  }

  /** Collapsing leaves the words joined, with a dash for what leads and what trails. */
  lemma {:induction false} CollapseIs(s: string)
    ensures Naming.Collapse(s) == Framed(Leads(s), Joined(Words(s)), Trails(s))
    decreases |s|
  {
    if s == "" {
    } else if WordChar(s[0]) {
      WordFirst(s);
      CollapseIs(s[|Word(s)|..]);
      CollapseWordFirst(s);
    } else {
      CollapseIs(Naming.DropJunk(s[1..]));
      CollapseJunkFirst(s);
    }
  }

  lemma CollapseJunkFirst(s: string)
    requires s != "" && !WordChar(s[0])
    requires var rest := Naming.DropJunk(s[1..]);
      Naming.Collapse(rest) == Framed(Leads(rest), Joined(Words(rest)), Trails(rest))
    ensures Naming.Collapse(s) == Framed(Leads(s), Joined(Words(s)), Trails(s))
  {
    var rest := Naming.DropJunk(s[1..]);
    DropJunkWords(s[1..]);
    JunkFirst(s);
    hide *;
    FrameMore("", Joined(Words(rest)), Trails(rest));
  }

  lemma JunkFirst(s: string)
    requires s != "" && !WordChar(s[0])
    ensures Naming.Collapse(s) == "-" + Naming.Collapse(Naming.DropJunk(s[1..]))
    ensures Leads(s) && Words(s) == Words(s[1..]) && Trails(s) == Trails(s[1..])
  {
  }

  lemma CollapseWordFirst(s: string)
    requires s != "" && WordChar(s[0])
    requires var rest := s[|Word(s)|..];
      Naming.Collapse(rest) == Framed(Leads(rest), Joined(Words(rest)), Trails(rest))
    ensures Naming.Collapse(s) == Framed(Leads(s), Joined(Words(s)), Trails(s))
  {
    hide Naming.Collapse, Words, Word, Joined, Framed;
    var w, rest := Word(s), s[|Word(s)|..];
    WordFirst(s);
    CollapseWord(w, rest);
    JoinedMore(w, Words(rest));
    FrameMore(w, Joined(Words(rest)), Trails(rest));
    NoWords();
    if rest != "" && Words(rest) == [] {
      AllJunk(rest);
    }
  }

  lemma NoWords()
    ensures Words("") == [] && Joined([]) == "" && Naming.Collapse("") == ""
  {
  }

  lemma {:induction false} AllJunk(s: string)
    requires Words(s) == []
    ensures forall i :: 0 <= i < |s| ==> !WordChar(s[i])
  {
    if s != "" {
      AllJunk(s[1..]);
    }
  }

  lemma {:induction false} WordsAreWords(s: string)
    ensures forall i :: 0 <= i < |Words(s)| ==> Words(s)[i] != "" && forall c :: c in Words(s)[i] ==> WordChar(c)
    decreases |s|
  {
    if s != "" {
      if WordChar(s[0]) {
        WordFirst(s);
        WordsAreWords(s[|Word(s)|..]);
      } else {
        WordsAreWords(s[1..]);
      }
    }
  }

  /** Words joined start and end in letters or digits, and no two dashes meet. */
  lemma {:induction false} JoinedIsClean(words: seq<string>)
    requires forall i :: 0 <= i < |words| ==> words[i] != "" && forall c :: c in words[i] ==> WordChar(c)
    ensures var j := Joined(words);
      && (j == "" <==> words == [])
      && (j != "" ==> WordChar(j[0]) && WordChar(j[|j| - 1]))
      && forall i :: 0 < i < |j| && !WordChar(j[i]) ==> j[i] == '-' && WordChar(j[i - 1])
  {
    if |words| > 1 {
      var rest, w := Joined(words[1..]), words[0];
      JoinedIsClean(words[1..]);
      var j := Joined(words);
      assert j == w + "-" + rest;
      assert forall i :: 0 <= i < |w| ==> j[i] == w[i] && w[i] in w;
      forall i | 0 < i < |j| && !WordChar(j[i]) ensures j[i] == '-' && WordChar(j[i - 1]) {
        if i == |w| {
          assert j[i - 1] == w[i - 1] && w[i - 1] in w;
        } else if i > |w| {
          assert j[i] == rest[i - |w| - 1];
        }
      }
      assert j[0] == w[0] && w[0] in w && j[|j| - 1] == rest[|rest| - 1];
    }
  }

  lemma TrimDashes(lead: bool, j: string, trail: bool)
    requires j != "" ==> WordChar(j[0]) && WordChar(j[|j| - 1])
    requires j == "" ==> !trail
    ensures Naming.Trim(Framed(lead, j, trail)) == j
  {
    var rest := Framed(false, j, trail);
    assert LStripChar(rest, '-') == rest;
    if lead {
      assert Framed(lead, j, trail)[1..] == rest;
    }
    assert RStripChar(j, '-') == j;
    if trail {
      assert rest[..|rest| - 1] == j;
    } else {
      assert rest == j;
    }
  }

  lemma TrimCut(j: string, n: nat)
    requires 1 <= n < |j| && WordChar(j[0])
    requires forall i :: 0 < i < |j| && !WordChar(j[i]) ==> j[i] == '-' && WordChar(j[i - 1])
    ensures Naming.Trim(j[..n]) == if j[n - 1] == '-' then j[..n - 1] else j[..n]
  {
    var s := j[..n];
    assert LStripChar(s, '-') == s;
    if j[n - 1] == '-' {
      assert s[..n - 1] == j[..n - 1] && WordChar(j[n - 2]);
      assert RStripChar(j[..n - 1], '-') == j[..n - 1];
    }
  }

  /** The words of a name joined by dashes; no words make `x`. Cut to length, a dash left at the end
      goes too. */
  lemma SanitizeIs(name: string, maxlen: nat)
    requires maxlen >= 1
    ensures var slug := Joined(Words(Lower(name)));
      Naming.Sanitize(name, maxlen) ==
        if slug == "" then "x"
        else if |slug| <= maxlen then slug
        else if slug[maxlen - 1] == '-' then slug[..maxlen - 1]
        else slug[..maxlen]
  {
    hide Naming.Collapse, Naming.Trim, Words, Joined, Leads, Lower, WordChar;
    var s := Lower(name);
    var slug := Joined(Words(s));
    CollapseIs(s);
    WordsAreWords(s);
    JoinedIsClean(Words(s));
    TrimDashes(Leads(s), slug, Trails(s));
    TrimDashes(false, slug, false);
    assert Framed(false, slug, false) == slug;
    if |slug| > maxlen {
      TrimCut(slug, maxlen);
    }
  }
}
