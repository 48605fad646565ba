/** Python's string operations, as far as the control plane uses them. */
module Strings {

  // ---- order ----

  /** Lexicographic order on code points: Python's `<=` on strings. */
  predicate Le(a: string, b: string) {
    a == "" || (b != "" && (a[0] < b[0] || (a[0] == b[0] && Le(a[1..], b[1..]))))
  }

  lemma {:induction false} LeTotal(a: string, b: string)
    ensures Le(a, b) || Le(b, a)
  {
    if a != "" && b != "" && a[0] == b[0] {
      LeTotal(a[1..], b[1..]);
    }
  }

  lemma {:induction false} LeTransitive(a: string, b: string, c: string)
    requires Le(a, b) && Le(b, c)
    ensures Le(a, c)
  {
    if a != "" && a[0] == b[0] && b[0] == c[0] {
      LeTransitive(a[1..], b[1..], c[1..]);
    }
  }

  lemma {:induction false} LeAntisymmetric(a: string, b: string)
    requires Le(a, b) && Le(b, a)
    ensures a == b
  {
    if a != "" && b != "" {
      LeAntisymmetric(a[1..], b[1..]);
      assert a == [a[0]] + a[1..] && b == [b[0]] + b[1..];
    }
  }

  /** A proper prefix comes first. */
  lemma {:induction false} PrefixFirst(a: string, b: string)
    ensures Le(a, a + b)
  {
    if a != "" {
      PrefixFirst(a[1..], b);
      assert (a + b)[1..] == a[1..] + b;
    }
  }

  ghost predicate TotalPreorder(le: (string, string) -> bool) {
    && (forall a, b :: le(a, b) || le(b, a))
    && (forall a, b, c :: le(a, b) && le(b, c) ==> le(a, c))
  }

  /** A finite nonempty set has a least element. */
  lemma {:induction false} LeastExists(s: set<string>, le: (string, string) -> bool)
    requires s != {} && TotalPreorder(le)
    ensures exists m :: m in s && forall k :: k in s ==> le(m, k)
  {
    var x :| x in s;
    var rest := s - {x};
    assert le(x, x);
    if rest == {} {
      assert s == {x};
    } else {
      LeastExists(rest, le);
      var m :| m in rest && forall k :: k in rest ==> le(m, k);
      if le(x, m) {
        forall k | k in s ensures le(x, k) {
          assert k == x || k in rest;
        }
      } else {
        forall k | k in s ensures le(m, k) {
          assert k == x || k in rest;
        }
      }
    }
  }

  lemma LeIsTotalPreorder()
    ensures TotalPreorder(Le)
  {
    forall a, b ensures Le(a, b) || Le(b, a) {
      LeTotal(a, b);
    }
    forall a, b, c | Le(a, b) && Le(b, c) ensures Le(a, c) {
      LeTransitive(a, b, c);
    }
  }

  predicate Ascending(ks: seq<string>) {
    forall i, j :: 0 <= i < j < |ks| ==> ks[i] != ks[j] && Le(ks[i], ks[j])
  }

  /** `sorted(...)` of a dictionary's keys. */
  ghost function SortedKeys(s: set<string>): (ks: seq<string>)
    ensures Ascending(ks) && |ks| == |s| && forall k :: k in ks <==> k in s
  {
    if s == {} then []
    else
      LeIsTotalPreorder();
      LeastExists(s, Le);
      var m :| m in s && forall k :: k in s ==> Le(m, k);
      [m] + SortedKeys(s - {m})
  }

  /** There is only one ascending sequence of a set. */
  lemma {:induction false} AscendingIsUnique(a: seq<string>, b: seq<string>)
    requires Ascending(a) && Ascending(b) && forall k :: k in a <==> k in b
    ensures a == b
  {
    assert b != [] ==> b[0] in b && b[0] in a;
    if a != [] {
      assert a[0] in a && a[0] in b;
      if a[0] != b[0] {
        LeAntisymmetric(a[0], b[0]);
        assert false;
      }
      forall k ensures k in a[1..] <==> k in b[1..] {
        assert k in a[1..] <==> k in a && k != a[0];
        assert k in b[1..] <==> k in b && k != b[0];
      }
      AscendingIsUnique(a[1..], b[1..]);
      assert a == [a[0]] + a[1..] && b == [b[0]] + b[1..];
    }
  }

  // ---- characters ----

  predicate IsLowerLetter(c: char) { 'a' <= c <= 'z' }

  predicate IsDigit(c: char) { '0' <= c <= '9' }

  predicate IsSlug(c: char) { IsLowerLetter(c) || IsDigit(c) }

  /** White space as `str.strip`, `str.isspace` and `\s` see it. */
  predicate IsSpace(c: char) {
    || '\t' <= c <= '\r' || '\U{1c}' <= c <= ' '
    || c == '\U{85}' || c == '\U{a0}' || c == '\U{1680}' || '\U{2000}' <= c <= '\U{200a}'
    || c == '\U{2028}' || c == '\U{2029}' || c == '\U{202f}' || c == '\U{205f}' || c == '\U{3000}'
  }

  /** Lower case, character by character: ASCII, and the Kelvin sign that lowers into it. */
  function LowerChar(c: char): char {
    if 'A' <= c <= 'Z' then c - 'A' + 'a' else if c == '\U{212a}' then 'k' else c
  }

  function Lower(s: string): (r: string)
    ensures |r| == |s| && forall i :: 0 <= i < |s| ==> r[i] == LowerChar(s[i])
  {
    if s == "" then "" else [LowerChar(s[0])] + Lower(s[1..])
  }

  // ---- stripping ----

  function LStrip(s: string): string {
    if s != "" && IsSpace(s[0]) then LStrip(s[1..]) else s
  }

  function RStrip(s: string): string {
    if s != "" && IsSpace(s[|s| - 1]) then RStrip(s[..|s| - 1]) else s
  }

  function Strip(s: string): string {
    RStrip(LStrip(s))
  }

  /** Stripping takes white space off both ends, and all of it. */
  lemma {:induction false} StripIs(s: string) returns (a: string, b: string)
    ensures s == a + Strip(s) + b && forall c :: c in a || c in b ==> IsSpace(c)
    ensures Strip(s) != "" ==> !IsSpace(Strip(s)[0]) && !IsSpace(Strip(s)[|Strip(s)| - 1])
  {
    hide IsSpace;
    if s != "" && IsSpace(s[0]) {
      a, b := StripIs(s[1..]);
      a := [s[0]] + a;
    } else if s != "" && IsSpace(s[|s| - 1]) {
      a, b := StripIs(s[..|s| - 1]);
      b := b + [s[|s| - 1]];
    } else {
      a, b := "", "";
    }
  }

  function RStripChar(s: string, c: char): string {
    if s != "" && s[|s| - 1] == c then RStripChar(s[..|s| - 1], c) else s
  }

  function LStripChar(s: string, c: char): string {
    if s != "" && s[0] == c then LStripChar(s[1..], c) else s
  }

  // ---- searching ----

  predicate EndsWith(s: string, suffix: string) {
    |suffix| <= |s| && s[|s| - |suffix|..] == suffix
  }

  predicate StartsWith(s: string, prefix: string) {
    prefix <= s
  }

  /** The text before the first `c`: `s.split(c)[0]`. */
  function Before(s: string, c: char): string {
    if s == "" || s[0] == c then "" else [s[0]] + Before(s[1..], c)
  }

  /** The number that decimal digits spell. */
  function Number(x: string): nat
    requires forall i :: 0 <= i < |x| ==> IsDigit(x[i])
  {
    if x == "" then 0 else assert IsDigit(x[|x| - 1]); 10 * Number(x[..|x| - 1]) + (x[|x| - 1] as int - '0' as int)
  }

  // ---- lists ----

  /** `list(dict.fromkeys(...))` */
  function Dedup(s: seq<string>): seq<string> {
    if s == [] then []
    else
      var init, last := Dedup(s[..|s| - 1]), s[|s| - 1];
      if last in init then init else init + [last]
  }

  predicate NoDup(s: seq<string>) {
    forall i, j :: 0 <= i < j < |s| ==> s[i] != s[j]
  }

  lemma {:induction false} DedupIs(s: seq<string>)
    ensures NoDup(Dedup(s)) && forall x :: x in Dedup(s) <==> x in s
    ensures NoDup(s) ==> Dedup(s) == s
  {
    if s != [] {
      DedupIs(s[..|s| - 1]);
      assert s == s[..|s| - 1] + [s[|s| - 1]];
      assert forall x :: x in s <==> x in s[..|s| - 1] || x == s[|s| - 1];
    }
  }

  /** First occurrences keep their order: what a longer list adds comes at the end. */
  lemma {:induction false} DedupInOrder(s: seq<string>, n: nat)
    requires n <= |s|
    ensures Dedup(s[..n]) <= Dedup(s)
  {
    if n < |s| {
      DedupInOrder(s[..|s| - 1], n);
      assert s[..|s| - 1][..n] == s[..n];
    } else {
      assert s[..n] == s;
    }
  }
}
