/** Which strings the egress policy takes for hostnames, and to what it normalizes them, told
    without splitting, stripping or lowering. */
module Hostnames {
  import opened Wrappers
  import opened Strings
  import opened Egress

  // ---- pieces between separators ----

  /** `s[i..j]` is a whole piece between two separators or an end. */
  predicate Piece(s: string, c: char, i: int, j: int) {
    && 0 <= i <= j <= |s|
    && (i == 0 || s[i - 1] == c) && (j == |s| || s[j] == c)
    && forall k :: i <= k < j ==> s[k] != c
  }

  function Joined(a: string, c: char, b: string): string { a + [c] + b }

  lemma {:induction false} SplitFirst(a: string, c: char, b: string)
    requires c !in a
    ensures Split(a, c) == [a] && Split(Joined(a, c, b), c) == [a] + Split(b, c)
  {
    if a == "" {
      assert Joined(a, c, b)[1..] == b;
    } else {
      SplitFirst(a[1..], c, b);
      assert Joined(a, c, b)[1..] == Joined(a[1..], c, b);
      assert a == [a[0]] + a[1..];
    }
  }

  /** A string holds no separator, or splits at its first one. */
  lemma {:induction false} FirstSeparator(s: string, c: char) returns (a: string, b: string)
    ensures c !in a
    ensures c in s ==> s == Joined(a, c, b)
    ensures c !in s ==> s == a
  {
    if s == "" {
      a, b := "", "";
    } else if s[0] == c {
      a, b := "", s[1..];
    } else {
      a, b := FirstSeparator(s[1..], c);
      a := [s[0]] + a;
      assert s == [s[0]] + s[1..];
    }
  }

  lemma PiecesOfJoined(a: string, c: char, b: string, i: int, j: int)
    requires c !in a
    ensures var n := |a| + 1;
      Piece(Joined(a, c, b), c, i, j) <==> (i == 0 && j == |a|) || (i >= n && Piece(b, c, i - n, j - n))
  {
    var s, n := Joined(a, c, b), |a| + 1;
    assert s[|a|] == c && (forall k :: 0 <= k < |a| ==> s[k] == a[k]) && forall k :: n <= k < |s| ==> s[k] == b[k - n];
    if i >= n {
      assert Piece(s, c, i, j) ==> forall k :: i - n <= k < j - n ==> b[k] == s[k + n];
    }
  }

  lemma {:induction false} PiecesOfSplit(s: string, c: char)
    ensures forall i, j :: Piece(s, c, i, j) ==> s[i..j] in Split(s, c)
    ensures forall x :: x in Split(s, c) ==> exists i, j :: Piece(s, c, i, j) && 0 <= i <= j <= |s| && x == s[i..j]
    decreases |s|
  {
    hide Piece, Split;
    var a, b := FirstSeparator(s, c);
    SplitFirst(a, c, b);
    if c in s {
      var n := |a| + 1;
      PiecesOfSplit(b, c);
      forall i, j | Piece(s, c, i, j) ensures 0 <= i <= j <= |s| && s[i..j] in Split(s, c) {
        PiecesOfJoined(a, c, b, i, j);
        PieceBounds(s, c, i, j);
        if i >= n {
          PieceBounds(b, c, i - n, j - n);
          assert s[i..j] == b[i - n..j - n];
        } else {
          assert s[i..j] == a;
        }
      }
      forall x | x in Split(s, c) ensures exists i, j :: Piece(s, c, i, j) && 0 <= i <= j <= |s| && x == s[i..j] {
        if x in Split(b, c) {
          var i, j :| Piece(b, c, i, j) && 0 <= i <= j <= |b| && x == b[i..j];
          PiecesOfJoined(a, c, b, i + n, j + n);
          assert s[i + n..j + n] == x;
        } else {
          PiecesOfJoined(a, c, b, 0, |a|);
          assert s[0..|a|] == x;
        }
      }
    } else {
      OnlyPiece(s, c);
    }
  }

  lemma PieceBounds(s: string, c: char, i: int, j: int)
    ensures Piece(s, c, i, j) ==> 0 <= i <= j <= |s|
  {
  }

  lemma OnlyPiece(s: string, c: char)
    requires c !in s
    ensures forall i, j :: Piece(s, c, i, j) <==> i == 0 && j == |s|
    ensures s[0..|s|] == s
  {
  }

  /** Every other character is in some piece. */
  lemma {:induction false} CharsOfSplit(s: string, c: char, k: nat)
    requires k < |s| && s[k] != c
    ensures exists x :: x in Split(s, c) && s[k] in x
    decreases |s|
  {
    var a, b := FirstSeparator(s, c);
    SplitFirst(a, c, b);
    if k < |a| {
      assert s[k] == a[k] && a in Split(s, c);
    } else {
      CharsOfSplit(b, c, k - |a| - 1);
    }
  }

  // ---- decimal octets ----

  /** 0 to 255 in decimal, without a leading zero. */
  predicate DecimalOctet(x: string) {
    || (|x| == 1 && '0' <= x[0] <= '9')
    || (|x| == 2 && '1' <= x[0] <= '9' && '0' <= x[1] <= '9')
    || (|x| == 3 && x[0] == '1' && '0' <= x[1] <= '9' && '0' <= x[2] <= '9')
    || (|x| == 3 && x[0] == '2' && '0' <= x[1] <= '4' && '0' <= x[2] <= '9')
    || (|x| == 3 && x[0] == '2' && x[1] == '5' && '0' <= x[2] <= '5')
  }

  lemma NumberSnoc(x: string, c: char)
    requires (forall i :: 0 <= i < |x| ==> IsDigit(x[i])) && IsDigit(c)
    ensures Number(x + [c]) == 10 * Number(x) + (c as int - '0' as int)
  {
    assert (x + [c])[..|x|] == x;
  }

  lemma OctetIff(x: string)
    ensures Octet(x) <==> DecimalOctet(x)
  {
    hide Number;
    if 1 <= |x| <= 3 && forall i :: 0 <= i < |x| ==> IsDigit(x[i]) {
      assert Number("") == 0 by { NoNumber(); }
      NumberSnoc("", x[0]);
      assert x[..1] == "" + [x[0]];
      if |x| >= 2 {
        NumberSnoc(x[..1], x[1]);
        assert x[..2] == x[..1] + [x[1]];
        if |x| == 3 {
          NumberSnoc(x[..2], x[2]);
          assert x == x[..2] + [x[2]];
        } else {
          assert x == x[..2];
        }
      } else {
        assert x == x[..1];
      }
    }
  }

  lemma NoNumber()
    ensures Number("") == 0
  {
  }

  function Quad(a: string, b: string, c: string, d: string): string {
    Joined(a, '.', Joined(b, '.', Joined(c, '.', d)))
  }

  ghost predicate DottedQuad(s: string) {
    exists a, b, c, d :: DecimalOctet(a) && DecimalOctet(b) && DecimalOctet(c) && DecimalOctet(d)
                         && s == Quad(a, b, c, d)
  }

  lemma QuadSplits(a: string, b: string, c: string, d: string)
    requires '.' !in a && '.' !in b && '.' !in c && '.' !in d
    ensures Split(Quad(a, b, c, d), '.') == [a, b, c, d]
  {
    hide Split, Joined;
    SplitFirst(a, '.', Joined(b, '.', Joined(c, '.', d)));
    SplitFirst(b, '.', Joined(c, '.', d));
    SplitFirst(c, '.', d);
    SplitFirst(d, '.', "");
  }

  lemma FourPieces(s: string) returns (a: string, b: string, c: string, d: string)
    requires |Split(s, '.')| == 4
    ensures Split(s, '.') == [a, b, c, d] && s == Quad(a, b, c, d)
  {
    hide Split, Joined;
    var r, t, u: string;
    a, r := FirstPiece(s);
    b, t := FirstPiece(r);
    c, u := FirstPiece(t);
    d := u;
    LastPiece(u);
  }

  lemma FirstPiece(s: string) returns (a: string, b: string)
    requires |Split(s, '.')| > 1
    ensures s == Joined(a, '.', b) && Split(s, '.') == [a] + Split(b, '.')
  {
    a, b := FirstSeparator(s, '.');
    SplitFirst(a, '.', b);
  }

  lemma LastPiece(s: string)
    requires |Split(s, '.')| == 1
    ensures Split(s, '.') == [s]
  {
    var a, b := FirstSeparator(s, '.');
    SplitFirst(a, '.', b);
  }

  /** The address literals are the four decimal octets. */
  lemma IpLiteralIff(s: string)
    ensures IpLiteral(s) <==> DottedQuad(s)
  {
    hide Octet, DecimalOctet, Split, Quad;
    if IpLiteral(s) {
      LiteralIsQuad(s);
    }
    if DottedQuad(s) {
      var a, b, c, d :| DecimalOctet(a) && DecimalOctet(b) && DecimalOctet(c) && DecimalOctet(d)
                        && s == Quad(a, b, c, d);
      QuadIsLiteral(a, b, c, d);
    }
  }

  lemma LiteralIsQuad(s: string)
    requires IpLiteral(s)
    ensures DottedQuad(s)
  {
    hide Octet, DecimalOctet, Split, Quad;
    var a, b, c, d := FourPieces(s);
    var parts := [a, b, c, d];
    assert Octet(parts[0]) && Octet(parts[1]) && Octet(parts[2]) && Octet(parts[3]);
    OctetIff(a);
    OctetIff(b);
    OctetIff(c);
    OctetIff(d);
  }

  lemma NoDots(x: string)
    ensures DecimalOctet(x) ==> '.' !in x
  {
  }

  lemma QuadIsLiteral(a: string, b: string, c: string, d: string)
    requires DecimalOctet(a) && DecimalOctet(b) && DecimalOctet(c) && DecimalOctet(d)
    ensures IpLiteral(Quad(a, b, c, d))
  {
    hide Octet, DecimalOctet, Split, Quad;
    NoDots(a);
    NoDots(b);
    NoDots(c);
    NoDots(d);
    QuadSplits(a, b, c, d);
    OctetIff(a);
    OctetIff(b);
    OctetIff(c);
    OctetIff(d);
  }

  // ---- hostnames ----

  predicate HostChars(x: string) {
    forall i :: 0 <= i < |x| ==> 'a' <= x[i] <= 'z' || '0' <= x[i] <= '9' || x[i] == '-' || x[i] == '.'
  }

  /** 1 to 253 characters out of a-z, 0-9, dash and dot, each piece between dots of 1 to 63
      characters without a dash at either end, and not four decimal octets. */
  ghost predicate Hostname(s: string) {
    && 1 <= |s| <= 253
    && HostChars(s)
    && (forall i, j :: Piece(s, '.', i, j) ==> 1 <= j - i <= 63 && s[i] != '-' && s[j - 1] != '-')
    && !DottedQuad(s)
  }

  predicate NoCapitals(s: string) {
    forall i :: 0 <= i < |s| ==> !('A' <= s[i] <= 'Z')
  }

  lemma HostTextIff(s: string)
    requires NoCapitals(s)
    ensures HostText(s) <==> Hostname(s)
  {
    hide IpLiteral, DottedQuad, Split, Piece, HostLabel, IsSpace;
    IpLiteralIff(s);
    PiecesOfSplit(s, '.');
    if HostText(s) {
      LabelsAreHosts(s);
    }
    if Hostname(s) {
      HostsAreLabels(s);
      assert forall i :: 0 <= i < |s| ==> !IsSpace(s[i]) by { NoSpace(s); }
    }
  }

  lemma NoSpace(s: string)
    requires HostChars(s)
    ensures forall i :: 0 <= i < |s| ==> !IsSpace(s[i])
  {
  }

  lemma LabelsAreHosts(s: string)
    requires NoCapitals(s) && forall x :: x in Split(s, '.') ==> HostLabel(x)
    ensures HostChars(s)
    ensures forall i, j :: Piece(s, '.', i, j) ==> 1 <= j - i <= 63 && s[i] != '-' && s[j - 1] != '-'
  {
    hide Split;
    PiecesOfSplit(s, '.');
    forall i | 0 <= i < |s| && s[i] != '.' ensures 'a' <= s[i] <= 'z' || '0' <= s[i] <= '9' || s[i] == '-' {
      CharsOfSplit(s, '.', i);
      var x :| x in Split(s, '.') && s[i] in x;
      var k :| 0 <= k < |x| && x[k] == s[i];
    }
    forall i, j | Piece(s, '.', i, j) ensures 1 <= j - i <= 63 && s[i] != '-' && s[j - 1] != '-' {
      var x := s[i..j];
      assert x in Split(s, '.') && HostLabel(x);
      assert x[0] == s[i] && x[|x| - 1] == s[j - 1];
    }
  }

  lemma HostsAreLabels(s: string)
    requires HostChars(s)
    requires forall i, j :: Piece(s, '.', i, j) ==> 1 <= j - i <= 63 && s[i] != '-' && s[j - 1] != '-'
    ensures forall x :: x in Split(s, '.') ==> HostLabel(x)
  {
    hide Split;
    PiecesOfSplit(s, '.');
    forall x | x in Split(s, '.') ensures HostLabel(x) {
      var i, j :| Piece(s, '.', i, j) && x == s[i..j];
      assert forall k :: 0 <= k < |x| ==> x[k] == s[i + k] && s[i + k] != '.';
    }
  }

  /** What is left of the input: its final dots dropped, its capitals lowered. */
  ghost predicate Lowered(value: string, v: string) {
    && |v| <= |value|
    && (forall i :: |v| <= i < |value| ==> value[i] == '.') && (v == "" || value[|v| - 1] != '.')
    && forall i :: 0 <= i < |v| ==>
         v[i] == if 'A' <= value[i] <= 'Z' then value[i] - 'A' + 'a'
                 else if value[i] == '\U{212a}' then 'k' else value[i]
  }

  lemma {:induction false} RStripCharIs(s: string, c: char)
    ensures var r := RStripChar(s, c);
      r <= s && (forall i :: |r| <= i < |s| ==> s[i] == c) && (r == "" || r[|r| - 1] != c)
  {
    if s != "" && s[|s| - 1] == c {
      RStripCharIs(s[..|s| - 1], c);
    }
  }

  /** Exactly one string is left of an input, and the input normalizes exactly when that is a
      hostname, to it. */
  lemma NormalizeIs(value: string, v: string)
    ensures exists u :: Lowered(value, u)
    ensures Lowered(value, v) ==> NormalizeHost(value) == if Hostname(v) then Some(v) else None
  {
    hide HostText, Hostname, RStripChar;
    LoweredIs(value, v);
    LoweredIs(value, Lower(RStripChar(value, '.')));
    assert Lowered(value, Lower(RStripChar(value, '.')));
    if Lowered(value, v) {
      HostTextIff(v);
    }
  }

  lemma LoweredIs(value: string, v: string)
    ensures Lowered(value, v) <==> v == Lower(RStripChar(value, '.'))
    ensures NoCapitals(Lower(RStripChar(value, '.')))
  {
    hide RStripChar, Lowered;
    var r := RStripChar(value, '.');
    RStripCharIs(value, '.');
    LoweringIsLowered(value, r);
    if Lowered(value, v) {
      SameLength(value, r, v);
      assert forall i :: 0 <= i < |v| ==> v[i] == LowerChar(r[i]) by { LoweredChars(value, r, v); }
    }
  }

  lemma LoweringIsLowered(value: string, r: string)
    requires r <= value && (forall i :: |r| <= i < |value| ==> value[i] == '.') && (r == "" || r[|r| - 1] != '.')
    ensures Lowered(value, Lower(r))
  {
  }

  lemma SameLength(value: string, r: string, v: string)
    requires r <= value && (forall i :: |r| <= i < |value| ==> value[i] == '.') && (r == "" || r[|r| - 1] != '.')
    requires Lowered(value, v)
    ensures |v| == |r|
  {
    assert r == "" || value[|r| - 1] == r[|r| - 1];
  }

  lemma LoweredChars(value: string, r: string, v: string)
    requires r <= value && Lowered(value, v) && |v| == |r|
    ensures forall i :: 0 <= i < |v| ==> v[i] == LowerChar(r[i])
  {
  }

  // ---- lists of hosts, and registering them ----

  /** An input that is taken for a hostname. */
  ghost predicate Accepted(value: string) {
    exists v :: Lowered(value, v) && Hostname(v)
  }

  ghost predicate StandFor(hosts: seq<string>, r: seq<string>) {
    forall v :: v in r <==> exists h :: h in hosts && Lowered(h, v)
  }

  /** The first inputs stand for the beginning of the list. */
  ghost predicate BeginsWith(hosts: seq<string>, r: seq<string>, n: nat)
    requires n <= |hosts|
  {
    exists k :: 0 <= k <= |r| && StandFor(hosts[..n], r[..k])
  }

  /** The hostnames that some inputs stand for, each once and in the order of their first input. */
  ghost predicate HostsOf(hosts: seq<string>, r: seq<string>) {
    && NoDup(r) && StandFor(hosts, r)
    && forall n :: 0 <= n <= |hosts| ==> BeginsWith(hosts, r, n)
  }

  lemma NormalizeTo(value: string)
    ensures NormalizeHost(value).Some? <==> Accepted(value)
    ensures NormalizeHost(value).Some? ==> forall v :: Lowered(value, v) <==> v == NormalizeHost(value).value
  {
    hide Hostname, NormalizeHost;
    NormalizeIs(value, "");
    var u :| Lowered(value, u);
    forall v | Lowered(value, v) ensures v == u { OneLowered(value, u, v); }
    NormalizeIs(value, u);
  }

  lemma OneLowered(value: string, u: string, v: string)
    requires Lowered(value, u) && Lowered(value, v)
    ensures u == v
  {
    assert |u| == |v|;
  }

  lemma CleanHostsAre(hosts: seq<string>)
    ensures CleanHosts(hosts).Some? <==> forall h :: h in hosts ==> Accepted(h)
    ensures CleanHosts(hosts).Some? ==> HostsOf(hosts, CleanHosts(hosts).value)
  {
    hide NormalizeHost, Accepted, HostsOf;
    AllAccepted(hosts);
    if CleanHosts(hosts).Some? {
      NormalizeAllIs(hosts);
      DedupStands(hosts, NormalizeAll(hosts).value);
    }
  }

  lemma DedupStands(hosts: seq<string>, hs: seq<string>)
    requires |hosts| == |hs| && forall i :: 0 <= i < |hosts| ==> NormalizeHost(hosts[i]) == Some(hs[i])
    ensures HostsOf(hosts, Dedup(hs))
  {
    hide NormalizeHost, StandFor, Dedup;
    var r := Dedup(hs);
    DedupIs(hs);
    StandUp(hosts, hs);
    forall n | 0 <= n <= |hosts| ensures BeginsWith(hosts, r, n) {
      DedupInOrder(hs, n);
      StandUp(hosts[..n], hs[..n]);
      assert r[..|Dedup(hs[..n])|] == Dedup(hs[..n]);
    }
  }

  lemma StandUp(hosts: seq<string>, hs: seq<string>)
    requires |hosts| == |hs| && forall i :: 0 <= i < |hosts| ==> NormalizeHost(hosts[i]) == Some(hs[i])
    ensures StandFor(hosts, Dedup(hs))
  {
    hide NormalizeHost, Lowered, Dedup, NoDup;
    DedupIs(hs);
    forall i | 0 <= i < |hosts| ensures forall v :: Lowered(hosts[i], v) <==> v == hs[i] {
      NormalizeTo(hosts[i]);
    }
    forall v | v in hs ensures exists h :: h in hosts && Lowered(h, v) {
      var i :| 0 <= i < |hs| && hs[i] == v;
      assert Lowered(hosts[i], v);
    }
  }

  lemma {:induction false} AllAccepted(hosts: seq<string>)
    ensures NormalizeAll(hosts).Some? <==> forall h :: h in hosts ==> Accepted(h)
  {
    hide NormalizeHost, Accepted;
    if hosts != [] {
      var init, last := hosts[..|hosts| - 1], hosts[|hosts| - 1];
      AllAccepted(init);
      NormalizeTo(last);
      assert hosts == init + [last];
      assert last in hosts;
    }
  }

  /** Registering works exactly when every host is accepted. It leaves the environment exactly that
      address with those hosts; of the others, only one that had the address loses anything. */
  lemma RegisterIs(env: string, ip: Ip, hosts: seq<string>, d: Document)
    ensures var after := Apply(Register(env, ip, hosts), d);
      && (after.Some? <==> forall h :: h in hosts ==> Accepted(h))
      && (after.Some? ==>
          && (forall a :: a in after.value && after.value[a].env == env <==> a == ip)
          && HostsOf(hosts, after.value[ip].hosts)
          && (forall a :: a != ip ==> (a in after.value <==> a in d && d[a].env != env))
          && (forall a :: a != ip && a in after.value ==> after.value[a] == d[a]))
  {
    hide CleanHosts, HostsOf, Accepted;
    CleanHostsAre(hosts);
  }

  /** The document reads exactly when every entry has an environment and hosts that are accepted,
      and reads as its own entries with those hosts. */
  lemma ReadIs(d: Document)
    ensures Read(Some(d)).Some? <==>
      forall a :: a in d ==> d[a].env != "" && forall h :: h in d[a].hosts ==> Accepted(h)
    ensures Read(Some(d)).Some? ==>
      && Read(Some(d)).value.Keys == d.Keys
      && forall a :: a in d ==>
           Read(Some(d)).value[a].env == d[a].env && HostsOf(d[a].hosts, Read(Some(d)).value[a].hosts)
  {
    hide CleanHosts, HostsOf, Accepted;
    forall a | a in d
      ensures Readable(d[a]) <==> d[a].env != "" && forall h :: h in d[a].hosts ==> Accepted(h)
      ensures CleanHosts(d[a].hosts).Some? ==> HostsOf(d[a].hosts, CleanHosts(d[a].hosts).value)
    {
      CleanHostsAre(d[a].hosts);
    }
  }
}
