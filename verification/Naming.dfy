/** Environment ids and hostname labels (naming.py). */
module Naming {
  import opened Wrappers
  import opened Strings

  // ---- shapes: what the patterns accept ----

  predicate NoDoubleDash(s: string) {
    forall i :: 0 <= i < |s| - 1 ==> !(s[i] == '-' && s[i + 1] == '-')
  }

  predicate IsLabelChar(c: char) { IsSlug(c) || c == '-' }

  /** A letter first, a letter or digit last, dashes between. */
  predicate LabelText(s: string, low: nat, high: nat) {
    && 1 <= |s| && low <= |s| <= high
    && IsLowerLetter(s[0]) && IsSlug(s[|s| - 1])
    && forall i :: 0 <= i < |s| ==> IsLabelChar(s[i])
  }

  predicate NameShape(s: string) { LabelText(s, 2, 63) && NoDoubleDash(s) }

  predicate KeyShape(s: string) { LabelText(s, 1, 20) && NoDoubleDash(s) }

  predicate LabelShape(s: string) { LabelText(s, 2, 63) && !StartsWith(s, "xn--") }

  /** Python's `$` also matches before one final newline. */
  function Dollar(s: string): string {
    if s != "" && s[|s| - 1] == '\n' then s[..|s| - 1] else s
  }

  function ValidateName(name: string): Option<string> {
    var n := Lower(Strip(name));
    if NameShape(Dollar(n)) then Some(n) else None
  }

  function ValidateExposeKey(key: string): Option<string> {
    var k := Lower(Strip(key));
    if KeyShape(Dollar(k)) then Some(k) else None
  }

  function ValidateExposureLabel(name: string): Option<string> {
    var n := Lower(Strip(name));
    if LabelShape(Dollar(n)) then Some(n) else None
  }

  /** Stripping leaves nothing for `$` to forgive: what is validated has the shape itself. */
  lemma ValidatedShape(s: string)
    ensures ValidateName(s).Some? ==> NameShape(ValidateName(s).value)
    ensures ValidateExposeKey(s).Some? ==> KeyShape(ValidateExposeKey(s).value)
    ensures ValidateExposureLabel(s).Some? ==> LabelShape(ValidateExposureLabel(s).value)
  {
    StripLeavesAll(s);
  }

  /** Out of letters, digits and dashes, with a letter first and no dash last. */
  ghost predicate Spelled(s: string) {
    && s != "" && 'a' <= s[0] <= 'z' && s[|s| - 1] != '-'
    && forall i :: 0 <= i < |s| ==> 'a' <= s[i] <= 'z' || '0' <= s[i] <= '9' || s[i] == '-'
  }

  lemma LabelTextIs(s: string, low: nat, high: nat)
    ensures LabelText(s, low, high) <==> low <= |s| <= high && Spelled(s)
  {
  }

  lemma DashesApart(s: string)
    ensures NoDoubleDash(s) <==> forall i :: 0 < i < |s| ==> s[i - 1] != '-' || s[i] != '-'
  {
    if forall i :: 0 < i < |s| ==> s[i - 1] != '-' || s[i] != '-' {
      forall i | 0 <= i < |s| - 1 ensures !(s[i] == '-' && s[i + 1] == '-') {
        assert s[(i + 1) - 1] != '-' || s[i + 1] != '-';
      }
    }
  }

  /** A name is taken exactly if, stripped and lowered, it is 2 to 63 characters so spelled, without
      two dashes together. */
  lemma ValidateNameIs(s: string, n: string)
    ensures ValidateName(s) == Some(n) <==>
      && n == Lower(Strip(s)) && 2 <= |n| <= 63 && Spelled(n)
      && forall i :: 0 < i < |n| ==> n[i - 1] != '-' || n[i] != '-'
  {
    hide Lower, Strip, Dollar, LabelText, Spelled, NoDoubleDash;
    StripLeavesAll(s);
    LabelTextIs(n, 2, 63);
    DashesApart(n);
  }

  /** A key of the template's `expose` is one to twenty characters, spelled as a name. */
  lemma ValidateExposeKeyIs(s: string, k: string)
    ensures ValidateExposeKey(s) == Some(k) <==>
      && k == Lower(Strip(s)) && 1 <= |k| <= 20 && Spelled(k)
      && forall i :: 0 < i < |k| ==> k[i - 1] != '-' || k[i] != '-'
  {
    hide Lower, Strip, Dollar, LabelText, Spelled, NoDoubleDash;
    StripLeavesAll(s);
    LabelTextIs(k, 1, 20);
    DashesApart(k);
  }

  /** A label is 2 to 63 characters so spelled, two dashes together allowed, but for a first `xn--`. */
  lemma ValidateExposureLabelIs(s: string, l: string)
    ensures ValidateExposureLabel(s) == Some(l) <==>
      l == Lower(Strip(s)) && 2 <= |l| <= 63 && Spelled(l) && !("xn--" <= l)
  {
    hide Lower, Strip, Dollar, LabelText, Spelled;
    StripLeavesAll(s);
    LabelTextIs(l, 2, 63);
  }

  lemma StripLeavesAll(s: string)
    ensures Dollar(Lower(Strip(s))) == Lower(Strip(s))
  {
    RStripEnd(LStrip(s));
  }

  lemma {:induction false} RStripEnd(s: string)
    ensures RStrip(s) != "" ==> !IsSpace(RStrip(s)[|RStrip(s)| - 1])
  {
    if s != "" && IsSpace(s[|s| - 1]) {
      RStripEnd(s[..|s| - 1]);
    }
  }

  // ---- generated ids ----

  function DropJunk(s: string): (r: string)
    ensures |r| <= |s|
  {
    if s != "" && !IsSlug(s[0]) then DropJunk(s[1..]) else s
  }

  /** Every maximal run of other characters becomes one dash. */
  function Collapse(s: string): string
    decreases |s|
  {
    if s == "" then ""
    else if IsSlug(s[0]) then [s[0]] + Collapse(s[1..])
    else "-" + Collapse(DropJunk(s[1..]))
  }

  function Trim(s: string): string {
    RStripChar(LStripChar(s, '-'), '-')
  }

  function Cut(s: string, maxlen: nat): string {
    if |s| <= maxlen then s else s[..maxlen]
  }

  function SanitizeLowered(s: string, maxlen: nat): string {
    var r := Trim(Cut(Trim(Collapse(s)), maxlen));
    if r == "" then "x" else r
  }

  function Sanitize(s: string, maxlen: nat): string {
    SanitizeLowered(Lower(s), maxlen)
  }

  predicate IsToken(hex: string) {
    |hex| == 32 && forall i :: 0 <= i < |hex| ==> IsDigit(hex[i]) || 'a' <= hex[i] <= 'f'
  }

  /** `token` is the random suffix. */
  function NewEnvironmentId(template: string, token: string): string {
    Sanitize(template, 30) + "-" + token
  }

  /** A slug: label characters, no dash at either end, never two together. */
  predicate Slug(s: string) {
    && s != "" && s[0] != '-' && s[|s| - 1] != '-' && NoDoubleDash(s)
    && forall i :: 0 <= i < |s| ==> IsLabelChar(s[i])
  }

  predicate Dashed(s: string) {
    NoDoubleDash(s) && forall i :: 0 <= i < |s| ==> IsLabelChar(s[i])
  }

  lemma {:induction false} DropJunkHead(s: string)
    ensures DropJunk(s) == "" || IsSlug(DropJunk(s)[0])
  {
    if s != "" && !IsSlug(s[0]) {
      DropJunkHead(s[1..]);
    }
  }

  lemma {:induction false} CollapseDashed(s: string)
    ensures Dashed(Collapse(s))
    ensures s != "" && IsSlug(s[0]) ==> Collapse(s) != "" && Collapse(s)[0] == s[0]
    decreases |s|
  {
    if s != "" {
      if IsSlug(s[0]) {
        CollapseDashed(s[1..]);
      } else {
        DropJunkHead(s[1..]);
        CollapseDashed(DropJunk(s[1..]));
        var rest := Collapse(DropJunk(s[1..]));
        assert rest == "" || rest[0] != '-';
      }
    }
  }

  lemma {:induction false} TrimLeft(s: string)
    requires Dashed(s)
    ensures var r := LStripChar(s, '-'); Dashed(r) && |r| <= |s| && (r != "" ==> r[0] != '-')
  {
  }

  lemma {:induction false} TrimRight(s: string)
    requires Dashed(s)
    ensures var r := RStripChar(s, '-');
      Dashed(r) && r <= s && (r != "" ==> r[|r| - 1] != '-')
  {
  }

  lemma TrimSlug(s: string)
    requires Dashed(s)
    ensures |Trim(s)| <= |s| && (Trim(s) == "" || Slug(Trim(s)))
  {
    TrimLeft(s);
    TrimRight(LStripChar(s, '-'));
  }

  /** Whatever a template is called, its slug is one, and no longer than asked. */
  lemma SanitizeIsSlug(s: string, maxlen: nat)
    requires maxlen >= 1
    ensures Slug(SanitizeLowered(s, maxlen)) && |SanitizeLowered(s, maxlen)| <= maxlen
  {
    CollapseDashed(s);
    TrimSlug(Collapse(s));
    var t := Trim(Collapse(s));
    assert Dashed(Cut(t, maxlen));
    TrimSlug(Cut(t, maxlen));
  }

  lemma {:induction false} CollapseKeepsSlugs(s: string)
    requires Dashed(s)
    ensures Collapse(s) == s
  {
    if s != "" {
      CollapseKeepsSlugs(s[1..]);
      assert s == [s[0]] + s[1..];
      if !IsSlug(s[0]) {
        assert s[1..] == "" || IsSlug(s[1..][0]);
        assert DropJunk(s[1..]) == s[1..];
      }
    }
  }

  /** A name that already is a slug keeps its spelling. */
  lemma SanitizeKeepsSlugs(s: string, maxlen: nat)
    requires Slug(s) && |s| <= maxlen
    ensures SanitizeLowered(s, maxlen) == s
  {
    CollapseKeepsSlugs(s);
  }

  /** A generated id fits a DNS label and has no `--`, for every template name. It has the shape of
      a name, and of an exposure label, exactly when the template's slug starts with a letter. */
  lemma GeneratedIdShape(template: string, token: string)
    requires IsToken(token)
    ensures var id := NewEnvironmentId(template, token);
      && Slug(id) && 34 <= |id| <= 63
      && (NameShape(id) <==> IsLowerLetter(Sanitize(template, 30)[0]))
      && (LabelShape(id) <==> IsLowerLetter(Sanitize(template, 30)[0]))
  {
    SanitizeIsSlug(Lower(template), 30);
    var slug, id := Sanitize(template, 30), NewEnvironmentId(template, token);
    assert id[0] == slug[0] && id[|id| - 1] == token[31];
    forall i | 0 <= i < |id| ensures IsLabelChar(id[i]) {
      if i < |slug| {
        assert id[i] == slug[i];
      } else if i > |slug| {
        assert id[i] == token[i - |slug| - 1];
      }
    }
    forall i | 0 <= i < |id| - 1 ensures !(id[i] == '-' && id[i + 1] == '-') {
      if i + 1 < |slug| {
        assert id[i] == slug[i] && id[i + 1] == slug[i + 1];
      } else if i + 1 == |slug| {
        assert id[i] == slug[i];
      } else {
        assert id[i + 1] == token[i - |slug|];
      }
    }
    NotPunycode(id);
  }

  lemma SlugIsClean(id: string)
    requires Slug(id)
    ensures Lower(Strip(id)) == id && Dollar(id) == id
  {
    hide NoDoubleDash;
    assert forall i :: 0 <= i < |id| ==> LowerChar(id[i]) == id[i];
    StripClean(id);
    LowerClean(id);
  }

  lemma StripClean(s: string)
    requires s != "" && !IsSpace(s[0]) && !IsSpace(s[|s| - 1])
    ensures Strip(s) == s
  {
    hide IsSpace;
  }

  lemma LowerClean(s: string)
    requires forall i :: 0 <= i < |s| ==> LowerChar(s[i]) == s[i]
    ensures Lower(s) == s
  {
    hide LowerChar;
  }

  lemma NotPunycode(s: string)
    requires NoDoubleDash(s)
    ensures !StartsWith(s, "xn--")
  {
    assert |s| >= 4 ==> s[2] != '-' || s[3] != '-';
  }

  /** So the validators take it back exactly then. */
  lemma GeneratedIdAccepted(template: string, token: string)
    requires IsToken(token)
    ensures var id := NewEnvironmentId(template, token);
      && (ValidateName(id) == if IsLowerLetter(Sanitize(template, 30)[0]) then Some(id) else None)
      && (ValidateExposureLabel(id) == if IsLowerLetter(Sanitize(template, 30)[0]) then Some(id) else None)
  {
    hide Sanitize, NameShape, LabelShape, Slug;
    GeneratedIdShape(template, token);
    SlugIsClean(NewEnvironmentId(template, token));
  }

  /** The template `9` gets an id that no validator takes back. */
  lemma DigitIdRefused()
    ensures var token := seq(32, _ => '0');
      var id := NewEnvironmentId("9", token);
      && IsToken(token) && id == "9-" + token
      && ValidateName(id) == None && ValidateExposureLabel(id) == None
  {
    hide SanitizeLowered, ValidateName, ValidateExposureLabel, Lower, Strip, Dollar;
    var token := seq(32, _ => '0');
    LowerClean("9");
    assert Sanitize("9", 30) == "9" by { SanitizeKeepsSlugs("9", 30); }
    GeneratedIdAccepted("9", token);
  }

  // ---- default labels ----

  /** The ids there are: validated names and generated ids. */
  ghost predicate EnvironmentId(id: string) {
    (exists name :: ValidateName(name) == Some(id))
    || (exists template, token :: IsToken(token) && NewEnvironmentId(template, token) == id)
  }

  ghost predicate ExposeKey(key: string) {
    exists k :: ValidateExposeKey(k) == Some(key)
  }

  /** The template key that materializes as the bare id. */
  const PRIMARY_EXPOSURE := "web"

  function DefaultExposureLabel(id: string, key: string): string {
    if key == PRIMARY_EXPOSURE then id else key + "--" + id
  }

  lemma EnvironmentIdIsSlug(id: string)
    requires EnvironmentId(id)
    ensures Slug(id) && 2 <= |id| <= 63
  {
    if name :| ValidateName(name) == Some(id) {
      ValidatedShape(name);
    } else {
      var template, token :| IsToken(token) && NewEnvironmentId(template, token) == id;
      GeneratedIdShape(template, token);
    }
  }

  lemma ExposeKeyShape(key: string)
    requires ExposeKey(key)
    ensures KeyShape(key)
  {
    var k :| ValidateExposeKey(k) == Some(key);
    ValidatedShape(k);
  }

  /** In `<key>--<id>` the first `--` is the separator. */
  lemma FirstDoubleDash(key: string, id: string, i: nat)
    requires KeyShape(key) && Slug(id) && i + 1 < |key + "--" + id|
    ensures var s := key + "--" + id; i <= |key| ==> (s[i] == '-' && s[i + 1] == '-' <==> i == |key|)
  {
  }

  /** No two defaults collide, across keys and environments. */
  lemma DefaultLabelsInjective(id: string, key: string, id': string, key': string)
    ensures EnvironmentId(id) && EnvironmentId(id') && ExposeKey(key) && ExposeKey(key')
            && DefaultExposureLabel(id, key) == DefaultExposureLabel(id', key') ==>
      id == id' && key == key'
  {
    hide EnvironmentId, ExposeKey, Slug, KeyShape, DefaultExposureLabel;
    if EnvironmentId(id) && EnvironmentId(id') && ExposeKey(key) && ExposeKey(key')
       && DefaultExposureLabel(id, key) == DefaultExposureLabel(id', key')
    {
      EnvironmentIdIsSlug(id);
      EnvironmentIdIsSlug(id');
      ExposeKeyShape(key);
      ExposeKeyShape(key');
      SeparatedLabels(id, key, id', key');
    }
  }

  lemma SeparatedLabels(id: string, key: string, id': string, key': string)
    requires Slug(id) && Slug(id') && KeyShape(key) && KeyShape(key')
    requires DefaultExposureLabel(id, key) == DefaultExposureLabel(id', key')
    ensures id == id' && key == key'
  {
    var name := DefaultExposureLabel(id, key);
    if key != PRIMARY_EXPOSURE && key' != PRIMARY_EXPOSURE {
      FirstDoubleDash(key, id, |key|);
      FirstDoubleDash(key', id', |key'|);
      if |key| < |key'| {
        FirstDoubleDash(key', id', |key|);
      } else if |key'| < |key| {
        FirstDoubleDash(key, id, |key'|);
      }
      assert name[..|key|] == key && name[..|key|] == key';
      assert name[|key| + 2..] == id && name[|key| + 2..] == id';
    } else if key != PRIMARY_EXPOSURE {
      FirstDoubleDash(key, id, |key|);
    } else if key' != PRIMARY_EXPOSURE {
      FirstDoubleDash(key', id', |key'|);
    }
  }

  /** Only the key is length-checked, so a default other than `web` can be too long for a DNS label
      (63 octets, section 2.3.4 of RFC 1035); the key `xn` makes a punycode prefix, and `web` gives
      the bare id, which can start with a digit. Otherwise the label that `up` materializes is one
      that `expose` would accept. */
  lemma DefaultLabelLegal(id: string, key: string)
    ensures EnvironmentId(id) && ExposeKey(key) ==>
      && (|DefaultExposureLabel(id, key)| <= 63 <==> key == "web" || |key| + |id| <= 61)
      && (LabelShape(DefaultExposureLabel(id, key)) <==>
          if key == "web" then IsLowerLetter(id[0]) else |key| + |id| <= 61 && key != "xn")
  {
    hide EnvironmentId, ExposeKey;
    if EnvironmentId(id) && ExposeKey(key) {
      EnvironmentIdIsSlug(id);
      ExposeKeyShape(key);
      NotPunycode(id);
      if key != PRIMARY_EXPOSURE {
        DefaultLabelText(id, key);
        DefaultLabelPunycode(id, key);
      }
    }
  }

  /** An accepted id of 63 characters and an accepted key of 20 make a label of 85. */
  lemma OverlongLabel()
    ensures var id, key := seq(63, _ => 'a'), seq(20, _ => 'a');
      && ValidateName(id) == Some(id) && ValidateExposeKey(key) == Some(key)
      && |DefaultExposureLabel(id, key)| == 85 && ValidateExposureLabel(DefaultExposureLabel(id, key)) == None
  {
    hide Lower, Strip, Dollar;
    var id, key := seq(63, _ => 'a'), seq(20, _ => 'a');
    SlugIsClean(id);
    SlugIsClean(key);
    var l := key + "--" + id;
    assert |l| == 85 && l == DefaultExposureLabel(id, key);
    StripClean(l);
    LowerClean(l);
    assert Dollar(l) == l by { NothingForgiven(l); }
  }

  lemma NothingForgiven(s: string)
    ensures s == "" || s[|s| - 1] != '\n' ==> Dollar(s) == s
  {
  }

  lemma DefaultLabelText(id: string, key: string)
    requires Slug(id) && KeyShape(key)
    ensures LabelText(key + "--" + id, 2, 63) <==> |key| + |id| <= 61
  {
  }

  lemma DefaultLabelPunycode(id: string, key: string)
    requires Slug(id) && KeyShape(key)
    ensures StartsWith(key + "--" + id, "xn--") <==> key == "xn"
  {
    var s := key + "--" + id;
    if StartsWith(s, "xn--") {
      assert s[0] == 'x' && s[1] == 'n' && s[2] == '-' && s[3] == '-';
      if |key| >= 2 {
        FirstDoubleDash(key, id, 2);
        assert key == s[..2];
      }
    }
  }

  // ---- hosts ----

  function ExposureHost(name: string, domain: string): string {
    name + "." + domain
  }

  /** Case, surrounding space, a final dot and a port are forgiven. */
  function CleanHost(host: string): string {
    Before(RStripChar(Lower(Strip(host)), '.'), ':')
  }

  /** The label of `h` if it is exactly one label under the (lowered) base domain. */
  function LabelUnder(h: string, base: string): Option<string> {
    var suffix := "." + base;
    if !EndsWith(h, suffix) then None
    else
      var name := h[..|h| - |suffix|];
      if name == "" || '.' in name then None else Some(name)
  }

  function ExposureLabel(host: string, domain: string): Option<string> {
    LabelUnder(CleanHost(host), Lower(Strip(domain)))
  }

  /** A host is read without its final dot or its port, and in lower case. */
  lemma HostForgiven(host: string, tail: string)
    requires host != "" && !IsSpace(host[0]) && !IsSpace(host[|host| - 1]) && host[|host| - 1] != '.' && ':' !in host
    requires tail == "" || tail == "."
      || (tail[0] == ':' && !IsSpace(tail[|tail| - 1]) && tail[|tail| - 1] != '.')
    ensures CleanHost(host + tail) == Lower(host)
  {
    hide IsSpace, Lower, Strip, Before, RStripChar;
    DotIsNoSpace();
    StripClean(host + tail);
    LowerConcat(host, tail);
    LowerKeeps(host, '.');
    LowerKeeps(host, ':');
    LowerKeeps(tail, '.');
    LowerKeeps(tail, ':');
    var low, rest := Lower(host), Lower(tail);
    OneDot(low, rest);
    BeforeFirst(low, if tail == "." then "" else rest, ':');
  }

  /** Colons and dots are neither made nor lost by lowering. */
  lemma LowerKeeps(s: string, c: char)
    requires c in {':', '.'}
    ensures c in Lower(s) <==> c in s
    ensures s != "" ==> (Lower(s)[0] == c <==> s[0] == c) && (Lower(s)[|s| - 1] == c <==> s[|s| - 1] == c)
  {
    hide Lower;
    var r := Lower(s);
    assert forall i :: 0 <= i < |s| ==> (r[i] == c <==> s[i] == c);
  }

  lemma OneDot(low: string, rest: string)
    requires low != "" && low[|low| - 1] != '.'
    requires rest == "" || rest == "." || rest[|rest| - 1] != '.'
    ensures RStripChar(low + rest, '.') == low + if rest == "." then "" else rest
  {
    if rest == "." {
      assert (low + rest)[..|low|] == low;
    }
  }

  lemma DotIsNoSpace()
    ensures !IsSpace('.')
  {
  }

  lemma {:induction false} BeforeFirst(a: string, b: string, c: char)
    requires c !in a && (b == "" || b[0] == c)
    ensures Before(a + b, c) == a
  {
    if a == "" {
      assert a + b == b;
    } else {
      BeforeFirst(a[1..], b, c);
      assert (a + b)[1..] == a[1..] + b;
      assert a == [a[0]] + a[1..];
    }
  }

  lemma LabelUnderIff(h: string, name: string, base: string)
    ensures LabelUnder(h, base) == Some(name) <==> name != "" && '.' !in name && h == name + "." + base
  {
    var suffix := "." + base;
    assert name + "." + base == name + suffix;
    if h == name + suffix {
      assert h[|h| - |suffix|..] == suffix && h[..|h| - |suffix|] == name;
    }
    if EndsWith(h, suffix) {
      assert h == h[..|h| - |suffix|] + h[|h| - |suffix|..];
    }
  }

  lemma {:induction false} RStripConcat(a: string, b: string)
    requires a != "" && !IsSpace(a[|a| - 1])
    ensures RStrip(a + b) == a + RStrip(b)
  {
    if b == "" {
      assert a + b == a;
    } else {
      assert (a + b)[|a + b| - 1] == b[|b| - 1];
      if IsSpace(b[|b| - 1]) {
        assert (a + b)[..|a + b| - 1] == a + b[..|b| - 1];
        RStripConcat(a, b[..|b| - 1]);
      }
    }
  }

  lemma LowerConcat(a: string, b: string)
    ensures Lower(a + b) == Lower(a) + Lower(b)
  {
  }

  lemma {:induction false} RStripCharEnd(s: string, c: char)
    ensures var r := RStripChar(s, c); r <= s && (r != "" ==> r[|r| - 1] != c)
  {
    if s != "" && s[|s| - 1] == c {
      RStripCharEnd(s[..|s| - 1], c);
    }
  }

  lemma {:induction false} BeforePrefix(s: string, c: char)
    ensures var r := Before(s, c); r <= s && c !in r && (c !in s ==> r == s)
  {
    if s != "" && s[0] != c {
      BeforePrefix(s[1..], c);
      assert s == [s[0]] + s[1..];
    }
  }

  lemma {:induction false} LStripHead(s: string)
    ensures LStrip(s) != "" ==> !IsSpace(LStrip(s)[0])
    ensures s != "" && !IsSpace(s[0]) ==> LStrip(s) == s
  {
    if s != "" && IsSpace(s[0]) {
      LStripHead(s[1..]);
    }
  }

  /** The host that `exposure_label` ends up splitting, for a host made by `exposure_host`. */
  lemma HostText(name: string, domain: string)
    requires LabelShape(name)
    ensures Lower(Strip(ExposureHost(name, domain))) == name + "." + Lower(RStrip(domain))
  {
    var a := name + ".";
    assert ExposureHost(name, domain) == a + domain;
    assert (a + domain)[0] == name[0];
    LStripHead(a + domain);
    assert a[|a| - 1] == '.';
    RStripConcat(a, domain);
    LowerConcat(a, RStrip(domain));
    LowerOfLabel(name);
  }

  lemma LowerOfLabel(name: string)
    requires LabelShape(name)
    ensures Lower(name + ".") == name + "."
  {
  }

  lemma {:induction false} RStripPrefix(s: string)
    ensures RStrip(s) <= s
    ensures s != "" && !IsSpace(s[0]) ==> RStrip(s) != "" && RStrip(s)[0] == s[0]
  {
    if s != "" && IsSpace(s[|s| - 1]) {
      RStripPrefix(s[..|s| - 1]);
    }
  }

  /** The base domains whose hosts read back. */
  predicate ReadableDomain(domain: string) {
    && domain != "" && !IsSpace(domain[0])
    && var d := Lower(Strip(domain)); ':' !in d && d != "" && d[|d| - 1] != '.'
  }

  /** `exposure_label` inverts `exposure_host` for a valid label exactly when the base domain
      is nonempty, does not start with white space, has no `:` and does not end in a dot. */
  lemma HostRoundTrip(name: string, domain: string)
    requires LabelShape(name)
    ensures ExposureLabel(ExposureHost(name, domain), domain) == Some(name) <==> ReadableDomain(domain)
  {
    assert '.' !in name && ':' !in name;
    LabelUnderIff(CleanHost(ExposureHost(name, domain)), name, Lower(Strip(domain)));
    if domain != "" && !IsSpace(domain[0]) {
      CleanHostIff(name, domain);
    } else {
      BlankHeadUnreadable(name, domain);
    }
  }

  lemma CleanHostIff(name: string, domain: string)
    requires LabelShape(name) && ':' !in name && domain != "" && !IsSpace(domain[0])
    ensures var base := Lower(Strip(domain));
      (CleanHost(ExposureHost(name, domain)) == name + "." + base)
      <==> ':' !in base && base != "" && base[|base| - 1] != '.'
  {
    HostText(name, domain);
    LStripHead(domain);
    CleanIff(name, Lower(Strip(domain)));
  }

  /** Cleaning leaves a host alone exactly when it has no port and no final dot. */
  lemma CleanIff(name: string, base: string)
    requires ':' !in name
    ensures var full := name + "." + base;
      Before(RStripChar(full, '.'), ':') == full <==> ':' !in base && base != "" && base[|base| - 1] != '.'
  {
    var full := name + "." + base;
    assert full[|full| - 1] == if base == "" then '.' else base[|base| - 1];
    RStripCharEnd(full, '.');
    BeforePrefix(RStripChar(full, '.'), ':');
    assert ':' in full <==> ':' in base by {
      if ':' in base {
        var i :| 0 <= i < |base| && base[i] == ':';
        assert full[|name| + 1 + i] == ':';
      }
    }
  }

  lemma BlankHeadUnreadable(name: string, domain: string)
    requires LabelShape(name) && (domain == "" || IsSpace(domain[0])) && ':' !in name
    ensures CleanHost(ExposureHost(name, domain)) != name + "." + Lower(Strip(domain))
  {
    var kept, base := Lower(RStrip(domain)), Lower(Strip(domain));
    HostText(name, domain);
    BlankHeads(domain);
    if base == "" {
      CleanIff(name, "");
    } else {
      PrefixDiffers(name + "." + kept, name, base);
    }
  }

  lemma PrefixDiffers(full: string, name: string, base: string)
    requires base != "" && (|full| > |name| + 1 ==> full[|name| + 1] != base[0])
    ensures Before(RStripChar(full, '.'), ':') != name + "." + base
  {
    RStripCharEnd(full, '.');
    BeforePrefix(RStripChar(full, '.'), ':');
    assert (name + "." + base)[|name| + 1] == base[0];
  }

  /** With white space in front, what the host keeps of the domain and what the suffix keeps
      of it begin differently, or both are empty. */
  lemma BlankHeads(domain: string)
    requires domain == "" || IsSpace(domain[0])
    ensures var kept, base := Lower(RStrip(domain)), Lower(Strip(domain));
      if base == "" then kept == "" else kept == "" || kept[0] != base[0]
  {
    if domain == "" {
      return;
    }
    hide RStrip, LStrip, LowerChar, IsSpace;
    LStripHead(domain);
    RStripPrefix(LStrip(domain));
    RStripPrefix(domain);
    if LStrip(domain) == "" {
      BlankBothWays(domain);
    } else {
      LowerSpace(LStrip(domain)[0]);
      LowerSpace(domain[0]);
      assert Strip(domain)[0] == LStrip(domain)[0];
      assert RStrip(domain) != "" ==> RStrip(domain)[0] == domain[0];
    }
  }

  lemma LowerSpace(c: char)
    ensures IsSpace(LowerChar(c)) <==> IsSpace(c)
  {
  }

  lemma {:induction false} BlankBothWays(s: string)
    requires LStrip(s) == ""
    ensures RStrip(s) == ""
  {
    if s != "" {
      BlankBothWays(s[1..]);
      if |s| > 1 {
        RStripConcatBlank(s[0], s[1..]);
        assert s == [s[0]] + s[1..];
      }
    }
  }

  lemma {:induction false} RStripConcatBlank(c: char, s: string)
    requires IsSpace(c) && RStrip(s) == ""
    ensures RStrip([c] + s) == ""
  {
    if s != "" {
      assert ([c] + s)[..|[c] + s| - 1] == [c] + s[..|s| - 1];
      RStripConcatBlank(c, s[..|s| - 1]);
    } else {
      assert [c] + s == [c];
    }
  }
}
