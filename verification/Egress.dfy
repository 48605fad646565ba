/** The egress policy document and its writer (egress.py). */
module Egress {
  import opened Wrappers
  import opened Strings

  // ---- hostnames ----

  function Split(s: string, c: char): (r: seq<string>)
    ensures |r| >= 1
  {
    if s == "" then [""]
    else
      var rest := Split(s[1..], c);
      if s[0] == c then [""] + rest else [[s[0]] + rest[0]] + rest[1..]
  }

  predicate HostLabel(x: string) {
    && 1 <= |x| <= 63 && x[0] != '-' && x[|x| - 1] != '-'
    && forall i :: 0 <= i < |x| ==> IsSlug(x[i]) || x[i] == '-' || 'A' <= x[i] <= 'Z'
  }

  predicate Octet(x: string) {
    && 1 <= |x| <= 3 && (forall i :: 0 <= i < |x| ==> IsDigit(x[i]))
    && (|x| > 1 ==> x[0] != '0') && Number(x) <= 255
  }

  /** Dotted decimal is the only address literal that the label check would let through. */
  predicate IpLiteral(s: string) {
    var parts := Split(s, '.');
    |parts| == 4 && forall i :: 0 <= i < 4 ==> Octet(parts[i])
  }

  predicate HostText(s: string) {
    && s != "" && |s| <= 253 && (forall i :: 0 <= i < |s| ==> !IsSpace(s[i]))
    && !IpLiteral(s)
    && forall i :: 0 <= i < |Split(s, '.')| ==> HostLabel(Split(s, '.')[i])
  }

  function NormalizeHost(value: string): Option<string> {
    var v := Lower(RStripChar(value, '.'));
    if HostText(v) then Some(v) else None
  }

  lemma {:induction false} TrailingDot(s: string)
    requires s != "" && s[|s| - 1] == '.'
    ensures Split(s, '.')[|Split(s, '.')| - 1] == ""
  {
    if |s| > 1 {
      TrailingDot(s[1..]);
      assert s[1..][|s| - 2] == '.';
      SplitOnDot(s[1..]);
    }
  }

  lemma {:induction false} SplitOnDot(s: string)
    ensures '.' in s ==> |Split(s, '.')| > 1
  {
    if s != "" {
      SplitOnDot(s[1..]);
    }
  }

  lemma HostTextEnds(v: string)
    requires HostText(v)
    ensures v != "" && v[|v| - 1] != '.'
  {
    hide IpLiteral, IsSpace;
    assert HostLabel(Split(v, '.')[|Split(v, '.')| - 1]);
    if v[|v| - 1] == '.' {
      TrailingDot(v);
    }
  }

  /** A normalized host is its own normal form. */
  lemma NormalizeIdempotent(value: string)
    requires NormalizeHost(value).Some?
    ensures NormalizeHost(NormalizeHost(value).value) == NormalizeHost(value)
  {
    hide HostText;
    var v := NormalizeHost(value).value;
    HostTextEnds(v);
    assert RStripChar(v, '.') == v;
    assert Lower(v) == v;
  }

  function NormalizeAll(hosts: seq<string>): Option<seq<string>> {
    if hosts == [] then Some([])
    else
      match (NormalizeAll(hosts[..|hosts| - 1]), NormalizeHost(hosts[|hosts| - 1]))
      case (Some(init), Some(last)) => Some(init + [last])
      case _ => None
  }

  function CleanHosts(hosts: seq<string>): Option<seq<string>> {
    match NormalizeAll(hosts)
    case Some(hs) => Some(Dedup(hs))
    case None => None
  }

  predicate Normal(hosts: seq<string>) {
    NoDup(hosts) && forall i :: 0 <= i < |hosts| ==> NormalizeHost(hosts[i]) == Some(hosts[i])
  }

  lemma {:induction false} NormalizeAllIs(hosts: seq<string>)
    ensures NormalizeAll(hosts).Some? ==>
      && |NormalizeAll(hosts).value| == |hosts|
      && forall i :: 0 <= i < |hosts| ==> Some(NormalizeAll(hosts).value[i]) == NormalizeHost(hosts[i])
    ensures (forall i :: 0 <= i < |hosts| ==> NormalizeHost(hosts[i]) == Some(hosts[i])) ==>
      NormalizeAll(hosts) == Some(hosts)
  {
    if hosts != [] {
      var init := hosts[..|hosts| - 1];
      NormalizeAllIs(init);
      assert hosts == init + [hosts[|hosts| - 1]];
    }
  }

  /** What is written as a host list is normal, and normal lists are read back unchanged. */
  lemma CleanHostsIs(hosts: seq<string>)
    ensures CleanHosts(hosts).Some? ==> Normal(CleanHosts(hosts).value)
    ensures Normal(hosts) ==> CleanHosts(hosts) == Some(hosts)
  {
    hide HostText;
    NormalizeAllIs(hosts);
    DedupIs(hosts);
    if NormalizeAll(hosts).Some? {
      var hs := NormalizeAll(hosts).value;
      DedupIs(hs);
      forall x | x in Dedup(hs) ensures NormalizeHost(x) == Some(x) {
        var i :| 0 <= i < |hs| && hs[i] == x;
        NormalizeIdempotent(hosts[i]);
      }
    }
  }

  // ---- the document ----

  /** An address; the document's keys are its single-address networks. */
  datatype Ip = Ip(v6: bool, bits: nat)

  datatype Policy = Policy(env: string, hosts: seq<string>)

  type Document = map<Ip, Policy>

  /** The checks of `_read` on one entry. */
  predicate Readable(p: Policy) { p.env != "" && CleanHosts(p.hosts).Some? }

  /** `_read`: no file is an empty document, a bad entry an error. */
  function Read(file: Option<Document>): Option<Document> {
    match file
    case None => Some(map[])
    case Some(d) =>
      if forall a :: a in d ==> Readable(d[a])
      then Some(map a | a in d :: Policy(d[a].env, CleanHosts(d[a].hosts).value))
      else None
  }

  function WithoutEnv(d: Document, env: string): Document {
    map a | a in d && d[a].env != env :: d[a]
  }

  datatype Mutation =
    | Register(env: string, ip: Ip, hosts: seq<string>)
    | Unregister(env: string, source: Option<Ip>)

  /** What the mutation makes of the document it read; `None` is a host that does not normalize. */
  function Apply(m: Mutation, d: Document): Option<Document> {
    match m
    case Register(env, ip, hosts) =>
      (match CleanHosts(hosts)
       case None => None
       case Some(hs) => Some(WithoutEnv(d, env)[ip := Policy(env, hs)]))
    case Unregister(env, source) =>
      Some(if source.Some? then d - {source.value} else WithoutEnv(d, env))
  }

  /** Every environment has at most one address, and every entry reads back as it is. */
  predicate Sound(d: Document) {
    && (forall a, b :: a in d && b in d && d[a].env == d[b].env ==> a == b)
    && (forall a :: a in d ==> d[a].env != "" && Normal(d[a].hosts))
  }

  lemma SoundReadsBack(d: Document)
    requires Sound(d)
    ensures Read(Some(d)) == Some(d)
  {
    forall a | a in d ensures CleanHosts(d[a].hosts) == Some(d[a].hosts) {
      CleanHostsIs(d[a].hosts);
    }
    assert Read(Some(d)).Some?;
    assert Read(Some(d)).value == d;
  }

  lemma ApplyKeepsSound(m: Mutation, d: Document)
    requires Sound(d) && m.env != "" && Apply(m, d).Some?
    ensures Sound(Apply(m, d).value)
  {
    if m.Register? {
      CleanHostsIs(m.hosts);
    }
  }

  /** `unregister` with an address removes that address, whoever has it: the environment keeps
      a policy exactly when it has another address, and another one loses its policy exactly
      when the address is its own. Without an address it does what it says. */
  lemma UnregisterIs(env: string, source: Option<Ip>, d: Document, other: string)
    requires Sound(d) && other != env
    ensures var d' := Apply(Unregister(env, source), d).value;
      && (Registered(d', env) <==> source.Some? && exists a :: a in d && d[a].env == env && a != source.value)
      && (Registered(d, other) && !Registered(d', other)
          <==> source.Some? && source.value in d && d[source.value].env == other)
  {
    hide CleanHosts, Normal;
    var d' := Apply(Unregister(env, source), d).value;
    assert forall a :: a in d' ==> a in d && d'[a] == d[a];
    if Registered(d, other) {
      var a :| a in d && d[a].env == other;
      assert a in d' <==> source != Some(a);
    }
    if a :| source.Some? && a in d && d[a].env == env && a != source.value {
      assert a in d';
    }
  }

  ghost predicate Registered(d: Document, env: string) {
    exists a :: a in d && d[a].env == env
  }

  // ---- the store, one process at a time ----

  class JsonPolicyStore {
    var file: Option<Document>

    constructor ()
      ensures file == None
    {
      file := None;
    }

    /** The loop of `_read`. */
    method ReadFile() returns (r: Option<Document>)
      ensures r == Read(file)
    {
      if file.None? {
        return Some(map[]);
      }
      var data, result, left := file.value, map[], file.value.Keys;
      while left != {}
        invariant left <= data.Keys && result.Keys == data.Keys - left
        invariant forall a :: a in result ==>
          Readable(data[a]) && result[a] == Policy(data[a].env, CleanHosts(data[a].hosts).value)
        decreases left
      {
        var a :| a in left;
        if data[a].env == "" || CleanHosts(data[a].hosts).None? {
          assert !Readable(data[a]);
          return None;
        }
        result := result[a := Policy(data[a].env, CleanHosts(data[a].hosts).value)];
        left := left - {a};
      }
      assert forall a :: a in data ==> Readable(data[a]);
      assert result == Read(file).value;
      return Some(result);
    }

    /** `false` is an error: the document does not read, or a host does not normalize. */
    method Mutate(m: Mutation) returns (ok: bool)
      modifies this
      ensures var d := Read(old(file));
        if d.Some? && Apply(m, d.value).Some? then ok && file == Apply(m, d.value)
        else !ok && file == old(file)
    {
      var read := ReadFile();
      if read.None? {
        return false;
      }
      var data := read.value;
      match m {
        case Register(env, ip, hosts) =>
          data := map a | a in data && data[a].env != env :: data[a];
          var hs := CleanHosts(hosts);
          if hs.None? {
            return false;
          }
          data := data[ip := Policy(env, hs.value)];
        case Unregister(env, source) =>
          if source.Some? {
            data := data - {source.value};
          } else {
            data := map a | a in data && data[a].env != env :: data[a];
          }
      }
      file := Some(data);
      return true;
    }
  }
}
