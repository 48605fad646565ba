/** Template parameters and hook rendering (params.py). */
module Params {
  import opened Wrappers
  import opened Strings
  import Naming

  // ---- declarations and arguments ----

  /** `accepts` is the declared pattern: an arbitrary predicate, true for no pattern. */
  datatype Param = Param(
    name: string,
    default: Option<string>,
    required: bool,
    choices: seq<string>,
    accepts: string -> bool)

  const BUILTINS := {"id", "template"}

  const MAX_ARGS := 20

  predicate IsWordChar(c: char) { IsLowerLetter(c) || IsDigit(c) || c == '_' }

  /** `[a-z][a-z0-9_]{0,30}` */
  predicate NameText(s: string) {
    1 <= |s| <= 31 && IsLowerLetter(s[0]) && forall i :: 0 <= i < |s| ==> IsWordChar(s[i])
  }

  /** `[\x20-\x7e]{0,200}` */
  predicate ValueText(s: string) {
    |s| <= 200 && forall i :: 0 <= i < |s| ==> ' ' <= s[i] <= '~'
  }

  /** What a value has to be before choices and pattern, and what a supplied name has to be: `$` lets
      one final newline through. So printable ASCII of at most 200 characters is accepted with and
      without a newline appended, `[a-z][a-z0-9_]{0,30}` likewise, and nothing else is; what is
      accepted is as documented exactly when it does not end in a newline. */
  lemma NewlinePasses(s: string)
    ensures ValueText(Naming.Dollar(s)) <==> ValueText(s) || (s != "" && s[|s| - 1] == '\n' && ValueText(s[..|s| - 1]))
    ensures NameText(Naming.Dollar(s)) <==> NameText(s) || (s != "" && s[|s| - 1] == '\n' && NameText(s[..|s| - 1]))
    ensures ValueText(Naming.Dollar(s + "\n")) <==> ValueText(s)
    ensures NameText(Naming.Dollar(s + "\n")) <==> NameText(s)
    ensures ValueText(Naming.Dollar(s)) ==> (ValueText(s) <==> s == "" || s[|s| - 1] != '\n')
    ensures NameText(Naming.Dollar(s)) ==> (NameText(s) <==> s[|s| - 1] != '\n')
  {
    assert (s + "\n")[..|s|] == s;
  }

  predicate Check(p: Param, value: string) {
    && ValueText(Naming.Dollar(value))
    && (p.choices != [] ==> value in p.choices)
    && p.accepts(value)
  }

  /** A dictionary of parameters, in order. */
  predicate Distinct(params: seq<Param>) {
    forall i, j :: 0 <= i < j < |params| ==> params[i].name != params[j].name
  }

  function Names(params: seq<Param>): set<string> {
    set i | 0 <= i < |params| :: params[i].name
  }

  predicate KnownArgs(params: seq<Param>, supplied: map<string, string>) {
    && |supplied| <= MAX_ARGS
    && forall name :: name in supplied ==> NameText(Naming.Dollar(name)) && name in Names(params)
  }

  /** What one parameter resolves to: a value, nothing, or an error. */
  datatype Resolution = Value(v: string) | Omitted | Rejected

  function ResolveOne(p: Param, supplied: map<string, string>): Resolution {
    if p.name in supplied then (if Check(p, supplied[p.name]) then Value(supplied[p.name]) else Rejected)
    else if p.default.Some? then (if Check(p, p.default.value) then Value(p.default.value) else Rejected)
    else if p.required then Rejected
    else Omitted
  }

  function Entry(args: map<string, string>, name: string): Resolution {
    if name in args then Value(args[name]) else Omitted
  }

  ghost predicate Agrees(params: seq<Param>, supplied: map<string, string>, args: map<string, string>) {
    && args.Keys <= Names(params)
    && forall i :: 0 <= i < |params| ==> ResolveOne(params[i], supplied) == Entry(args, params[i].name)
  }

  /** The resolved map, as a set of equations: the arguments are known and every parameter
      resolves to what `args` holds. */
  ghost predicate Resolves(params: seq<Param>, supplied: map<string, string>, args: map<string, string>) {
    KnownArgs(params, supplied) && Agrees(params, supplied, args)
  }

  ghost predicate Unresolvable(params: seq<Param>, supplied: map<string, string>) {
    !KnownArgs(params, supplied) || exists i :: 0 <= i < |params| && ResolveOne(params[i], supplied).Rejected?
  }

  function Fill(params: seq<Param>, supplied: map<string, string>): Option<map<string, string>> {
    if params == [] then Some(map[])
    else
      var n := |params| - 1;
      match Fill(params[..n], supplied)
      case None => None
      case Some(args) =>
        match ResolveOne(params[n], supplied)
        case Value(v) => Some(args[params[n].name := v])
        case Omitted => Some(args)
        case Rejected => None
  }

  function Resolve(params: seq<Param>, supplied: map<string, string>): Option<map<string, string>> {
    if KnownArgs(params, supplied) then Fill(params, supplied) else None
  }

  lemma NamesSnoc(params: seq<Param>, n: nat)
    requires n < |params|
    ensures Names(params[..n + 1]) == Names(params[..n]) + {params[n].name}
    ensures Distinct(params) ==> params[n].name !in Names(params[..n])
  {
  }

  lemma AgreesSnoc(params: seq<Param>, n: nat, supplied: map<string, string>, args: map<string, string>,
                   args': map<string, string>)
    requires n < |params| && Distinct(params) && Agrees(params[..n], supplied, args)
    requires match ResolveOne(params[n], supplied)
      case Value(v) => args' == args[params[n].name := v]
      case Omitted => args' == args
      case Rejected => false
    ensures Agrees(params[..n + 1], supplied, args')
  {
    NamesSnoc(params, n);
    var a, b := params[..n], params[..n + 1];
    forall i | 0 <= i < n + 1 ensures ResolveOne(b[i], supplied) == Entry(args', b[i].name) {
      assert i < n ==> a[i] == b[i];
    }
  }

  lemma {:induction false} FillAgrees(params: seq<Param>, supplied: map<string, string>)
    requires Distinct(params)
    ensures match Fill(params, supplied)
      case Some(args) => Agrees(params, supplied, args)
      case None => exists i :: 0 <= i < |params| && ResolveOne(params[i], supplied).Rejected?
  {
    if params != [] {
      var n := |params| - 1;
      FillAgrees(params[..n], supplied);
      match Fill(params[..n], supplied)
      case None =>
        var i :| 0 <= i < n && ResolveOne(params[..n][i], supplied).Rejected?;
        assert ResolveOne(params[i], supplied).Rejected?;
      case Some(args) =>
        assert params[..n + 1] == params;
        if !ResolveOne(params[n], supplied).Rejected? {
          AgreesSnoc(params, n, supplied, args, Fill(params, supplied).value);
        }
    }
  }

  lemma AgreementIsUnique(params: seq<Param>, supplied: map<string, string>, a: map<string, string>,
                          b: map<string, string>)
    requires Agrees(params, supplied, a) && Agrees(params, supplied, b)
    ensures a == b
  {
  }

  lemma AgreementRejectsNothing(params: seq<Param>, supplied: map<string, string>, args: map<string, string>, i: nat)
    requires Agrees(params, supplied, args) && i < |params|
    ensures !ResolveOne(params[i], supplied).Rejected?
  {
  }

  /** `resolve` returns the one map its equations allow, or an error exactly when there is none. */
  lemma ResolveIff(params: seq<Param>, supplied: map<string, string>, args: map<string, string>)
    requires Distinct(params)
    ensures Resolve(params, supplied) == Some(args) <==> Resolves(params, supplied, args)
    ensures Resolve(params, supplied).None? <==> Unresolvable(params, supplied)
  {
    FillAgrees(params, supplied);
    match Fill(params, supplied)
    case Some(got) =>
      if Agrees(params, supplied, args) {
        AgreementIsUnique(params, supplied, args, got);
      }
      forall i | 0 <= i < |params| ensures !ResolveOne(params[i], supplied).Rejected? {
        AgreementRejectsNothing(params, supplied, got, i);
      }
    case None =>
      var i :| 0 <= i < |params| && ResolveOne(params[i], supplied).Rejected?;
      if Agrees(params, supplied, args) {
        AgreementRejectsNothing(params, supplied, args, i);
      }
  }

  lemma ResolveOneAgain(p: Param, supplied: map<string, string>, args: map<string, string>)
    requires ResolveOne(p, supplied) == Entry(args, p.name)
    ensures ResolveOne(p, args) == Entry(args, p.name)
  {
  }

  /** Resolving what `resolve` returned returns it again, exactly when there are not too many
      of them and their names are legal: declared names are not checked, supplied ones are. */
  lemma ResolveIdempotentIff(params: seq<Param>, supplied: map<string, string>, args: map<string, string>)
    requires Distinct(params) && Resolve(params, supplied) == Some(args)
    ensures Resolve(params, args) == Some(args)
      <==> (|args| <= MAX_ARGS && forall name :: name in args ==> NameText(Naming.Dollar(name)))
  {
    ResolveIff(params, supplied, args);
    ResolveIff(params, args, args);
    forall i | 0 <= i < |params| ensures ResolveOne(params[i], args) == Entry(args, params[i].name) {
      ResolveOneAgain(params[i], supplied, args);
    }
  }

  /** In particular for every template of at most MAX_ARGS legally named parameters. */
  lemma ResolveIdempotent(params: seq<Param>, supplied: map<string, string>, args: map<string, string>)
    requires Distinct(params) && Resolve(params, supplied) == Some(args)
    requires |params| <= MAX_ARGS && forall i :: 0 <= i < |params| ==> NameText(Naming.Dollar(params[i].name))
    ensures Resolve(params, args) == Some(args)
  {
    ResolveIff(params, supplied, args);
    ResolveIdempotentIff(params, supplied, args);
    NamesCount(params);
    assert args.Keys <= Names(params);
    SubsetCount(args.Keys, Names(params));
    assert |args| == |args.Keys|;
    forall name | name in args ensures NameText(Naming.Dollar(name)) {
      assert name in Names(params);
    }
  }

  lemma {:induction false} NamesCount(params: seq<Param>)
    ensures |Names(params)| <= |params|
  {
    if params != [] {
      NamesCount(params[1..]);
      assert Names(params) == {params[0].name} + Names(params[1..]) by {
        forall name | name in Names(params) ensures name in {params[0].name} + Names(params[1..]) {
          var i :| 0 <= i < |params| && params[i].name == name;
          assert i > 0 ==> params[1..][i - 1].name == name;
        }
        forall name | name in Names(params[1..]) ensures name in Names(params) {
          var i :| 0 <= i < |params[1..]| && params[1..][i].name == name;
          assert params[i + 1].name == name;
        }
      }
    }
  }

  lemma {:induction false} SubsetCount(a: set<string>, b: set<string>)
    requires a <= b
    ensures |a| <= |b|
  {
    assert |b| == |a| + |b - a| by { assert b == a + (b - a); }
  }

  /** The loop of `resolve`. */
  method ResolveArgs(params: seq<Param>, supplied: map<string, string>) returns (r: Option<map<string, string>>)
    requires Distinct(params)
    ensures r.Some? ==> Resolves(params, supplied, r.value)
    ensures r.None? ==> Unresolvable(params, supplied)
  {
    if |supplied| > MAX_ARGS {
      return None;
    }
    if !forall name :: name in supplied ==> NameText(Naming.Dollar(name)) && name in Names(params) {
      return None;
    }
    var resolved: map<string, string> := map[];
    for n := 0 to |params|
      invariant Agrees(params[..n], supplied, resolved)
    {
      var p, was := params[n], resolved;
      if p.name in supplied {
        if !Check(p, supplied[p.name]) {
          assert ResolveOne(params[n], supplied).Rejected?;
          return None;
        }
        resolved := resolved[p.name := supplied[p.name]];
      } else if p.default.Some? {
        if !Check(p, p.default.value) {
          assert ResolveOne(params[n], supplied).Rejected?;
          return None;
        }
        resolved := resolved[p.name := p.default.value];
      } else if p.required {
        assert ResolveOne(params[n], supplied).Rejected?;
        return None;
      }
      AgreesSnoc(params, n, supplied, was, resolved);
    }
    assert params[..|params|] == params;
    return Some(resolved);
  }
}
