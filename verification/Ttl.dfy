/** Lifetimes (naming.py) and the expiry a new environment gets (control.py). */
module Ttl {
  import opened Wrappers
  import opened Strings

  function Unit(c: char): nat {
    match c
    case 's' => 1
    case 'm' => 60
    case 'h' => 3600
    case 'd' => 86400
    case 'w' => 604800
    case _ => 0
  }

  predicate Digits(s: string) {
    s != "" && forall i :: 0 <= i < |s| ==> IsDigit(s[i])
  }

  /** A lifetime in seconds; `None` is no expiry. */
  function ParseTtl(spec: Option<string>): Result<Option<nat>, ()> {
    if spec.None? then Ok(None)
    else
      var s := Lower(Strip(spec.value));
      if s in {"", "none", "never", "0"} then Ok(None)
      else if |s| >= 2 && Digits(s[..|s| - 1]) && Unit(s[|s| - 1]) > 0
      then Ok(Some(Number(s[..|s| - 1]) * Unit(s[|s| - 1])))
      else Raise(())
  }

  /** `timedelta(0)` is false, so a zero lifetime is no lifetime. */
  function ComputeExpiry(now: int, ttl: Option<nat>): Option<int> {
    if ttl.Some? && ttl.value > 0 then Some(now + ttl.value) else None
  }

  /** The caller's cap fills in a missing expiry and clamps a later one. */
  function Expiry(now: int, ttl: Option<nat>, maxTtl: Option<int>): Option<int> {
    var expires := ComputeExpiry(now, ttl);
    if maxTtl.Some? && (expires.None? || expires.value > now + maxTtl.value) then Some(now + maxTtl.value) else expires
  }

  /** Nothing a request asks for outlives the cap; without one, the environments that never
      expire are those asked for without a lifetime or with zero of any unit. */
  lemma ExpiryIs(now: int, spec: Option<string>, maxTtl: Option<int>)
    requires ParseTtl(spec).Ok?
    ensures var e := Expiry(now, ParseTtl(spec).value, maxTtl);
      && (maxTtl.Some? ==> e.Some? && e.value <= now + maxTtl.value)
      && (e.None? <==> maxTtl.None? && Endless(spec))
  {
    hide ParseTtl, Endless;
    EndlessIff(spec);
  }

  lemma EndlessIff(spec: Option<string>)
    requires ParseTtl(spec).Ok?
    ensures Endless(spec) <==> ParseTtl(spec).value in {None, Some(0)}
  {
    hide Strip, Lower;
    if spec.Some? {
      var s := Lower(Strip(spec.value));
      if s !in {"", "none", "never", "0"} {
        var digits := s[..|s| - 1];
        ZeroDigits(digits);
        Product(Number(digits), Unit(s[|s| - 1]));
        assert (forall i :: 0 <= i < |digits| ==> digits[i] == '0') <==> forall i :: 0 <= i < |s| - 1 ==> s[i] == '0';
      }
    }
  }

  lemma Product(n: nat, u: nat)
    requires u > 0
    ensures n * u == 0 <==> n == 0
  {
  }

  /** No lifetime given, or one whose digits are all zero. */
  predicate Endless(spec: Option<string>) {
    spec.None? ||
    var s := Lower(Strip(spec.value));
    s in {"", "none", "never", "0"} || (s != "" && forall i :: 0 <= i < |s| - 1 ==> s[i] == '0')
  }

  lemma {:induction false} ZeroDigits(s: string)
    requires Digits(s)
    ensures Number(s) == 0 <==> forall i :: 0 <= i < |s| ==> s[i] == '0'
  {
    if |s| > 1 {
      ZeroDigits(s[..|s| - 1]);
      assert forall i :: 0 <= i < |s| - 1 ==> s[i] == s[..|s| - 1][i];
    }
  }

  /** The decimal numeral of a number. */
  function Numeral(n: nat): string {
    if n < 10 then [n as char + '0'] else Numeral(n / 10) + [(n % 10) as char + '0']
  }

  /** Digits are read in base ten. */
  lemma {:induction false} NumeralReadsBack(n: nat)
    ensures Digits(Numeral(n)) && Number(Numeral(n)) == n
  {
    if n >= 10 {
      NumeralReadsBack(n / 10);
      assert Numeral(n)[..|Numeral(n)| - 1] == Numeral(n / 10);
    }
  }

  /** Seconds, minutes, hours, days and weeks. */
  const UNITS := map['s' := 1, 'm' := 60, 'h' := 60 * 60, 'd' := 24 * 60 * 60, 'w' := 7 * 24 * 60 * 60]

  /** A whole number of a unit, in seconds. */
  ghost predicate Spells(s: string, digits: string, unit: char, seconds: nat) {
    && s == digits + [unit] && digits != "" && (forall i :: 0 <= i < |digits| ==> '0' <= digits[i] <= '9')
    && unit in UNITS && seconds == Number(digits) * UNITS[unit]
  }

  lemma UnitIs(c: char)
    ensures if c in UNITS then Unit(c) == UNITS[c] > 0 else Unit(c) == 0
  {
  }

  lemma SpellsIff(s: string, digits: string, unit: char, seconds: nat)
    ensures Spells(s, digits, unit, seconds) <==>
      |s| >= 2 && digits == s[..|s| - 1] && unit == s[|s| - 1]
      && Digits(digits) && Unit(unit) > 0 && seconds == Number(digits) * Unit(unit)
  {
    hide Number, Unit;
    UnitIs(unit);
    assert s == digits + [unit] <==> |s| == |digits| + 1 && s[..|s| - 1] == digits && s[|s| - 1] == unit;
  }

  /** Exactly the lifetimes that are a whole number of a unit are taken, whatever their case and
      surrounding space, as so many seconds, and the words for no lifetime as none. */
  lemma ParseTtlIs(spec: Option<string>, seconds: nat)
    ensures ParseTtl(spec) == Ok(None) <==>
      spec.None? || Lower(Strip(spec.value)) in {"", "none", "never", "0"}
    ensures ParseTtl(spec) == Ok(Some(seconds)) <==>
      spec.Some? && exists digits, unit :: Spells(Lower(Strip(spec.value)), digits, unit, seconds)
  {
    hide Strip, Lower, Number, Unit, Spells;
    if spec.Some? {
      var s := Lower(Strip(spec.value));
      forall digits, unit ensures Spells(s, digits, unit, seconds) ==> s !in {"", "none", "never", "0"} {
        SpellsIff(s, digits, unit, seconds);
        if Spells(s, digits, unit, seconds) {
          NoWord(s);
        }
      }
      if |s| >= 2 {
        SpellsIff(s, s[..|s| - 1], s[|s| - 1], seconds);
      }
      if digits, unit :| Spells(s, digits, unit, seconds) {
        SpellsIff(s, digits, unit, seconds);
      }
    }
  }

  lemma NoWord(s: string)
    requires |s| >= 2 && IsDigit(s[0])
    ensures s !in {"", "none", "never", "0"}
  {
  }

  /** An environment expires after its lifetime or after its caller's cap, whichever ends first; no
      lifetime, or one of zero, leaves it to the cap. */
  lemma ExpiryValue(now: int, ttl: Option<nat>, maxTtl: Option<int>)
    ensures var endless := ttl == None || ttl == Some(0);
      Expiry(now, ttl, maxTtl) ==
        if maxTtl == None then (if endless then None else Some(now + ttl.value))
        else if endless || maxTtl.value < ttl.value then Some(now + maxTtl.value)
        else Some(now + ttl.value)
  {
  }
}
