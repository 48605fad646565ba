/** Browser access to exposures (webauth.py): magic-link tokens, hand-off codes and cookies.
    Signed values are the set of those the daemon has issued: nobody else can make one. Any
    number of requests interleave, one step at a time. */
module WebAuth {
  import opened Wrappers
  import opened Model
  import opened Strings
  import opened Tables
  import Naming

  /** A token row, found by the hash of the secret in the link. */
  datatype Token = Token(email: string, host: string, expires: int, consumed: Option<int>)

  /** A signed payload and the time it was signed at. */
  datatype Signed = Signed(email: string, host: string, at: int)

  /** A magic-link request between its statements: checked at `now`, or its claim won. */
  datatype Pending = Checked(key: nat, now: int) | Claimed(key: nat)

  /** How long a session lasts, in seconds, and the base domain of exposed hosts. */
  datatype Site = Site(session: nat, domain: string)

  /** The store and the team accounts, as a request finds them. */
  datatype Found = Found(t: Tables, accounts: map<string, Principal>)

  /** `answered` records when each token's sign-in was answered, and `logins` who has a Django
      session: history, not state of the daemon. */
  datatype Web = Web(
    tokens: map<nat, Token>,
    codes: set<Signed>,
    cookies: set<Signed>,
    ssos: set<Signed>,
    pending: map<nat, Pending>,
    answered: map<nat, int>,
    logins: set<string>)

  const NOBODY := Web(map[], {}, {}, {}, map[], map[], {})

  const CODE_MAX_AGE := 60

  datatype Step =
    | Submit(key: nat, email: string, target: Option<string>, expires: int, found: Found)
    | Link(key: nat, email: string, name: string, expires: int, found: Found)
    | Login(user: string)
    | Check(p: nat, key: nat, target: Option<string>, now: int)
    | Claim(p: nat)
    | Answer(p: nat, now: int)
    | Sso(target: Option<string>, cookie: Option<Signed>, session: Option<string>, now: int)
    | Callback(host: string, code: Signed, now: int)

  function Clean(email: string): string {
    Lower(Strip(email))
  }

  // ---- who may view ----

  const ALIVE: set<Status> := {Creating, Ready, Stopped}

  /** The exposure a host names, if its environment is alive. */
  function ExposureForHost(t: Tables, domain: string, host: string): Option<string> {
    match Naming.ExposureLabel(host, domain)
    case None => None
    case Some(name) =>
      if name in t.exposures && t.exposures[name].env in t.rows && t.rows[t.exposures[name].env].status in ALIVE
      then Some(name) else None
  }

  predicate Listed(exposure: Exposure, email: string) {
    exists i :: 0 <= i < |exposure.access| && Clean(exposure.access[i]) == Clean(email)
  }

  /** A verified address speaks for its account's principal, or without one only for itself. */
  function PrincipalFor(accounts: map<string, Principal>, email: string): Principal {
    if email in accounts then accounts[email] else Principal(email, false)
  }

  predicate Authorized(found: Found, email: string, name: string)
    requires name in found.t.exposures && found.t.exposures[name].env in found.t.rows
  {
    || Listed(found.t.exposures[name].exposure, email)
    || CanView(PrincipalFor(found.accounts, Clean(email)), ToEnvironment(found.t, found.t.exposures[name].env))
  }

  // ---- one request ----

  function Minted(s: Web, key: nat, email: string, host: string, expires: int): Web {
    if key in s.tokens then s
    else s.(tokens := s.tokens[key := Token(Clean(email), host, expires, None)])
  }

  /** `login_submit`: a link is mailed only to an address that would be let in. */
  predicate WouldBeLetIn(site: Site, email: string, target: Option<string>, found: Found) {
    && email != "" && target.Some? && ExposureForHost(found.t, site.domain, target.value).Some?
    && Authorized(found, email, ExposureForHost(found.t, site.domain, target.value).value)
  }

  function UrlHost(site: Site, name: string): string {
    Lower(Naming.ExposureHost(name, site.domain))
  }

  /** `expose` hands out a link for each address on the exposure's list; one to a host that names
      no exposure raises. */
  predicate HandsOut(site: Site, email: string, name: string, found: Found) {
    && name in found.t.exposures && found.t.exposures[name].env in found.t.rows
    && email in found.t.exposures[name].exposure.access
    && Naming.ExposureLabel(UrlHost(site, name), site.domain).Some?
  }

  /** The first half of `_consume_magic_token`. A link without a valid target passes its own
      check but hands off nowhere, so it starts nothing here. */
  function CheckToken(s: Web, p: nat, key: nat, target: Option<string>, now: int): Web {
    if key in s.tokens && s.tokens[key].consumed.None? && s.tokens[key].expires > now
       && target == Some(s.tokens[key].host)
    then s.(pending := s.pending[p := Checked(key, now)])
    else s.(pending := s.pending - {p})
  }

  /** The conditional update: of any number of requests that passed the check, one wins. */
  function ClaimToken(s: Web, p: nat): Web {
    if p in s.pending && s.pending[p].Checked? then
      var Checked(key, now) := s.pending[p];
      if key in s.tokens && s.tokens[key].consumed.None? && s.tokens[key].expires > now then
        s.(tokens := s.tokens[key := s.tokens[key].(consumed := Some(now))],
           pending := s.pending[p := Claimed(key)])
      else s.(pending := s.pending - {p})
    else s
  }

  /** The response: a hand-off code for the host, and the sign-in host's own cookie. */
  function AnswerMagic(s: Web, p: nat, now: int): Web {
    if p in s.pending && s.pending[p].Claimed? && s.pending[p].key in s.tokens then
      var key := s.pending[p].key;
      var token := s.tokens[key];
      s.(codes := s.codes + {Signed(Clean(token.email), token.host, now)},
         ssos := s.ssos + {Signed(token.email, token.host, now)},
         pending := s.pending - {p},
         answered := s.answered[key := now])
    else s
  }

  /** Who the sign-in host takes a visitor for; the empty string is nobody. */
  function Identity(s: Web, site: Site, target: Option<string>, cookie: Option<Signed>, user: Option<string>,
                    now: int)
    : string
  {
    if cookie.Some? && cookie.value in s.ssos && now - cookie.value.at <= site.session
       && cookie.value.email != "" && cookie.value.host != "" && target == Some(cookie.value.host)
    then cookie.value.email
    else if user.Some? && user.value in s.logins then user.value
    else ""
  }

  function Next(s: Web, site: Site, step: Step): Web {
    match step
    case Submit(key, email, target, expires, found) =>
      if WouldBeLetIn(site, Clean(email), target, found) then Minted(s, key, Clean(email), target.value, expires)
      else s
    case Link(key, email, name, expires, found) =>
      if HandsOut(site, email, name, found) then Minted(s, key, email, UrlHost(site, name), expires)
      else s
    case Login(user) => s.(logins := s.logins + {user})
    case Check(p, key, target, now) => CheckToken(s, p, key, target, now)
    case Claim(p) => ClaimToken(s, p)
    case Answer(p, now) => AnswerMagic(s, p, now)
    case Sso(target, cookie, user, now) =>
      var email := Identity(s, site, target, cookie, user, now);
      if email == "" || target.None? then s
      else s.(codes := s.codes + {Signed(Clean(email), target.value, now)})
    case Callback(host, code, now) =>
      if code in s.codes && now - code.at <= CODE_MAX_AGE && code.host == host
      then s.(cookies := s.cookies + {Signed(code.email, host, now)})
      else s
  }

  function Run(site: Site, steps: seq<Step>): Web {
    if steps == [] then NOBODY else Next(Run(site, steps[..|steps| - 1]), site, steps[|steps| - 1])
  }

  /** `_cookie_email`: whom a session cookie presented to a host stands for. */
  function CookieEmail(s: Web, site: Site, cookie: Signed, host: string, now: int): Option<string> {
    if cookie in s.cookies && now - cookie.at <= site.session && cookie.host == host then Some(cookie.email) else None
  }

  // ---- tokens ----

  ghost predicate TokensInv(s: Web) {
    && (forall k :: k in s.tokens && s.tokens[k].consumed.Some? ==> s.tokens[k].consumed.value < s.tokens[k].expires)
    && (forall p :: p in s.pending && s.pending[p].Claimed? ==>
          var k := s.pending[p].key;
          k in s.tokens && s.tokens[k].consumed.Some? && k !in s.answered)
    && (forall p, q :: p in s.pending && q in s.pending && s.pending[p].Claimed? && s.pending[q] == s.pending[p] ==>
          p == q)
    && (forall k :: k in s.answered ==> k in s.tokens && s.tokens[k].consumed.Some?)
  }

  lemma TokensStep(s: Web, site: Site, step: Step)
    requires TokensInv(s)
    ensures TokensInv(Next(s, site, step))
  {
    hide Clean, Identity;
  }

  lemma {:induction false} TokensRun(site: Site, steps: seq<Step>)
    ensures TokensInv(Run(site, steps))
  {
    if steps != [] {
      TokensRun(site, steps[..|steps| - 1]);
      TokensStep(Run(site, steps[..|steps| - 1]), site, steps[|steps| - 1]);
    }
  }

  /** How many requests of a run were answered with a sign-in for this token. */
  ghost function SignIns(site: Site, steps: seq<Step>, key: nat): nat {
    if steps == [] then 0
    else
      var prefix, last := steps[..|steps| - 1], steps[|steps| - 1];
      var s := Run(site, prefix);
      SignIns(site, prefix, key) +
      if last.Answer? && last.p in s.pending && s.pending[last.p] == Claimed(key) && key in s.tokens then 1 else 0
  }

  lemma {:induction false} SignInsAnswered(site: Site, steps: seq<Step>, key: nat)
    ensures SignIns(site, steps, key) == if key in Run(site, steps).answered then 1 else 0
  {
    if steps != [] {
      SignInsAnswered(site, steps[..|steps| - 1], key);
      TokensRun(site, steps[..|steps| - 1]);
    }
  }

  /** Whatever interleaves, a token signs in at most one request, and only one that found it
      unexpired. */
  lemma EachTokenOnce(site: Site, steps: seq<Step>, key: nat)
    ensures SignIns(site, steps, key) <= 1
    ensures SignIns(site, steps, key) == 1 ==>
      var tokens := Run(site, steps).tokens;
      key in tokens && tokens[key].consumed.Some? && tokens[key].consumed.value < tokens[key].expires
  {
    SignInsAnswered(site, steps, key);
    TokensRun(site, steps);
  }

  // ---- where sessions come from ----

  /** A sign-in by a token minted for this address and host, answered `within` before `at`. */
  ghost predicate ByToken(s: Web, m: Signed, within: int) {
    exists k :: k in s.answered && k in s.tokens && s.tokens[k].consumed.Some?
                && Clean(s.tokens[k].email) == m.email && s.tokens[k].host == m.host && m.at <= s.answered[k] + within
  }

  ghost predicate ByLogin(s: Web, m: Signed) {
    exists u :: u in s.logins && Clean(u) == m.email
  }

  ghost predicate SsoByToken(s: Web, m: Signed) {
    exists k :: k in s.answered && k in s.tokens && s.tokens[k].consumed.Some?
                && s.tokens[k].email == m.email && s.tokens[k].host == m.host && m.at == s.answered[k]
  }

  ghost predicate Descent(s: Web, site: Site) {
    && (forall m :: m in s.ssos ==> SsoByToken(s, m))
    && (forall m :: m in s.codes ==> ByToken(s, m, site.session) || ByLogin(s, m))
    && (forall m :: m in s.cookies ==> ByToken(s, m, site.session + CODE_MAX_AGE) || ByLogin(s, m))
  }

  /** What was issued keeps its origin. */
  lemma OriginsStay(s: Web, site: Site, step: Step, m: Signed, within: int)
    requires TokensInv(s)
    ensures ByToken(s, m, within) ==> ByToken(Next(s, site, step), m, within)
    ensures ByLogin(s, m) ==> ByLogin(Next(s, site, step), m)
    ensures SsoByToken(s, m) ==> SsoByToken(Next(s, site, step), m)
  {
    hide Clean;
    var s' := Next(s, site, step);
    if ByToken(s, m, within) {
      var k :| k in s.answered && k in s.tokens && s.tokens[k].consumed.Some?
               && Clean(s.tokens[k].email) == m.email && s.tokens[k].host == m.host && m.at <= s.answered[k] + within;
      AnsweredStays(s, site, step, k);
    }
    if SsoByToken(s, m) {
      var k :| k in s.answered && k in s.tokens && s.tokens[k].consumed.Some?
               && s.tokens[k].email == m.email && s.tokens[k].host == m.host && m.at == s.answered[k];
      AnsweredStays(s, site, step, k);
    }
    if ByLogin(s, m) {
      var u :| u in s.logins && Clean(u) == m.email;
      assert u in s'.logins;
    }
  }

  lemma AnsweredStays(s: Web, site: Site, step: Step, k: nat)
    requires TokensInv(s) && k in s.answered && k in s.tokens
    ensures var s' := Next(s, site, step);
      k in s'.answered && s'.answered[k] == s.answered[k] && k in s'.tokens && s'.tokens[k] == s.tokens[k]
  {
  }

  /** What a step issues has an origin. */
  lemma IssuedHasOrigin(s: Web, site: Site, step: Step, m: Signed)
    requires TokensInv(s) && Descent(s, site)
    ensures var s' := Next(s, site, step);
      && (m in s'.ssos && m !in s.ssos ==> SsoByToken(s', m))
      && (m in s'.codes && m !in s.codes ==> ByToken(s', m, site.session) || ByLogin(s', m))
      && (m in s'.cookies && m !in s.cookies ==> ByToken(s', m, site.session + CODE_MAX_AGE) || ByLogin(s', m))
  {
    hide Clean;
    match step
    case Sso(target, cookie, user, now) =>
      if cookie.Some? && cookie.value in s.ssos {
        assert SsoByToken(s, cookie.value);
      }
    case Callback(host, code, now) =>
      if code in s.codes {
        assert ByToken(s, code, site.session) || ByLogin(s, code);
      }
    case _ =>
  }

  lemma DescentStep(s: Web, site: Site, step: Step)
    requires TokensInv(s) && Descent(s, site)
    ensures Descent(Next(s, site, step), site)
  {
    hide Next, SsoByToken, ByToken, ByLogin, TokensInv;
    var s' := Next(s, site, step);
    forall m {:trigger m in s'.ssos} | m in s'.ssos ensures SsoByToken(s', m) {
      OriginsStay(s, site, step, m, site.session);
      IssuedHasOrigin(s, site, step, m);
    }
    forall m {:trigger m in s'.codes} | m in s'.codes ensures ByToken(s', m, site.session) || ByLogin(s', m) {
      OriginsStay(s, site, step, m, site.session);
      IssuedHasOrigin(s, site, step, m);
    }
    forall m {:trigger m in s'.cookies} | m in s'.cookies
      ensures ByToken(s', m, site.session + CODE_MAX_AGE) || ByLogin(s', m)
    {
      OriginsStay(s, site, step, m, site.session + CODE_MAX_AGE);
      IssuedHasOrigin(s, site, step, m);
    }
  }

  lemma {:induction false} DescentRun(site: Site, steps: seq<Step>)
    ensures Descent(Run(site, steps), site)
  {
    if steps != [] {
      DescentRun(site, steps[..|steps| - 1]);
      TokensRun(site, steps[..|steps| - 1]);
      DescentStep(Run(site, steps[..|steps| - 1]), site, steps[|steps| - 1]);
    }
  }

  // ---- who gets a token ----

  /** An exposure answers at the host, by the label the host names or by the link made for it. */
  predicate Names(site: Site, host: string, name: string) {
    Naming.ExposureLabel(host, site.domain) == Some(name) || host == UrlHost(site, name)
  }

  /** The address may view an exposure at that host, as things were found. */
  ghost predicate Granted(site: Site, found: Found, email: string, host: string) {
    exists name :: name in found.t.exposures && found.t.exposures[name].env in found.t.rows
                   && Names(site, host, name) && Authorized(found, email, name)
  }

  ghost predicate Mints(site: Site, step: Step, key: nat, email: string, host: string) {
    (step.Submit? || step.Link?) && step.key == key && Granted(site, step.found, email, host)
  }

  lemma CleanIdempotent(email: string)
    ensures Clean(Clean(email)) == Clean(email)
  {
    hide LowerChar, IsSpace;
    var v := Strip(email);
    if v != "" {
      Naming.RStripEnd(LStrip(email));
      StripHead(email);
      Naming.LowerSpace(v[0]);
      Naming.LowerSpace(v[|v| - 1]);
      Naming.StripClean(Lower(v));
    }
    LowerTwice(v);
  }

  lemma StripHead(email: string)
    ensures Strip(email) != "" ==> !IsSpace(Strip(email)[0])
  {
    Naming.LStripHead(email);
    Naming.RStripPrefix(LStrip(email));
  }

  lemma LowerTwice(s: string)
    ensures Lower(Lower(s)) == Lower(s)
  {
  }

  lemma MintIsGranted(s: Web, site: Site, step: Step, key: nat)
    requires key !in s.tokens && key in Next(s, site, step).tokens
    ensures var token := Next(s, site, step).tokens[key];
      Mints(site, step, key, token.email, token.host)
  {
    hide Clean, Naming.ExposureLabel, UrlHost, CanView;
    match step
    case Submit(_, email, target, _, found) =>
      CleanIdempotent(email);
      var name := ExposureForHost(found.t, site.domain, target.value).value;
      assert Names(site, target.value, name);
    case Link(_, email, name, _, found) =>
      CleanIdempotent(email);
      assert Names(site, UrlHost(site, name), name);
      ListedIsCleaned(found, email, name);
    case _ =>
  }

  lemma ListedIsCleaned(found: Found, email: string, name: string)
    requires name in found.t.exposures && email in found.t.exposures[name].exposure.access
    ensures Listed(found.t.exposures[name].exposure, Clean(email))
  {
    hide Clean;
    CleanIdempotent(email);
    var access := found.t.exposures[name].exposure.access;
    var i :| 0 <= i < |access| && access[i] == email;
    assert Clean(access[i]) == Clean(Clean(email));
  }

  lemma TokenStays(s: Web, site: Site, step: Step, key: nat)
    requires key in s.tokens
    ensures var s' := Next(s, site, step);
      key in s'.tokens && s'.tokens[key].email == s.tokens[key].email && s'.tokens[key].host == s.tokens[key].host
  {
    hide Clean, Identity, WouldBeLetIn, HandsOut;
  }

  /** In every run a token was minted for an address that was authorized, at that time, for an
      exposure at the token's host. */
  lemma {:induction false} MintedIsGranted(site: Site, steps: seq<Step>, key: nat)
    ensures key in Run(site, steps).tokens ==>
      var token := Run(site, steps).tokens[key];
      exists i :: 0 <= i < |steps| && key !in Run(site, steps[..i]).tokens
                  && Mints(site, steps[i], key, token.email, token.host)
  {
    hide Next, Mints;
    if steps != [] && key in Run(site, steps).tokens {
      var n := |steps| - 1;
      var prefix := steps[..n];
      if key in Run(site, prefix).tokens {
        MintedIsGranted(site, prefix, key);
        TokenStays(Run(site, prefix), site, steps[n], key);
        var token := Run(site, steps).tokens[key];
        var i :| 0 <= i < n && key !in Run(site, prefix[..i]).tokens
                 && Mints(site, prefix[i], key, token.email, token.host);
        assert prefix[..i] == steps[..i] && prefix[i] == steps[i];
      } else {
        MintIsGranted(Run(site, prefix), site, steps[n], key);
        assert steps[..n] == prefix;
      }
    }
  }

  /** A sign-in by a token minted for this very host, while its address was authorized there,
      answered at most two session lifetimes and a hand-off ago. */
  ghost predicate SignedIn(site: Site, steps: seq<Step>, email: string, host: string, now: int) {
    var s := Run(site, steps);
    exists k :: k in s.answered && k in s.tokens && s.tokens[k].consumed.Some?
                && s.tokens[k].host == host && Clean(s.tokens[k].email) == email
                && now <= s.answered[k] + 2 * site.session + CODE_MAX_AGE
                && exists i :: 0 <= i < |steps| && Mints(site, steps[i], k, s.tokens[k].email, host)
  }

  /** Every session cookie accepted for a host stands for an address that a token minted for that
      very host signed in, at most two session lifetimes and a hand-off ago, or for a Django
      login; and the token was minted while the address was authorized there. */
  lemma SessionsDescend(site: Site, steps: seq<Step>, cookie: Signed, host: string, now: int)
    requires CookieEmail(Run(site, steps), site, cookie, host, now).Some?
    ensures var s := Run(site, steps);
      var email := CookieEmail(s, site, cookie, host, now).value;
      SignedIn(site, steps, email, host, now) || (exists u :: u in s.logins && Clean(u) == email)
  {
    hide Clean, Run, Mints;
    DescentRun(site, steps);
    var s := Run(site, steps);
    assert ByToken(s, cookie, site.session + CODE_MAX_AGE) || ByLogin(s, cookie);
    if k :| k in s.answered && k in s.tokens && s.tokens[k].consumed.Some?
            && Clean(s.tokens[k].email) == cookie.email && s.tokens[k].host == cookie.host
            && cookie.at <= s.answered[k] + site.session + CODE_MAX_AGE {
      MintedIsGranted(site, steps, k);
    }
  }

  /** Hand-off codes are bound to their host and their minute, but not to one use: within it the
      same code buys a cookie at every visit, and outside it none. */
  lemma CodesAreNotSingleUse(s: Web, site: Site, code: Signed, host: string, first: int, second: int)
    requires code in s.codes
    ensures var s1 := Next(s, site, Callback(host, code, first));
      var s2 := Next(s1, site, Callback(host, code, second));
      && (Signed(code.email, host, second) in s2.cookies <==>
            (Signed(code.email, host, second) in s1.cookies
             || (host == code.host && second <= code.at + CODE_MAX_AGE)))
      && (host != code.host || second > code.at + CODE_MAX_AGE ==> s2 == s1)
  {
  }

  // ---- the views, one request at a time ----

  datatype Response = LinkExpired | InvalidLink | LoginPage | CodeExpired | WrongHost | Redirect(host: string)

  class ViewerLogin {
    const site: Site
    var tokens: map<nat, Token>
    var codes: set<Signed>
    var cookies: set<Signed>
    var ssos: set<Signed>
    var logins: set<string>
    ghost var answered: map<nat, int>

    ghost function View(): Web
      reads this
    {
      Web(tokens, codes, cookies, ssos, map[], answered, logins)
    }

    constructor (site: Site)
      ensures View() == NOBODY && this.site == site
    {
      this.site := site;
      tokens, codes, cookies, ssos, logins, answered := map[], {}, {}, {}, {}, map[];
    }

    /** `login_submit`: a token is minted, and its link mailed, exactly when the address would be
        let in right now. */
    method LoginSubmit(key: nat, email: string, target: Option<string>, expires: int, found: Found)
      returns (mailed: bool)
      requires key !in tokens
      modifies this`tokens
      ensures View() == Next(old(View()), site, Submit(key, email, target, expires, found))
      ensures mailed <==> key in tokens
      ensures mailed <==> WouldBeLetIn(site, Clean(email), target, found)
    {
      var address := Clean(email);
      if address == "" || target.None? {
        return false;
      }
      var name := ExposureForHost(found.t, site.domain, target.value);
      if name.None? || !Authorized(found, address, name.value) {
        return false;
      }
      tokens := tokens[key := Token(Clean(address), target.value, expires, None)];
      return true;
    }

    /** `_consume_magic_token`: the token is burnt exactly when its address is returned for a
        host; a tampered link burns nothing. */
    method ConsumeMagicToken(key: nat, expectedHost: Option<string>, now: int) returns (email: Option<string>)
      modifies this`tokens
      ensures email.Some? <==>
        && key in old(tokens) && old(tokens)[key].consumed.None? && old(tokens)[key].expires > now
        && (expectedHost.Some? ==> old(tokens)[key].host == expectedHost.value)
      ensures email.Some? ==> email.value == old(tokens)[key].email
      ensures tokens == if email.Some? && expectedHost.Some?
                        then old(tokens)[key := old(tokens)[key].(consumed := Some(now))] else old(tokens)
    {
      if key !in tokens || tokens[key].consumed.Some? || tokens[key].expires <= now {
        return None;
      }
      var token := tokens[key];
      if expectedHost.Some? && token.host != expectedHost.value {
        return None;
      }
      if expectedHost.Some? {
        tokens := tokens[key := token.(consumed := Some(now))];
      }
      return Some(token.email);
    }

    /** `_handoff` */
    method HandOff(email: string, target: Option<string>, now: int) returns (r: Response)
      modifies this`codes
      ensures r == if target.None? then InvalidLink else Redirect(target.value)
      ensures codes == old(codes) + if target.None? then {} else {Signed(Clean(email), target.value, now)}
    {
      if target.None? {
        return InvalidLink;
      }
      codes := codes + {Signed(Clean(email), target.value, now)};
      return Redirect(target.value);
    }

    /** A magic link, from check to answer without interruption. */
    method Magic(key: nat, target: Option<string>, now: int) returns (r: Response)
      modifies this
      ensures View() == AnswerMagic(ClaimToken(CheckToken(old(View()), 0, key, target, now), 0), 0, now)
      ensures r.Redirect? <==> target.Some? && key in old(tokens) && old(tokens)[key].consumed.None?
                               && old(tokens)[key].expires > now && old(tokens)[key].host == target.value
      ensures r.Redirect? <==> old(tokens) != tokens
      ensures r.Redirect? ==> r.host == target.value
    {
      var email := ConsumeMagicToken(key, target, now);
      if email.None? {
        return LinkExpired;
      }
      r := HandOff(email.value, target, now);
      if r.Redirect? {
        ssos := ssos + {Signed(email.value, target.value, now)};
        answered := answered[key := now];
      }
    }

    method SsoPage(target: Option<string>, cookie: Option<Signed>, user: Option<string>, now: int) returns (r: Response)
      modifies this`codes
      ensures View() == Next(old(View()), site, Sso(target, cookie, user, now))
      ensures r.LoginPage? <==> Identity(old(View()), site, target, cookie, user, now) == ""
    {
      var identity: Option<Signed> := None;
      if cookie.Some? && cookie.value in ssos && now - cookie.value.at <= site.session
         && cookie.value.email != "" && cookie.value.host != ""
      {
        identity := cookie;
      }
      var email := "";
      if identity.Some? && target.Some? && identity.value.host == target.value {
        email := identity.value.email;
      }
      if email == "" && user.Some? && user.value in logins {
        email := user.value;
      }
      if email != "" {
        r := HandOff(email, target, now);
        return;
      }
      return LoginPage;
    }

    method CallbackPage(host: string, code: Signed, now: int) returns (r: Response)
      modifies this`cookies
      ensures View() == Next(old(View()), site, Callback(host, code, now))
      ensures r.Redirect? <==> code in codes && now <= code.at + CODE_MAX_AGE && code.host == host
    {
      if code !in codes || now - code.at > CODE_MAX_AGE {
        return CodeExpired;
      }
      if code.host != host {
        return WrongHost;
      }
      cookies := cookies + {Signed(code.email, host, now)};
      return Redirect(host);
    }
  }

  // ---- the forward-auth decision ----

  datatype Decision = NoSuchExposure | SignIn | NoAccess | Allowed(email: string)

  function ForwardAuth(s: Web, site: Site, found: Found, host: string, cookie: Option<Signed>, now: int): Decision {
    match ExposureForHost(found.t, site.domain, host)
    case None => NoSuchExposure
    case Some(name) =>
      var email := if cookie.Some? then CookieEmail(s, site, cookie.value, host, now) else None;
      if email.None? then SignIn
      else if Authorized(found, email.value, name) then Allowed(email.value)
      else NoAccess
  }

  /** From cookie to environment: whoever is let through was signed in for that very host, by a
      token minted while the address was authorized there, or by Django, and may view the
      environment, or is on the exposure's list, as things stand now. */
  lemma AllowedIsAuthorized(site: Site, steps: seq<Step>, found: Found, host: string, cookie: Option<Signed>, now: int)
    ensures var s := Run(site, steps);
      var decision := ForwardAuth(s, site, found, host, cookie, now);
      decision.Allowed? ==>
        && ExposureForHost(found.t, site.domain, host).Some?
        && Authorized(found, decision.email, ExposureForHost(found.t, site.domain, host).value)
        && (|| SignedIn(site, steps, decision.email, host, now)
            || (exists u :: u in s.logins && Clean(u) == decision.email))
  {
    hide Run, Clean, Authorized, ExposureForHost, SignedIn;
    if ForwardAuth(Run(site, steps), site, found, host, cookie, now).Allowed? {
      SessionsDescend(site, steps, cookie.value, host, now);
    }
  }

  /** Unexposing a label, or destroying its environment, shuts the host at once, whatever cookies
      are out there. */
  lemma WithdrawnIsGone(s: Web, site: Site, found: Found, host: string, cookie: Option<Signed>, now: int,
                        id: string, name: string)
    requires Naming.ExposureLabel(host, site.domain) == Some(name)
    requires name in found.t.exposures && found.t.exposures[name].env == id
    ensures id in found.t.rows ==>
      ForwardAuth(s, site, found.(t := RemoveExposure(found.t, id, name).0), host, cookie, now) == NoSuchExposure
    ensures ForwardAuth(s, site, found.(t := Delete(found.t, id)), host, cookie, now) == NoSuchExposure
  {
  }

  /** Revoking a grant shuts its holder out at once, unless they own the environment, are an
      admin, or the exposure lists their address. */
  lemma RevokedIsOut(s: Web, site: Site, found: Found, host: string, cookie: Option<Signed>, now: int,
                     name: string, principal: string)
    requires ExposureForHost(found.t, site.domain, host) == Some(name)
    ensures var id := found.t.exposures[name].env;
      var after := found.(t := Revoke(found.t, id, principal).0);
      var decision := ForwardAuth(s, site, after, host, cookie, now);
      decision.Allowed? ==>
        var viewer := PrincipalFor(found.accounts, Clean(decision.email));
        viewer.id == principal ==>
          || viewer.admin
          || found.t.rows[id].owner == principal
          || Listed(found.t.exposures[name].exposure, decision.email)
  {
  }
}
