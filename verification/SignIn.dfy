/** What each step of viewer sign-in does and what forward-auth answers, exactly: by the rows, the
    lists and grants, the signed values issued and the times. */
module SignIn {
  import opened Wrappers
  import opened Model
  import opened Strings
  import opened Tables
  import opened WebAuth
  import Naming

  /** The host names a label that a creating, ready or stopped environment exposes. */
  predicate Served(site: Site, t: Tables, host: string, name: string) {
    && Naming.ExposureLabel(host, site.domain) == Some(name)
    && name in t.exposures && t.exposures[name].env in t.rows
    && var status := t.rows[t.exposures[name].env].status;
      status == Creating || status == Ready || status == Stopped
  }

  /** The address without surrounding space, in lower case. */
  function Plain(email: string): string { Lower(Strip(email)) }

  /** The address is on the exposure's list, or its account, or itself without one, is an admin, the
      environment's owner or a grantee. */
  ghost predicate MayEnter(found: Found, email: string, name: string)
    requires name in found.t.exposures && found.t.exposures[name].env in found.t.rows
  {
    var env, plain := found.t.exposures[name].env, Plain(email);
    var viewer := if plain in found.accounts then found.accounts[plain] else Principal(plain, false);
    || (exists a :: a in found.t.exposures[name].exposure.access && Plain(a) == plain)
    || viewer.admin || found.t.rows[env].owner == viewer.id || (env, viewer.id) in found.t.grants
  }

  lemma ListedIff(exposure: Exposure, email: string)
    ensures Listed(exposure, email) <==> exists a :: a in exposure.access && Plain(a) == Plain(email)
  {
    hide Lower, Strip;
    if a :| a in exposure.access && Plain(a) == Plain(email) {
      var i :| 0 <= i < |exposure.access| && exposure.access[i] == a;
      assert Clean(exposure.access[i]) == Clean(email);
    }
    if i :| 0 <= i < |exposure.access| && Clean(exposure.access[i]) == Clean(email) {
      assert Plain(exposure.access[i]) == Plain(email);
    }
  }

  lemma MayEnterIff(found: Found, email: string, name: string)
    requires name in found.t.exposures && found.t.exposures[name].env in found.t.rows
    ensures Authorized(found, email, name) <==> MayEnter(found, email, name)
  {
    hide Lower, Strip, ExposuresOf, Listed;
    ListedIff(found.t.exposures[name].exposure, email);
  }

  /** A session cookie of this host, issued at most a session ago. */
  predicate Holds(s: Web, site: Site, cookie: Option<Signed>, host: string, now: int) {
    cookie.Some? && cookie.value in s.cookies && cookie.value.host == host && now <= cookie.value.at + site.session
  }

  /** Forward-auth knows no exposure at a host that serves none, asks for a sign-in without such a
      cookie, and otherwise lets exactly those through who may enter. */
  lemma ForwardAuthIs(s: Web, site: Site, found: Found, host: string, cookie: Option<Signed>, now: int)
    ensures var decision := ForwardAuth(s, site, found, host, cookie, now);
      && (decision == NoSuchExposure <==> forall name :: !Served(site, found.t, host, name))
      && (decision == Decision.SignIn <==>
          (exists name :: Served(site, found.t, host, name)) && !Holds(s, site, cookie, host, now))
      && (decision == NoAccess <==>
          Holds(s, site, cookie, host, now)
          && exists name :: Served(site, found.t, host, name) && !MayEnter(found, cookie.value.email, name))
      && (forall email :: decision == Allowed(email) <==>
          Holds(s, site, cookie, host, now) && cookie.value.email == email
          && exists name :: Served(site, found.t, host, name) && MayEnter(found, email, name))
  {
    hide Authorized, MayEnter, Naming.ExposureLabel;
    var named := Naming.ExposureLabel(host, site.domain);
    if named.Some? && Served(site, found.t, host, named.value) {
      if cookie.Some? {
        MayEnterIff(found, cookie.value.email, named.value);
      }
    }
  }

  /** A link is minted, and mailed, exactly for an address that is not blank and may enter what the
      target serves; otherwise nothing happens. */
  lemma SubmitIs(s: Web, site: Site, key: nat, email: string, target: Option<string>, expires: int, found: Found)
    requires key !in s.tokens
    ensures var s' := Next(s, site, Submit(key, email, target, expires, found));
      var entering := Plain(email) != "" && target.Some?
        && exists name :: Served(site, found.t, target.value, name) && MayEnter(found, email, name);
      s' == if entering then s.(tokens := s.tokens[key := Token(Plain(email), target.value, expires, None)]) else s
  {
    hide Authorized, MayEnter, Naming.ExposureLabel, Lower, Strip;
    CleanIdempotent(email);
    if target.Some? {
      var named := Naming.ExposureLabel(target.value, site.domain);
      if named.Some? && Served(site, found.t, target.value, named.value) {
        MayEnterIff(found, Plain(email), named.value);
        SameEntry(found, email, named.value);
      }
    }
  }

  lemma SameEntry(found: Found, email: string, name: string)
    requires name in found.t.exposures && found.t.exposures[name].env in found.t.rows
    ensures MayEnter(found, Plain(email), name) <==> MayEnter(found, email, name)
  {
    hide Lower, Strip;
    CleanIdempotent(email);
  }

  /** `expose` hands a link to each address on the list, if the label's host reads back as a label. */
  lemma LinkIs(s: Web, site: Site, key: nat, email: string, name: string, expires: int, found: Found)
    requires key !in s.tokens
    ensures var s' := Next(s, site, Link(key, email, name, expires, found));
      var host := Lower(name + "." + site.domain);
      var listed := name in found.t.exposures && found.t.exposures[name].env in found.t.rows
        && email in found.t.exposures[name].exposure.access && Naming.ExposureLabel(host, site.domain) != None;
      s' == if listed then s.(tokens := s.tokens[key := Token(Plain(email), host, expires, None)]) else s
  {
    hide Naming.ExposureLabel, Lower, Strip;
  }

  /** The token of a link is unused, unexpired and for the host of the link's target. */
  predicate Good(s: Web, key: nat, target: Option<string>, now: int) {
    && key in s.tokens && s.tokens[key].consumed == None && now < s.tokens[key].expires
    && target == Some(s.tokens[key].host)
  }

  /** A magic link followed without interruption signs in exactly if its token is good: the token is
      used up, and a hand-off code and a sign-in cookie for its host are issued. */
  lemma MagicIs(s: Web, site: Site, p: nat, key: nat, target: Option<string>, now: int)
    ensures var s' := Next(Next(Next(s, site, Check(p, key, target, now)), site, Claim(p)), site, Answer(p, now));
      && s'.cookies == s.cookies && s'.logins == s.logins
      && if Good(s, key, target, now) then
           var token := s.tokens[key];
           && s'.tokens == s.tokens[key := token.(consumed := Some(now))]
           && s'.codes == s.codes + {Signed(Plain(token.email), token.host, now)}
           && s'.ssos == s.ssos + {Signed(token.email, token.host, now)}
         else s'.tokens == s.tokens && s'.codes == s.codes && s'.ssos == s.ssos
  {
    hide Lower, Strip;
  }

  /** The sign-in page knows a visitor by the cookie it issued for the target's host within a session,
      or else by a Django login, and hands exactly those off. */
  lemma SsoIs(s: Web, site: Site, target: Option<string>, cookie: Option<Signed>, user: Option<string>, now: int)
    ensures var s' := Next(s, site, Sso(target, cookie, user, now));
      var known := cookie.Some? && cookie.value in s.ssos && now <= cookie.value.at + site.session
        && cookie.value.email != "" && cookie.value.host != "" && target == Some(cookie.value.host);
      var logged := user.Some? && user.value in s.logins && user.value != "";
      s' == if target == None then s
        else if known then s.(codes := s.codes + {Signed(Plain(cookie.value.email), target.value, now)})
        else if logged then s.(codes := s.codes + {Signed(Plain(user.value), target.value, now)})
        else s
  {
    hide Lower, Strip;
  }

  /** A code buys a session cookie for its own host within sixty seconds, and nothing else does. */
  lemma CallbackIs(s: Web, site: Site, host: string, code: Signed, now: int)
    ensures var s' := Next(s, site, Callback(host, code, now));
      s' == if code in s.codes && code.host == host && now <= code.at + 60
        then s.(cookies := s.cookies + {Signed(code.email, host, now)}) else s
  {
  }
}
