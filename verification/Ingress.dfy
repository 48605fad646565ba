/** The Traefik route files (ingress.py): one document per environment, rendered from its
    exposures and address. */
module Ingress {
  import opened Wrappers
  import opened Model
  import opened Strings
  import Naming

  datatype Rule = Host(host: string) | HostAndPath(host: string, prefix: string)

  datatype Router = Router(rule: Rule, service: string, middlewares: seq<string>, priority: Option<int>)

  /** A service sends requests to an address and port. */
  datatype RouteDoc = RouteDoc(routers: map<string, Router>, services: map<string, (string, int)>)

  const FORWARD_AUTH := "cawl-auth"
  const DAEMON := "cawl-daemon"
  const DAEMON_PREFIX := "/.cawl/"

  /** The router of the auth host in the shared file. */
  const AUTH_ROUTER := "cawl-auth-host"

  function Key(id: string, name: string): string { id + "-" + name }

  function HandoffKey(id: string, name: string): string { Key(id, name) + "-cawl" }

  function AppRouter(domain: string, id: string, name: string): Router {
    Router(Host(Naming.ExposureHost(name, domain)), Key(id, name), [FORWARD_AUTH], None)
  }

  function HandoffRouter(domain: string, name: string): Router {
    Router(HostAndPath(Naming.ExposureHost(name, domain), DAEMON_PREFIX), DAEMON, [], Some(1000))
  }

  lemma KeyInjective(id: string, a: string, b: string)
    ensures Key(id, a) == Key(id, b) ==> a == b
    ensures HandoffKey(id, a) == Key(id, b) <==> b == a + "-cawl"
    ensures HandoffKey(id, a) == HandoffKey(id, b) ==> a == b
  {
    assert Key(id, a)[|id| + 1..] == a && Key(id, b)[|id| + 1..] == b;
    assert HandoffKey(id, a)[|id| + 1..] == a + "-cawl" && HandoffKey(id, b)[|id| + 1..] == b + "-cawl";
    assert (a + "-cawl")[..|a|] == a && (b + "-cawl")[..|b|] == b;
    assert HandoffKey(id, a) == Key(id, a + "-cawl");
  }

  ghost function Handoffs(domain: string, id: string, names: set<string>): map<string, Router> {
    assert forall a, b :: HandoffKey(id, a) == HandoffKey(id, b) ==> a == b by {
      forall a, b ensures HandoffKey(id, a) == HandoffKey(id, b) ==> a == b { KeyInjective(id, a, b); }
    }
    map n | n in names :: HandoffKey(id, n) := HandoffRouter(domain, n)
  }

  ghost function Apps(domain: string, id: string, names: set<string>): map<string, Router> {
    assert forall a, b :: Key(id, a) == Key(id, b) ==> a == b by {
      forall a, b ensures Key(id, a) == Key(id, b) ==> a == b { KeyInjective(id, a, b); }
    }
    map n | n in names :: Key(id, n) := AppRouter(domain, id, n)
  }

  ghost function Services(id: string, exposures: map<string, Exposure>, names: set<string>, ip: string)
    : map<string, (string, int)>
    requires names <= exposures.Keys
  {
    assert forall a, b :: Key(id, a) == Key(id, b) ==> a == b by {
      forall a, b ensures Key(id, a) == Key(id, b) ==> a == b { KeyInjective(id, a, b); }
    }
    map n | n in names :: Key(id, n) := (ip, exposures[n].port)
  }

  /** What the document says, whatever order it is filled in: a handoff router for every
      exposure, an app router over any handoff of the same key, and a service each. */
  ghost function Render(domain: string, id: string, exposures: map<string, Exposure>, ip: string): RouteDoc {
    RouteDoc(Handoffs(domain, id, exposures.Keys) + Apps(domain, id, exposures.Keys),
             Services(id, exposures, exposures.Keys, ip))
  }

  lemma HandoffAt(domain: string, id: string, names: set<string>, n: string)
    ensures HandoffKey(id, n) in Handoffs(domain, id, names) <==> n in names
    ensures n in names ==> Handoffs(domain, id, names)[HandoffKey(id, n)] == HandoffRouter(domain, n)
  {
    var handoffs := Handoffs(domain, id, names);
    if HandoffKey(id, n) in handoffs {
      var m :| m in names && HandoffKey(id, m) == HandoffKey(id, n)
               && handoffs[HandoffKey(id, m)] == HandoffRouter(domain, m);
      KeyInjective(id, m, n);
    }
  }

  lemma AppAt(domain: string, id: string, names: set<string>, n: string)
    ensures Key(id, n) in Apps(domain, id, names) <==> n in names
    ensures n in names ==> Apps(domain, id, names)[Key(id, n)] == AppRouter(domain, id, n)
  {
    var apps := Apps(domain, id, names);
    if Key(id, n) in apps {
      var m :| m in names && Key(id, m) == Key(id, n) && apps[Key(id, m)] == AppRouter(domain, id, m);
      KeyInjective(id, m, n);
    }
  }

  lemma ServiceAt(id: string, exposures: map<string, Exposure>, names: set<string>, ip: string, n: string)
    requires names <= exposures.Keys
    ensures Key(id, n) in Services(id, exposures, names, ip) <==> n in names
    ensures n in names ==> Services(id, exposures, names, ip)[Key(id, n)] == (ip, exposures[n].port)
  {
    var services := Services(id, exposures, names, ip);
    if Key(id, n) in services {
      var m :| m in names && Key(id, m) == Key(id, n) && services[Key(id, m)] == (ip, exposures[m].port);
      KeyInjective(id, m, n);
    }
  }

  // ---- what the documents promise ----

  /** The environment `cawl` exposing `daemon` takes the name of the daemon's service. */
  predicate Shadows(id: string, exposures: map<string, Exposure>) {
    id == "cawl" && "daemon" in exposures
  }

  lemma KeyIsDaemon(id: string, n: string)
    ensures Key(id, n) == DAEMON <==> id == "cawl" && n == "daemon"
  {
    var k := Key(id, n);
    assert k[|id|] == '-' && k[..|id|] == id && k[|id| + 1..] == n;
    assert DAEMON[..4] == "cawl" && DAEMON[5..] == "daemon" && "cawl" + "-" + "daemon" == DAEMON;
    if k == DAEMON {
      assert forall i :: 0 <= i < |DAEMON| && i != 4 ==> DAEMON[i] != '-';
    }
  }

  /** Who answers for the daemon's service name in an environment's own document. */
  lemma DaemonShadowedIff(domain: string, id: string, exposures: map<string, Exposure>, ip: string)
    ensures var doc := Render(domain, id, exposures, ip);
      && (DAEMON in doc.services <==> Shadows(id, exposures))
      && (Shadows(id, exposures) ==> doc.services[DAEMON] == (ip, exposures["daemon"].port))
  {
    KeyIsDaemon(id, "daemon");
    ServiceAt(id, exposures, exposures.Keys, ip, "daemon");
    if DAEMON in Render(domain, id, exposures, ip).services {
      var n :| n in exposures && Key(id, n) == DAEMON;
      KeyIsDaemon(id, n);
    }
  }

  /** Every router of a rendered file either demands forward-auth and leads to the environment's
      own service, or answers only the daemon's path under the name of the daemon's service, which
      the file does not define itself unless the environment shadows it. */
  lemma EveryRouterIsGated(domain: string, id: string, exposures: map<string, Exposure>, ip: string, key: string)
    requires key in Render(domain, id, exposures, ip).routers
    ensures var doc := Render(domain, id, exposures, ip);
      var r := doc.routers[key];
      || (r.rule.Host? && r.middlewares == ["cawl-auth"] && r.service == key && key in doc.services
          && doc.services[key].0 == ip && r.priority == None)
      || (r.rule.HostAndPath? && r.rule.prefix == "/.cawl/" && r.service == "cawl-daemon" && r.priority == Some(1000)
          && (DAEMON in doc.services <==> Shadows(id, exposures)))
  {
    DaemonShadowedIff(domain, id, exposures, ip);
  }

  function Longer(names: set<string>, n: string): set<string> {
    set k | k in names && |k| > |n|
  }

  /** Some exposed label has its hand-off label unexposed, its longest for one. */
  lemma {:induction false} Unfollowed(names: set<string>, n: string) returns (m: string)
    requires n in names
    ensures m in names && m + "-cawl" !in names
    decreases Longer(names, n)
  {
    var next := n + "-cawl";
    if next in names {
      assert next in Longer(names, n) && next !in Longer(names, next);
      m := Unfollowed(names, next);
    } else {
      m := n;
    }
  }

  /** Fail-closed: a document holds a router without forward-auth to a service of its own exactly
      when the environment shadows the daemon. */
  lemma FailClosedIff(domain: string, id: string, exposures: map<string, Exposure>, ip: string)
    ensures var doc := Render(domain, id, exposures, ip);
      (exists key :: key in doc.routers && doc.routers[key].middlewares == []
                     && doc.routers[key].service in doc.services)
      <==> Shadows(id, exposures)
  {
    hide Handoffs, Apps, Services;
    var doc := Render(domain, id, exposures, ip);
    DaemonShadowedIff(domain, id, exposures, ip);
    if key :| key in doc.routers && doc.routers[key].middlewares == [] && doc.routers[key].service in doc.services {
      var n := UngatedKey(domain, id, exposures, ip, key);
      assert doc.routers[key].service == DAEMON;
    }
    if Shadows(id, exposures) {
      var n := Unfollowed(exposures.Keys, "daemon");
      HandoffStandsIff(domain, id, exposures, ip, n);
    }
  }

  /** A router without forward-auth is the hand-off router of a label that nothing shadows. */
  lemma UngatedKey(domain: string, id: string, exposures: map<string, Exposure>, ip: string, key: string)
    returns (n: string)
    requires key in Render(domain, id, exposures, ip).routers
    requires Render(domain, id, exposures, ip).routers[key].middlewares == []
    ensures n in exposures && n + "-cawl" !in exposures
    ensures Render(domain, id, exposures, ip).routers[key] == HandoffRouter(domain, n)
  {
    var names := exposures.Keys;
    assert key !in Apps(domain, id, names);
    n :| n in names && key == HandoffKey(id, n);
    HandoffAt(domain, id, names, n);
    KeyInjective(id, n, n + "-cawl");
    AppAt(domain, id, names, n + "-cawl");
  }

  /** The hosts routed to the environment behind forward-auth are exactly the exposed ones, each to
      its own port; without forward-auth, on the daemon's path, they are the exposed hosts whose
      hand-off label is not exposed, if the environment shadows the daemon, and none otherwise. */
  lemma HostRoutedIff(domain: string, id: string, exposures: map<string, Exposure>, ip: string, host: string, port: int)
    ensures var doc := Render(domain, id, exposures, ip);
      (exists key :: key in doc.routers && key in doc.services && doc.routers[key].rule == Host(host)
                     && doc.routers[key].service == key && doc.services[key] == (ip, port))
      <==> (exists n :: n in exposures && Naming.ExposureHost(n, domain) == host && exposures[n].port == port)
    ensures var doc := Render(domain, id, exposures, ip);
      (exists key :: key in doc.routers && doc.routers[key].rule == HostAndPath(host, DAEMON_PREFIX)
                     && doc.routers[key].service in doc.services)
      <==> Shadows(id, exposures)
           && exists n :: n in exposures && Naming.ExposureHost(n, domain) == host && n + "-cawl" !in exposures
  {
    HostGatedIff(domain, id, exposures, ip, host, port);
    HostUngatedIff(domain, id, exposures, ip, host);
  }

  lemma HostGatedIff(domain: string, id: string, exposures: map<string, Exposure>, ip: string, host: string, port: int)
    ensures var doc := Render(domain, id, exposures, ip);
      (exists key :: key in doc.routers && key in doc.services && doc.routers[key].rule == Host(host)
                     && doc.routers[key].service == key && doc.services[key] == (ip, port))
      <==> (exists n :: n in exposures && Naming.ExposureHost(n, domain) == host && exposures[n].port == port)
  {
    var doc := Render(domain, id, exposures, ip);
    if n :| n in exposures && Naming.ExposureHost(n, domain) == host && exposures[n].port == port {
      AppAt(domain, id, exposures.Keys, n);
      ServiceAt(id, exposures, exposures.Keys, ip, n);
      assert doc.routers[Key(id, n)] == AppRouter(domain, id, n);
    }
    if key :| key in doc.routers && key in doc.services && doc.routers[key].rule == Host(host)
              && doc.routers[key].service == key && doc.services[key] == (ip, port) {
      var n :| n in exposures && Key(id, n) == key;
      AppAt(domain, id, exposures.Keys, n);
      ServiceAt(id, exposures, exposures.Keys, ip, n);
    }
  }

  lemma HostUngatedIff(domain: string, id: string, exposures: map<string, Exposure>, ip: string, host: string)
    ensures var doc := Render(domain, id, exposures, ip);
      (exists key :: key in doc.routers && doc.routers[key].rule == HostAndPath(host, DAEMON_PREFIX)
                     && doc.routers[key].service in doc.services)
      <==> Shadows(id, exposures)
           && exists n :: n in exposures && Naming.ExposureHost(n, domain) == host && n + "-cawl" !in exposures
  {
    hide Handoffs, Apps, Services;
    var doc := Render(domain, id, exposures, ip);
    DaemonShadowedIff(domain, id, exposures, ip);
    if key :| key in doc.routers && doc.routers[key].rule == HostAndPath(host, DAEMON_PREFIX)
              && doc.routers[key].service in doc.services {
      EveryRouterIsGated(domain, id, exposures, ip, key);
      PathMeansUngated(domain, id, exposures, ip, key);
      var n := UngatedKey(domain, id, exposures, ip, key);
      assert Naming.ExposureHost(n, domain) == host;
    }
    if n :| n in exposures && Naming.ExposureHost(n, domain) == host && n + "-cawl" !in exposures {
      HandoffStandsIff(domain, id, exposures, ip, n);
    }
  }

  lemma PathMeansUngated(domain: string, id: string, exposures: map<string, Exposure>, ip: string, key: string)
    requires key in Render(domain, id, exposures, ip).routers
    ensures Render(domain, id, exposures, ip).routers[key].rule.HostAndPath?
      <==> Render(domain, id, exposures, ip).routers[key].middlewares == []
  {
  }

  /** A label's hand-off router is in the document exactly when the environment does not also
      expose `<name>-cawl`, whose app router takes its key. */
  lemma HandoffStandsIff(domain: string, id: string, exposures: map<string, Exposure>, ip: string, n: string)
    requires n in exposures
    ensures var doc := Render(domain, id, exposures, ip);
      (exists key :: key in doc.routers && doc.routers[key] == HandoffRouter(domain, n))
      <==> n + "-cawl" !in exposures
  {
    var doc := Render(domain, id, exposures, ip);
    var names := exposures.Keys;
    KeyInjective(id, n, n + "-cawl");
    HandoffAt(domain, id, names, n);
    AppAt(domain, id, names, n + "-cawl");
    if key :| key in doc.routers && doc.routers[key] == HandoffRouter(domain, n) {
      var m :| m in names && key == HandoffKey(id, m) && key !in Apps(domain, id, names);
      HandoffAt(domain, id, names, m);
      SameHost(domain, m, n);
    }
  }

  /** An exposed host has its login path routed to the daemon, by a service that the document leaves
      to the shared file, exactly when the environment neither exposes `<name>-cawl` nor shadows
      the daemon. */
  lemma HandoffRoutedIff(domain: string, id: string, exposures: map<string, Exposure>, ip: string, n: string)
    requires n in exposures
    ensures var doc := Render(domain, id, exposures, ip);
      (exists key :: key in doc.routers && doc.routers[key] == HandoffRouter(domain, n)
                     && doc.routers[key].service !in doc.services)
      <==> n + "-cawl" !in exposures && !Shadows(id, exposures)
  {
    HandoffStandsIff(domain, id, exposures, ip, n);
    DaemonShadowedIff(domain, id, exposures, ip);
  }

  /** An id and a label that every check accepts: the one document that holds them leads the
      daemon's path to the environment's own port, without forward-auth. */
  lemma DaemonShadowed(domain: string, e: Exposure, ip: string)
    ensures Naming.ValidateName("cawl") == Some("cawl") && Naming.ValidateExposureLabel("daemon") == Some("daemon")
    ensures var doc := Render(domain, "cawl", map["daemon" := e], ip);
      exists key :: key in doc.routers && doc.routers[key] == HandoffRouter(domain, "daemon")
                    && doc.routers[key].middlewares == [] && doc.routers[key].service in doc.services
                    && doc.services[doc.routers[key].service] == (ip, e.port)
  {
    hide Render, Naming.ValidateName, Naming.ValidateExposureLabel;
    ValidNames();
    HandoffStandsIff(domain, "cawl", map["daemon" := e], ip, "daemon");
    DaemonShadowedIff(domain, "cawl", map["daemon" := e], ip);
  }

  lemma ValidNames()
    ensures Naming.ValidateName("cawl") == Some("cawl") && Naming.ValidateExposureLabel("daemon") == Some("daemon")
  {
    hide Strip, Lower, Naming.Dollar;
    Naming.SlugIsClean("cawl");
    Naming.SlugIsClean("daemon");
  }

  lemma SameHost(domain: string, a: string, b: string)
    requires Naming.ExposureHost(a, domain) == Naming.ExposureHost(b, domain)
    ensures a == b
  {
    var x, y := Naming.ExposureHost(a, domain), Naming.ExposureHost(b, domain);
    assert |x| == |a| + 1 + |domain| && |y| == |b| + 1 + |domain|;
    assert x[..|a|] == a && y[..|b|] == b;
  }

  // ---- two documents ----

  /** What the router keys of a document end in. */
  ghost function RouterNames(exposures: map<string, Exposure>): set<string> {
    exposures.Keys + set n | n in exposures :: n + "-cawl"
  }

  lemma RouterKeys(domain: string, id: string, exposures: map<string, Exposure>, ip: string, key: string)
    ensures key in Render(domain, id, exposures, ip).routers <==>
      exists n :: n in RouterNames(exposures) && key == Key(id, n)
  {
    var names := exposures.Keys;
    if n :| n in RouterNames(exposures) && key == Key(id, n) {
      if n in exposures {
        AppAt(domain, id, names, n);
      } else {
        var m :| m in exposures && n == m + "-cawl";
        HandoffAt(domain, id, names, m);
        KeyInjective(id, m, n);
      }
    }
    if key in Handoffs(domain, id, names) {
      var m :| m in names && key == HandoffKey(id, m);
      KeyInjective(id, m, m + "-cawl");
      assert m + "-cawl" in RouterNames(exposures);
    }
  }

  /** One id continues the other by what the other's label starts with. */
  ghost predicate Continues(id: string, a: string, id': string, b: string) {
    exists m :: id' == id + "-" + m && a == m + "-" + b
  }

  lemma KeySplit(id: string, a: string, id': string, b: string)
    requires Key(id, a) == Key(id', b) && |id| < |id'|
    ensures Continues(id, a, id', b)
  {
    var k := Key(id, a);
    var m := id'[|id| + 1..];
    assert k[..|id'|] == id' && k[|id'| + 1..] == b && k[|id'|] == '-';
    assert k[..|id|] == id && k[|id| + 1..] == a && k[|id|] == '-';
    assert id'[..|id|] == k[..|id|] && id'[|id|] == k[|id|];
    assert a == k[|id| + 1..|id'|] + k[|id'|..];
    assert id' == id + "-" + m && a == m + "-" + b;
  }

  /** Keys are distinct within one environment, but not across: those of two environments are the
      same exactly when one id continues the other by a piece that ends in a dash in the label. */
  lemma SameKeyIff(id: string, a: string, id': string, b: string)
    requires id != id'
    ensures Key(id, a) == Key(id', b) <==> Continues(id, a, id', b) || Continues(id', b, id, a)
  {
    assert Key(id, a)[..|id|] == id && Key(id', b)[..|id'|] == id';
    if Key(id, a) == Key(id', b) {
      if |id| < |id'| {
        KeySplit(id, a, id', b);
      } else if |id'| < |id| {
        KeySplit(id', b, id, a);
      }
    }
    if m :| id' == id + "-" + m && a == m + "-" + b {
      assert Key(id, a) == Key(id', b);
    }
    if m :| id == id' + "-" + m && b == m + "-" + a {
      assert Key(id, a) == Key(id', b);
    }
  }

  /** So the files of two environments name a router alike exactly when such a pair of labels is
      exposed, hand-off labels included. */
  lemma DocumentsShareIff(domain: string, id: string, e: map<string, Exposure>, ip: string,
                          id': string, e': map<string, Exposure>, ip': string)
    requires id != id'
    ensures (exists key :: key in Render(domain, id, e, ip).routers && key in Render(domain, id', e', ip').routers) <==>
      exists a, b :: a in RouterNames(e) && b in RouterNames(e')
                     && (Continues(id, a, id', b) || Continues(id', b, id, a))
  {
    hide Render, RouterNames, Continues, Key;
    if key :| key in Render(domain, id, e, ip).routers && key in Render(domain, id', e', ip').routers {
      RouterKeys(domain, id, e, ip, key);
      RouterKeys(domain, id', e', ip', key);
      var a :| a in RouterNames(e) && key == Key(id, a);
      var b :| b in RouterNames(e') && key == Key(id', b);
      SameKeyIff(id, a, id', b);
    }
    if a, b :| a in RouterNames(e) && b in RouterNames(e') && (Continues(id, a, id', b) || Continues(id', b, id, a)) {
      SameKeyIff(id, a, id', b);
      RouterKeys(domain, id, e, ip, Key(id, a));
      RouterKeys(domain, id', e', ip', Key(id, a));
    }
  }

  lemma KeyIsAuthRouter(id: string, n: string)
    ensures Key(id, n) == AUTH_ROUTER <==> (id == "cawl" && n == "auth-host") || (id == "cawl-auth" && n == "host")
  {
    var k := Key(id, n);
    assert k[|id|] == '-' && k[..|id|] == id && k[|id| + 1..] == n;
    assert AUTH_ROUTER[..4] == "cawl" && AUTH_ROUTER[5..] == "auth-host" && "cawl" + "-" + "auth-host" == AUTH_ROUTER;
    assert AUTH_ROUTER[..9] == "cawl-auth" && AUTH_ROUTER[10..] == "host" && "cawl-auth" + "-" + "host" == AUTH_ROUTER;
    if k == AUTH_ROUTER {
      assert forall i :: 0 <= i < |AUTH_ROUTER| && i != 4 && i != 9 ==> AUTH_ROUTER[i] != '-';
    }
  }

  /** An environment's file takes a name of the shared file, that of the daemon's service or of the
      auth host's router, exactly when its id and a label split that name at a dash. */
  lemma SharedNamesIff(domain: string, id: string, exposures: map<string, Exposure>, ip: string)
    ensures var doc := Render(domain, id, exposures, ip);
      && (DAEMON in doc.services <==> Shadows(id, exposures))
      && (AUTH_ROUTER in doc.routers <==>
          (id == "cawl" && "auth-host" in exposures) || (id == "cawl-auth" && "host" in exposures))
  {
    DaemonShadowedIff(domain, id, exposures, ip);
    RouterKeys(domain, id, exposures, ip, AUTH_ROUTER);
    KeyIsAuthRouter(id, "auth-host");
    KeyIsAuthRouter(id, "host");
    if n :| n in RouterNames(exposures) && AUTH_ROUTER == Key(id, n) {
      KeyIsAuthRouter(id, n);
      assert forall m: string :: (m + "-cawl")[|m + "-cawl"| - 1] == 'l';
      assert n in exposures;
    }
  }

  /** Two ids and labels that every check accepts, and one router key. */
  lemma KeysCollide()
    ensures Naming.NameShape("aa") && Naming.NameShape("aa-bb")
    ensures Naming.LabelShape("bb-cc") && Naming.LabelShape("cc")
    ensures Key("aa", "bb-cc") == Key("aa-bb", "cc")
  {
    assert "aa-bb" == "aa" + "-" + "bb" && "bb-cc" == "bb" + "-" + "cc";
    assert Continues("aa", "bb-cc", "aa-bb", "cc");
    SameKeyIff("aa", "bb-cc", "aa-bb", "cc");
  }

  // ---- the ingress ----

  predicate HasAddress(inst: Environment) {
    inst.ip.Some? && inst.ip.value != ""
  }

  /** `sync`: no exposures, or no address, means no file. */
  ghost function Synced(domain: string, files: map<string, RouteDoc>, inst: Environment): map<string, RouteDoc> {
    if inst.exposures == map[] || !HasAddress(inst) then files - {inst.id}
    else files[inst.id := Render(domain, inst.id, inst.exposures, inst.ip.value)]
  }

  class TraefikIngress {
    const domain: string
    var files: map<string, RouteDoc>

    constructor (domain: string)
      ensures this.domain == domain && files == map[]
    {
      this.domain := domain;
      files := map[];
    }

    /** `works` is whether the file system lets the operation through; a failure leaves the
        published file as it was, for the new one is renamed into place. */
    method Sync(inst: Environment, works: bool) returns (ok: bool)
      modifies this
      ensures ok == works && files == if works then Synced(domain, old(files), inst) else old(files)
    {
      if inst.exposures == map[] || !HasAddress(inst) {
        ok := Deregister(inst.id, works);
        return;
      }
      if !works {
        return false;
      }
      var doc := RenderRoutes(inst.id, inst.exposures, inst.ip.value);
      files := files[inst.id := doc];
      return true;
    }

    method Deregister(id: string, works: bool) returns (ok: bool)
      modifies this
      ensures ok == works && files == if works then old(files) - {id} else old(files)
    {
      if works {
        files := files - {id};
      }
      return works;
    }

    /** Fill in the document exposure by exposure, in order of their names. */
    method RenderRoutes(id: string, exposures: map<string, Exposure>, ip: string) returns (doc: RouteDoc)
      ensures doc == Render(domain, id, exposures, ip)
    {
      hide Handoffs, Apps, Services, Le;
      var routers: map<string, Router> := map[];
      var services: map<string, (string, int)> := map[];
      var rest := exposures.Keys;
      ghost var done: set<string> := {};
      NothingRendered(domain, id, exposures, ip);
      while rest != {}
        invariant rest <= exposures.Keys && done == exposures.Keys - rest
        invariant forall a, b :: a in done && b in rest ==> Le(a, b)
        invariant routers == Handoffs(domain, id, done) + Apps(domain, id, done)
        invariant services == Services(id, exposures, done, ip)
        decreases rest
      {
        LeastName(rest);
        var name :| name in rest && forall k :: k in rest ==> Le(name, k);
        RoutersSnoc(domain, id, done, name);
        ServicesSnoc(id, exposures, done, name, ip);
        routers := routers[Key(id, name) := AppRouter(domain, id, name)];
        routers := routers[HandoffKey(id, name) := HandoffRouter(domain, name)];
        services := services[Key(id, name) := (ip, exposures[name].port)];
        rest := rest - {name};
        done := done + {name};
      }
      assert done == exposures.Keys;
      return RouteDoc(routers, services);
    }
  }

  lemma NothingRendered(domain: string, id: string, exposures: map<string, Exposure>, ip: string)
    ensures Handoffs(domain, id, {}) + Apps(domain, id, {}) == map[]
    ensures Services(id, exposures, {}, ip) == map[]
  {
  }

  lemma LeastName(names: set<string>)
    requires names != {}
    ensures exists m :: m in names && forall k :: k in names ==> Le(m, k)
  {
    LeIsTotalPreorder();
    LeastExists(names, Le);
  }

  /** The next exposure's handoff key cannot belong to one already rendered: that one would
      be longer, and so come later. */
  lemma RoutersSnoc(domain: string, id: string, done: set<string>, name: string)
    requires name !in done && forall a :: a in done ==> Le(a, name)
    ensures Handoffs(domain, id, done + {name}) + Apps(domain, id, done + {name})
      == (Handoffs(domain, id, done) + Apps(domain, id, done))
           [Key(id, name) := AppRouter(domain, id, name)][HandoffKey(id, name) := HandoffRouter(domain, name)]
  {
    hide Handoffs, Apps;
    HandoffsSnoc(domain, id, done, name);
    AppsSnoc(domain, id, done, name);
    KeyInjective(id, name, name);
    KeyInjective(id, name, name + "-cawl");
    AppAt(domain, id, done, name + "-cawl");
    PrefixFirst(name, "-cawl");
    assert |name + "-cawl"| != |name|;
    if name + "-cawl" in done {
      LeAntisymmetric(name, name + "-cawl");
      assert false;
    }
  }

  lemma HandoffsSnoc(domain: string, id: string, done: set<string>, name: string)
    ensures Handoffs(domain, id, done + {name})
      == Handoffs(domain, id, done)[HandoffKey(id, name) := HandoffRouter(domain, name)]
  {
    var a := Handoffs(domain, id, done + {name});
    var b := Handoffs(domain, id, done)[HandoffKey(id, name) := HandoffRouter(domain, name)];
    HandoffAt(domain, id, done + {name}, name);
    forall k | k in a || k in b ensures k in a && k in b && a[k] == b[k] {
      var n :| n in done + {name} && k == HandoffKey(id, n);
      HandoffAt(domain, id, done + {name}, n);
      HandoffAt(domain, id, done, n);
    }
  }

  lemma AppsSnoc(domain: string, id: string, done: set<string>, name: string)
    ensures Apps(domain, id, done + {name}) == Apps(domain, id, done)[Key(id, name) := AppRouter(domain, id, name)]
  {
    var a, b := Apps(domain, id, done + {name}), Apps(domain, id, done)[Key(id, name) := AppRouter(domain, id, name)];
    AppAt(domain, id, done + {name}, name);
    forall k | k in a || k in b ensures k in a && k in b && a[k] == b[k] {
      var n :| n in done + {name} && k == Key(id, n);
      AppAt(domain, id, done + {name}, n);
      AppAt(domain, id, done, n);
    }
  }

  lemma ServicesSnoc(id: string, exposures: map<string, Exposure>, done: set<string>, name: string, ip: string)
    requires done + {name} <= exposures.Keys
    ensures Services(id, exposures, done + {name}, ip)
      == Services(id, exposures, done, ip)[Key(id, name) := (ip, exposures[name].port)]
  {
    var a := Services(id, exposures, done + {name}, ip);
    var b := Services(id, exposures, done, ip)[Key(id, name) := (ip, exposures[name].port)];
    ServiceAt(id, exposures, done + {name}, ip, name);
    forall k | k in a || k in b ensures k in a && k in b && a[k] == b[k] {
      var n :| n in done + {name} && k == Key(id, n);
      ServiceAt(id, exposures, done + {name}, ip, n);
      ServiceAt(id, exposures, done, ip, n);
    }
  }
}
