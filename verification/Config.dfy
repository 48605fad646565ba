/** Parsing and validation of a template (config.py), from the mapping that YAML gives. */
module Config {
  import opened Wrappers
  import opened Params
  import Hooks
  import Naming
  import Ttl

  // ---- the raw document ----

  /** A parameter's entry; a null one is `Spec` with nothing set. */
  datatype RawSpec =
    | Spec(default: Option<string>, required: bool, choices: seq<string>, accepts: string -> bool)
    | NotAMapping

  predicate DistinctKeys(entries: seq<(string, RawSpec)>) {
    forall i, j :: 0 <= i < j < |entries| ==> entries[i].0 != entries[j].0
  }

  /** A mapping, in the order of its keys. */
  type Declarations = entries: seq<(string, RawSpec)> | DistinctKeys(entries) witness []

  /** `None` is a section that is not a mapping; an absent or null one is empty. */
  datatype RawTemplate = RawTemplate(
    name: Option<string>,
    params: Option<Declarations>,
    hooks: Option<map<string, string>>,
    expose: Option<seq<(string, Option<int>)>>,
    defaults: Option<set<string>>,
    ttl: Option<string>)

  datatype ConfigError =
    | MissingName | NotMapping | ShadowsBuiltin | RequiredWithDefault | InvalidDefault
    | UnknownHook | UndeclaredPlaceholder | BadExposeKey | BadPort | UnknownDefault | BadTtl

  /** Default exposures: a dictionary from key to port, and the order of its keys. */
  datatype Ports = Ports(keys: seq<string>, ports: map<string, int>)

  type Expose = e: Ports | forall k :: k in e.keys <==> k in e.ports witness Ports([], map[])

  type ParamDict = ps: seq<Param> | Distinct(ps) witness []

  datatype TemplateConfig = TemplateConfig(
    name: string,
    params: ParamDict,
    build: string,
    provision: string,
    expose: Expose,
    ttl: Option<string>)

  // ---- what a template must satisfy ----

  predicate GoodParam(entry: (string, RawSpec)) {
    var (name, spec) := entry;
    && name !in BUILTINS && spec.Spec?
    && !(spec.required && spec.default.Some?)
    && (spec.default.Some? ==> Check(ToParam(entry), spec.default.value))
  }

  function ToParam(entry: (string, RawSpec)): Param
    requires entry.1.Spec?
  {
    Param(entry.0, entry.1.default, entry.1.required, entry.1.choices, entry.1.accepts)
  }

  predicate GoodPort(entry: (string, Option<int>)) {
    && Naming.ValidateExposeKey(entry.0).Some?
    && entry.1.Some? && 0 < entry.1.value < 65536
  }

  function HookText(hooks: map<string, string>, key: string): string {
    if key in hooks then hooks[key] else ""
  }

  /** Everything `parse_template_config` insists on. */
  ghost predicate WellFormed(raw: RawTemplate) {
    && raw.name.Some?
    && raw.params.Some? && (forall i :: 0 <= i < |raw.params.value| ==> GoodParam(raw.params.value[i]))
    && raw.hooks.Some? && raw.hooks.value.Keys <= {"build", "provision"}
    && (forall hook :: hook in {"build", "provision"} ==>
         Hooks.Placeholders(HookText(raw.hooks.value, hook)) <= Declared(raw.params.value) + BUILTINS)
    && raw.expose.Some? && (forall i :: 0 <= i < |raw.expose.value| ==> GoodPort(raw.expose.value[i]))
    && raw.defaults.Some? && raw.defaults.value <= {"ttl"} && Ttl.ParseTtl(raw.ttl).Ok?
  }

  ghost function Declared(entries: seq<(string, RawSpec)>): set<string> {
    set i | 0 <= i < |entries| :: entries[i].0
  }

  /** The dictionary that the entries leave: every key validated, its last port. */
  ghost predicate IsExpose(e: Ports, entries: seq<(string, Option<int>)>) {
    && (forall i, j :: 0 <= i < j < |e.keys| ==> e.keys[i] != e.keys[j])
    && (forall k :: k in e.keys <==> k in e.ports)
    && (forall k :: (if k in e.ports then Some(e.ports[k]) else None) == Last(entries, k))
  }

  /** The port that a key is last given. */
  ghost function Last(entries: seq<(string, Option<int>)>, key: string): Option<int> {
    if entries == [] then None
    else
      var (k, port) := entries[|entries| - 1];
      if Naming.ValidateExposeKey(k) == Some(key) then port else Last(entries[..|entries| - 1], key)
  }

  /** The configuration a well-formed document stands for. */
  ghost predicate Describes(c: TemplateConfig, raw: RawTemplate)
    requires WellFormed(raw)
  {
    && c.name == raw.name.value
    && |c.params| == |raw.params.value|
    && (forall i :: 0 <= i < |c.params| ==> c.params[i] == ToParam(raw.params.value[i]))
    && c.build == HookText(raw.hooks.value, "build")
    && c.provision == HookText(raw.hooks.value, "provision")
    && IsExpose(c.expose, raw.expose.value)
    && c.ttl == raw.ttl
  }

  // ---- the parser ----

  method ParseParams(entries: Declarations) returns (r: Result<ParamDict, ConfigError>)
    ensures r.Ok? <==> forall i :: 0 <= i < |entries| ==> GoodParam(entries[i])
    ensures r.Ok? ==> |r.value| == |entries| && forall i :: 0 <= i < |entries| ==> r.value[i] == ToParam(entries[i])
  {
    var params := [];
    for n := 0 to |entries|
      invariant |params| == n
      invariant forall i :: 0 <= i < n ==> GoodParam(entries[i]) && params[i] == ToParam(entries[i])
    {
      var (name, spec) := entries[n];
      if name in BUILTINS {
        return Raise(ShadowsBuiltin);
      }
      if spec.NotAMapping? {
        return Raise(NotMapping);
      }
      var p := ToParam(entries[n]);
      if p.required && p.default.Some? {
        return Raise(RequiredWithDefault);
      }
      if p.default.Some? && !Check(p, p.default.value) {
        return Raise(InvalidDefault);
      }
      params := params + [p];
    }
    return Ok(params);
  }

  method ParseExpose(entries: seq<(string, Option<int>)>) returns (r: Result<Expose, ConfigError>)
    ensures r.Ok? <==> forall i :: 0 <= i < |entries| ==> GoodPort(entries[i])
    ensures r.Ok? ==> IsExpose(r.value, entries)
  {
    hide Naming.ValidateExposeKey, IsExpose;
    var keys: seq<string>, ports: map<string, int> := [], map[];
    NothingExposed();
    for n := 0 to |entries|
      invariant forall i :: 0 <= i < n ==> GoodPort(entries[i])
      invariant forall k :: k in keys <==> k in ports
      invariant IsExpose(Ports(keys, ports), entries[..n])
    {
      var key := Naming.ValidateExposeKey(entries[n].0);
      if key.None? {
        return Raise(BadExposeKey);
      }
      var port := entries[n].1;
      if port.None? || !(0 < port.value < 65536) {
        return Raise(BadPort);
      }
      ExposeSnoc(Ports(keys, ports), entries, n, key.value, port.value);
      if key.value !in ports {
        keys := keys + [key.value];
      }
      ports := ports[key.value := port.value];
    }
    assert entries[..|entries|] == entries;
    var expose: Expose := Ports(keys, ports);
    return Ok(expose);
  }

  lemma NothingExposed()
    ensures IsExpose(Ports([], map[]), [])
  {
  }

  lemma ExposeSnoc(e: Ports, entries: seq<(string, Option<int>)>, n: nat, key: string, port: int)
    requires n < |entries| && IsExpose(e, entries[..n])
    requires Naming.ValidateExposeKey(entries[n].0) == Some(key) && entries[n].1 == Some(port)
    ensures key in e.ports <==> key in e.keys
    ensures var keys := if key in e.ports then e.keys else e.keys + [key];
      IsExpose(Ports(keys, e.ports[key := port]), entries[..n + 1])
  {
    hide Naming.ValidateExposeKey;
    var ports := e.ports[key := port];
    assert entries[..n + 1][..n] == entries[..n] && entries[..n + 1][n] == entries[n];
    forall k ensures (if k in ports then Some(ports[k]) else None) == Last(entries[..n + 1], k) {
      assert Last(entries[..n + 1], k) == if key == k then Some(port) else Last(entries[..n], k);
    }
  }

  method CheckPlaceholders(text: string, params: seq<Param>) returns (r: Result<(), ConfigError>)
    ensures r.Ok? <==> Hooks.Placeholders(text) <= Names(params) + BUILTINS
  {
    if Hooks.Placeholders(text) - (Names(params) + BUILTINS) != {} {
      var undeclared :| undeclared in Hooks.Placeholders(text) - (Names(params) + BUILTINS);
      return Raise(UndeclaredPlaceholder);
    }
    return Ok(());
  }

  /** A document is accepted exactly when it is well formed, as what it describes. */
  method ParseTemplateConfig(raw: RawTemplate) returns (r: Result<TemplateConfig, ConfigError>)
    ensures r.Ok? <==> WellFormed(raw)
    ensures r.Ok? ==> Describes(r.value, raw)
  {
    hide Hooks.Placeholders, IsExpose, GoodPort, GoodParam, Ttl.ParseTtl, Names, Declared;
    if raw.name.None? {
      return Raise(MissingName);
    }
    if raw.params.None? {
      return Raise(NotMapping);
    }
    var params := ParseParams(raw.params.value);
    if params.Raise? {
      return Raise(params.error);
    }
    if raw.hooks.None? {
      return Raise(NotMapping);
    }
    if raw.hooks.value.Keys - {"build", "provision"} != {} {
      return Raise(UnknownHook);
    }
    DeclaredNames(raw.params.value, params.value);
    var build, provision := HookText(raw.hooks.value, "build"), HookText(raw.hooks.value, "provision");
    var checked := CheckPlaceholders(build, params.value);
    if checked.Raise? {
      return Raise(checked.error);
    }
    checked := CheckPlaceholders(provision, params.value);
    if checked.Raise? {
      return Raise(checked.error);
    }
    if raw.expose.None? {
      return Raise(NotMapping);
    }
    var expose := ParseExpose(raw.expose.value);
    if expose.Raise? {
      return Raise(expose.error);
    }
    if raw.defaults.None? {
      return Raise(NotMapping);
    }
    if raw.defaults.value - {"ttl"} != {} {
      return Raise(UnknownDefault);
    }
    if !Ttl.ParseTtl(raw.ttl).Ok? {
      return Raise(BadTtl);
    }
    return Ok(TemplateConfig(raw.name.value, params.value, build, provision, expose.value, raw.ttl));
  }

  lemma DeclaredNames(entries: seq<(string, RawSpec)>, params: seq<Param>)
    requires |params| == |entries| && forall i :: 0 <= i < |entries| ==> params[i].name == entries[i].0
    ensures Names(params) == Declared(entries)
  {
  }

  // ---- what an accepted template can do ----

  /** What a hook sees: the daemon's builtins and the resolved arguments. */
  function HookValues(id: string, template: string, args: map<string, string>): map<string, string> {
    map["id" := id, "template" := template] + args
  }

  lemma HookKeys(id: string, template: string, args: map<string, string>)
    ensures HookValues(id, template, args).Keys == args.Keys + BUILTINS
  {
  }

  /** Among the names is a declared parameter that is optional, has no default and was not given. */
  ghost predicate NamesOmitted(names: set<string>, params: seq<Param>, supplied: map<string, string>) {
    exists i :: 0 <= i < |params| && params[i].name in names
                && !params[i].required && params[i].default.None? && params[i].name !in supplied
  }

  /** For a template the parser accepts and arguments `resolve` accepts, rendering the hook
      fails exactly when it names an omitted optional parameter. */
  lemma ProvisionFailsIff(raw: RawTemplate, c: TemplateConfig, supplied: map<string, string>, args: map<string, string>,
                          id: string)
    ensures WellFormed(raw) && Describes(c, raw) && Resolve(c.params, supplied) == Some(args) ==>
      (Hooks.Render(c.provision, HookValues(id, c.name, args)).None? <==>
       NamesOmitted(Hooks.Placeholders(c.provision), c.params, supplied))
  {
    hide WellFormed, Describes, Hooks.Render, Hooks.Placeholders, Resolve, Resolves, NamesOmitted, HookValues;
    if WellFormed(raw) && Describes(c, raw) && Resolve(c.params, supplied) == Some(args) {
      AcceptedProvision(raw, c);
      ResolveIff(c.params, supplied, args);
      RenderFailsIff(c.provision, HookValues(id, c.name, args));
      UnsuppliedIff(Hooks.Placeholders(c.provision), c.params, supplied, args);
      HookKeys(id, c.name, args);
    }
  }

  /** An accepted template's provision hook names declared parameters and builtins only, and
      no parameter shadows a builtin. */
  lemma AcceptedProvision(raw: RawTemplate, c: TemplateConfig)
    requires WellFormed(raw) && Describes(c, raw)
    ensures Hooks.Placeholders(c.provision) <= Names(c.params) + BUILTINS
    ensures forall i :: 0 <= i < |c.params| ==> c.params[i].name !in BUILTINS
  {
  }

  lemma UnsuppliedIff(names: set<string>, params: seq<Param>, supplied: map<string, string>, args: map<string, string>)
    requires Resolves(params, supplied, args) && names <= Names(params) + BUILTINS
    requires forall i :: 0 <= i < |params| ==> params[i].name !in BUILTINS
    ensures !(names <= args.Keys + BUILTINS) <==> NamesOmitted(names, params, supplied)
  {
    if name :| name in names && name !in args.Keys + BUILTINS {
      var i :| 0 <= i < |params| && params[i].name == name;
      OmittedIff(params, supplied, args, i);
    }
    if NamesOmitted(names, params, supplied) {
      var i :| 0 <= i < |params| && params[i].name in names
               && !params[i].required && params[i].default.None? && params[i].name !in supplied;
      OmittedIff(params, supplied, args, i);
    }
  }

  lemma OmittedIff(params: seq<Param>, supplied: map<string, string>, args: map<string, string>, i: nat)
    requires Resolves(params, supplied, args) && i < |params|
    ensures params[i].name !in args
      <==> (!params[i].required && params[i].default.None? && params[i].name !in supplied)
  {
  }

  lemma RenderFailsIff(hook: string, values: map<string, string>)
    ensures Hooks.Render(hook, values).None? <==> !(Hooks.Placeholders(hook) <= values.Keys)
  {
    if Hooks.Blank(hook) {
      Hooks.BlankHasNoPlaceholders(hook);
    } else {
      Hooks.ScanIff(hook, Hooks.Scan(hook, 0));
      Hooks.RenderIff(hook, values, Hooks.Scan(hook, 0));
    }
  }

  /** Every parameter that the provision hook names is required or has a default. */
  ghost predicate NamesCertain(c: TemplateConfig) {
    forall i :: 0 <= i < |c.params| && c.params[i].name in Hooks.Placeholders(c.provision) ==>
      c.params[i].required || c.params[i].default.Some?
  }

  /** If every parameter the hook names is required or has a default, it always renders. */
  lemma ProvisionNeverFails(raw: RawTemplate, c: TemplateConfig, supplied: map<string, string>,
                            args: map<string, string>, id: string)
    ensures WellFormed(raw) && Describes(c, raw) && Resolve(c.params, supplied) == Some(args) && NamesCertain(c) ==>
      Hooks.Render(c.provision, HookValues(id, c.name, args)).Some?
  {
    hide WellFormed, Describes, Hooks.Render, Hooks.Placeholders, Resolve, HookValues;
    ProvisionFailsIff(raw, c, supplied, args, id);
  }
}
