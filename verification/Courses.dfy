/** What an `up` will do, read off the request and the store before it does it: which
    environment it hands back or reserves, and whether it will abandon what it reserves. */
module Courses {
  import opened Wrappers
  import opened Model
  import opened Tables
  import opened Params
  import opened Config
  import opened Control
  import opened Frames
  import Fence
  import Hooks
  import Naming
  import StateStore
  import Ttl

  // ---- the course ----

  /** An `up` hands back a row as it is, to its owner or, asked for by name, to whoever may view it. */
  lemma HandedBack(cfg: Settings, t: Tables, actor: Principal, req: UpRequest)
    ensures var course := CourseOf(cfg, t, actor, req);
      course.HandBack? ==>
        && course.inst.id in t.rows && course.inst == ToEnvironment(t, course.inst.id)
        && req.reuse
        && (IsOwner(actor, course.inst)
            || (CanView(actor, course.inst) && req.name.Some?
                && Naming.ValidateName(req.name.value) == Some(course.inst.id)))
  {
    hide LabelFree, Resolve, GrantsOf, ExposuresOf, Naming.ValidateName, StateStore.NewerFirst;
  }

  /** It makes an environment of the resolved arguments. */
  lemma MadeOf(cfg: Settings, t: Tables, actor: Principal, req: UpRequest)
    requires CourseOf(cfg, t, actor, req).Make?
    ensures var key := CourseOf(cfg, t, actor, req).key;
      Resolve(req.template.params, req.args) == Some(key.args) && key.template == req.template.name
  {
    hide LabelFree, Resolve, GrantsOf, ExposuresOf, Naming.ValidateName, StateStore.Latest, CanView;
  }

  lemma RefusedBeforeSpec(cfg: Settings, t: Tables, actor: Principal, req: UpRequest)
    requires CourseOf(cfg, t, actor, req).Refuse?
    ensures CourseOf(cfg, t, actor, req).error != SpecFailed
  {
    hide LabelFree, Resolve, GrantsOf, ExposuresOf, Naming.ValidateName, StateStore.Latest, CanView;
  }

  // ---- the reservation ----

  /** The store and the record that making an environment reserves. */
  function Reserves(cfg: Settings, t: Tables, owner: string, key: ArgsKey, req: UpRequest, id: Option<string>)
    : Option<(Tables, Environment)>
  {
    var ttl := Ttl.ParseTtl(TtlSpec(req));
    if ttl.Raise? || BackendNamed(cfg, req.backend) !in cfg.backends then None
    else
      match Claim(cfg, t, owner, key, req, ttl.value, id)
      case (t1, Reserved(inst)) => Some((t1, inst))
      case _ => None
  }

  /** What an `up` reserves, if it comes to that. */
  ghost function Reservation(cfg: Settings, t: Tables, actor: Principal, req: UpRequest)
    : Option<(Tables, Environment)>
  {
    match CourseOf(cfg, t, actor, req)
    case Make(owner, key, id) => Reserves(cfg, t, owner, key, req, id)
    case _ => None
  }

  /** A reservation draws a generation and an operation from the supply, for the request's key
      and the backend it names, on a name absent or dead. */
  lemma ReservedIs(cfg: Settings, t: Tables, owner: string, key: ArgsKey, req: UpRequest, id: Option<string>)
    returns (name: string, quota: Option<nat>)
    requires Reserves(cfg, t, owner, key, req, id).Some?
    ensures quota == if req.quota.Some? then req.quota else cfg.defaultQuota
    ensures if id.Some? then name == id.value
      else exists n: nat :: n < 10 && name == Naming.NewEnvironmentId(req.template.name, req.tokens(n))
    ensures var ttl := Ttl.ParseTtl(TtlSpec(req));
      ttl.Ok? && var candidate := Candidate(cfg, owner, key, req, ttl.value, name);
      var (t1, inst) := Reserves(cfg, t, owner, key, req, id).value;
      && Reserve(t, candidate, quota) == (t1, Reserved(inst))
      && inst == candidate.(generation := Some(t.supply), operation := Some(t.supply + 1))
  {
    hide Claim, Reserve, Ttl.ParseTtl, Ttl.Expiry, Naming.NewEnvironmentId;
    var ttl := Ttl.ParseTtl(TtlSpec(req)).value;
    name, quota := ClaimReserves(cfg, t, owner, key, req, ttl, id);
    Fence.ReserveShape(t, Candidate(cfg, owner, key, req, ttl, name), quota);
  }

  // ---- when the spec cannot be built ----

  /** The deployment cannot build its part of the spec, or the provision hook names something that
      is neither a builtin nor among the resolved arguments. */
  ghost predicate Unbuildable(req: UpRequest, ans: Answers) {
    !ans.spec ||
    match Resolve(req.template.params, req.args)
    case None => false
    case Some(args) => !(Hooks.Placeholders(req.template.provision) <= args.Keys + BUILTINS)
  }

  /** For a template the parser accepted: it names an optional parameter without default that the
      request did not supply. */
  lemma UnbuildableIff(raw: RawTemplate, req: UpRequest, ans: Answers)
    ensures WellFormed(raw) && Describes(req.template, raw) && Resolve(req.template.params, req.args).Some? ==>
      (Unbuildable(req, ans) <==>
       !ans.spec || NamesOmitted(Hooks.Placeholders(req.template.provision), req.template.params, req.args))
  {
    hide WellFormed, Describes, Hooks.Render, Hooks.Placeholders, Resolve, NamesOmitted, HookValues;
    if WellFormed(raw) && Describes(req.template, raw) && Resolve(req.template.params, req.args).Some? {
      var args := Resolve(req.template.params, req.args).value;
      ProvisionFailsIff(raw, req.template, req.args, args, "");
      RenderFailsIff(req.template.provision, HookValues("", req.template.name, args));
      HookKeys("", req.template.name, args);
    }
  }

  lemma BuildsIff(req: UpRequest, inst: Environment, ans: Answers)
    ensures Resolve(req.template.params, req.args) == Some(inst.key.args) ==>
      (SpecBuilds(req.template, inst, ans) <==> !Unbuildable(req, ans))
  {
    hide Hooks.Render, Hooks.Placeholders, Resolve, HookValues;
    RenderFailsIff(req.template.provision, HookValues(inst.id, inst.key.template, inst.key.args));
    HookKeys(inst.id, inst.key.template, inst.key.args);
  }

  /** An `up` that reserves a name and then cannot build its spec. */
  ghost predicate Abandons(cfg: Settings, t: Tables, actor: Principal, req: UpRequest, ans: Answers) {
    Reservation(cfg, t, actor, req).Some? && Unbuildable(req, ans)
  }

  function OperationOf(inst: Environment): set<nat> {
    match inst.operation
    case None => {}
    case Some(o) => {o}
  }

  lemma ProvisionRaises(cfg: Settings, w: World, inst: Environment, expose: Expose, ans: Answers)
    ensures ProvisionIt(cfg, w, inst, expose, ans).1 != Raised(SpecFailed)
  {
  }

  lemma ReuseRaises(cfg: Settings, w: World, inst: Environment, template: TemplateConfig, ans: Answers)
    ensures Reuse(cfg, w, inst, template, ans).1 != Raised(SpecFailed)
  {
  }

  /** Making an environment: a refused claim changes nothing, an abandoned one leaves its
      reservation, any other is provisioned. */
  lemma CreateIs(cfg: Settings, w: World, owner: string, key: ArgsKey, req: UpRequest, id: Option<string>, ans: Answers)
    requires Resolve(req.template.params, req.args) == Some(key.args)
    ensures var (w', outcome) := Create(cfg, w, owner, key, req, id, ans);
      match Reserves(cfg, w.t, owner, key, req, id)
      case None => w' == w && outcome.Raised? && outcome.error != SpecFailed
      case Some(r) =>
        var w1 := w.(t := r.0);
        if Unbuildable(req, ans) then (w', outcome) == (w1, Raised(SpecFailed))
        else (w', outcome) == ProvisionIt(cfg, w1, r.1, req.template.expose, ans) && outcome != Raised(SpecFailed)
  {
    hide Claim, ProvisionIt, Reserve, SpecBuilds, Unbuildable, Resolve, Ttl.ParseTtl, Ttl.Expiry;
    if Reserves(cfg, w.t, owner, key, req, id).Some? {
      var name, quota := ReservedIs(cfg, w.t, owner, key, req, id);
      var (t1, inst) := Reserves(cfg, w.t, owner, key, req, id).value;
      BuildsIff(req, inst, ans);
      ProvisionRaises(cfg, w.(t := t1), inst, req.template.expose, ans);
    }
  }

  /** `up` fails on its spec exactly when it has reserved a name and the spec cannot be built:
      both can be read off before the call. */
  lemma UpRaisesIff(cfg: Settings, w: World, actor: Principal, req: UpRequest, ans: Answers)
    ensures Up(cfg, w, actor, req, ans).1 == Raised(SpecFailed) <==> Abandons(cfg, w.t, actor, req, ans)
  {
    hide Create, Reuse, CourseOf, Reserves, Unbuildable, Resolve, ProvisionIt;
    match CourseOf(cfg, w.t, actor, req)
    case Refuse(e) => RefusedBeforeSpec(cfg, w.t, actor, req);
    case HandBack(inst) => ReuseRaises(cfg, w, inst, req.template, ans);
    case Make(owner, key, id) =>
      MadeOf(cfg, w.t, actor, req);
      CreateIs(cfg, w, owner, key, req, id, ans);
  }

  /** Of templates the parser accepted: exactly the reserving requests whose deployment part fails
      or whose hook names an optional parameter that has no default and was not supplied. */
  lemma AbandonsIff(cfg: Settings, t: Tables, actor: Principal, req: UpRequest, ans: Answers, raw: RawTemplate)
    ensures WellFormed(raw) && Describes(req.template, raw) ==>
      (Abandons(cfg, t, actor, req, ans) <==>
       Reservation(cfg, t, actor, req).Some?
       && (!ans.spec || NamesOmitted(Hooks.Placeholders(req.template.provision), req.template.params, req.args)))
  {
    hide CourseOf, Reserves, Unbuildable, WellFormed, Describes, Resolve, NamesOmitted, Hooks.Placeholders;
    if Reservation(cfg, t, actor, req).Some? {
      MadeOf(cfg, t, actor, req);
      UnbuildableIff(raw, req, ans);
    }
  }
}
