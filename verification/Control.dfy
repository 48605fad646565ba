/** The control plane (control.py) as a value: what each call does to the store, the runtime
    and the route files, given how everything outside answers. `ControlPlane.ControlPlane` makes
    these calls step by step; the theorems about runs of calls are about these functions. */
module Control {
  import opened Wrappers
  import opened Strings
  import opened Model
  import opened Tables
  import opened Params
  import opened Config
  import opened Ingress
  import Hooks
  import Naming
  import StateStore
  import Ttl

  /** The deployment's configuration. */
  datatype Settings = Settings(
    domain: string,
    authHost: string,
    backends: set<string>,
    defaultBackend: string,
    defaultQuota: Option<nat>)

  /** `alive` holds backend and name of every instance whose `create` returned and whose
      `destroy` has not since succeeded. `overwrote` records, for the theorems only, whether
      `create` was ever called for a name that had an instance alive. */
  datatype World = World(
    t: Tables,
    alive: set<(string, string)>,
    files: map<string, RouteDoc>,
    overwrote: bool)

  const START := World(EMPTY, {}, map[], false)

  /** How the outside answers one call: what raises (false), the address that `create` and
      `start` report when they return, and the text of whatever error is recorded. */
  datatype Answers = Answers(
    spec: bool,
    create: Option<Option<string>>,
    start: Option<Option<string>>,
    cert: bool,
    stop: bool,
    destroy: bool,
    unregister: bool,
    sync: bool,
    deregister: bool,
    reason: string)

  datatype Error =
    | NotFound | PermissionDenied | InvalidName | NameConflict | QuotaExhausted | BadArguments | BadLifetime
    | SpecFailed | CawlFailure

  datatype Outcome = Returned(inst: Environment) | Done | Raised(error: Error)

  // ---- lookups ----

  /** The backend of that name; the empty one is the default. */
  function BackendNamed(cfg: Settings, name: string): string {
    if name == "" then cfg.defaultBackend else name
  }

  function Backend(cfg: Settings, inst: Environment): string {
    BackendNamed(cfg, inst.backend)
  }

  function GetOr404(t: Tables, id: string): Option<Environment> {
    if id in t.rows && !t.rows[id].status.Destroyed? then Some(ToEnvironment(t, id)) else None
  }

  function UrlFor(cfg: Settings, name: string): string {
    "https://" + Naming.ExposureHost(name, cfg.domain)
  }

  lemma Singleton(s: set<string>, n: string)
    requires |s| == 1 && n in s
    ensures s == {n}
  {
    assert |s - {n}| == 0;
  }

  function TheOnly(s: set<string>): string
    requires |s| == 1
  {
    assert exists n :: n in s && s == {n} by {
      var n :| n in s;
      Singleton(s, n);
    }
    var n :| n in s && s == {n};
    n
  }

  /** The front door: the exposure at the environment's own id, or the only one. */
  function PrimaryUrl(cfg: Settings, inst: Environment): Option<string> {
    if inst.id in inst.exposures then Some(UrlFor(cfg, inst.id))
    else if |inst.exposures.Keys| == 1 then Some(UrlFor(cfg, TheOnly(inst.exposures.Keys)))
    else None
  }

  /** A label is free unless another environment exposes it, another live one has it as its
      id, or it is the sign-in host's. */
  predicate LabelFree(cfg: Settings, t: Tables, name: string, id: string) {
    var held := FindExposure(t, name);
    && !(held.Some? && held.value != id)
    && !(name in t.rows && !Dead(t.rows[name].status) && name != id)
    && cfg.authHost != Naming.ExposureHost(name, cfg.domain)
  }

  /** `_spec_for` returns: the deployment has everything for it, and the hook renders. */
  ghost predicate SpecBuilds(template: TemplateConfig, inst: Environment, ans: Answers) {
    ans.spec && Hooks.Render(template.provision, HookValues(inst.id, inst.key.template, inst.key.args)).Some?
  }

  // ---- up: a new environment ----

  datatype UpRequest = UpRequest(
    template: TemplateConfig,
    args: map<string, string>,
    name: Option<string>,
    ttl: Option<string>,
    reuse: bool,
    onBehalfOf: string,
    quota: Option<nat>,
    maxTtl: Option<int>,
    backend: string,
    now: int,
    tokens: nat -> string)

  /** Materialize the template's default exposures from the `i`th on; false is a conflict. */
  function ExposeDefaults(cfg: Settings, t: Tables, id: string, expose: Expose, i: nat): (Tables, bool)
    decreases |expose.keys| - i
  {
    if i >= |expose.keys| then (t, true)
    else
      var key := expose.keys[i];
      var name := Naming.DefaultExposureLabel(id, key);
      if !LabelFree(cfg, t, name, id) then (t, false)
      else
        var (t', outcome) := SetExposure(t, id, name, Exposure(expose.ports[key], []));
        if !outcome.Exposed? then (t', false) else ExposeDefaults(cfg, t', id, expose, i + 1)
  }

  /** The failure branch of `up`: record the error, and tear the instance down if it was made. */
  function Abort(w: World, inst: Environment, backend: string, created: bool, ans: Answers): World {
    var (t1, failed, _) := CompleteOperation(w.t, inst.(status := Errored, error := ans.reason), false);
    if !created then w.(t := t1)
    else if ans.destroy then w.(t := t1, alive := w.alive - {(backend, inst.id)})
    else w.(t := Upsert(t1, failed.(status := DestroyFailed)))
  }

  /** Commit the provisioned environment and publish its routes. */
  ghost function Publish(cfg: Settings, w: World, inst: Environment, backend: string, ans: Answers): (World, Outcome) {
    var ready := inst.(exposures := ExposuresOf(w.t, inst.id));
    var committed := ready.(url := PrimaryUrl(cfg, ready), status := Ready);
    var (t1, inst1, current) := CompleteOperation(w.t, committed, true);
    if !current then (Abort(w, committed, backend, true, ans), Raised(CawlFailure))
    else if !ans.sync then (Abort(w.(t := t1), inst1, backend, true, ans), Raised(CawlFailure))
    else (w.(t := t1, files := Synced(cfg.domain, w.files, inst1)), Returned(inst1))
  }

  /** Everything `up` does under its `try`, for a record it has reserved. */
  ghost function ProvisionIt(cfg: Settings, w: World, inst: Environment, expose: Expose, ans: Answers)
    : (World, Outcome)
  {
    var backend := inst.backend;
    var w0 := w.(overwrote := w.overwrote || exists a :: a in w.alive && a.1 == inst.id);
    if ans.create.None? then (Abort(w0, inst, backend, false, ans), Raised(CawlFailure))
    else
      var w1 := w0.(alive := w0.alive + {(backend, inst.id)});
      var inst1 := inst.(ip := ans.create.value);
      if !ans.cert then (Abort(w1, inst1, backend, true, ans), Raised(CawlFailure))
      else
        var (t2, exposed) := ExposeDefaults(cfg, w1.t, inst.id, expose, 0);
        var w2 := w1.(t := t2);
        if !exposed then (Abort(w2, inst1, backend, true, ans), Raised(CawlFailure))
        else Publish(cfg, w2, inst1, backend, ans)
  }

  /** Try the generated ids from the `n`th random suffix on; ten are tried in all. */
  function ReserveAny(t: Tables, inst: Environment, req: UpRequest, quota: Option<nat>, n: nat)
    : (Tables, ReserveOutcome)
    decreases 10 - n
  {
    if n >= 10 then (t, NameTaken)
    else
      var (t', outcome) := Reserve(t, inst.(id := Naming.NewEnvironmentId(req.template.name, req.tokens(n))), quota);
      if outcome.NameTaken? then ReserveAny(t, inst, req, quota, n + 1) else (t', outcome)
  }

  function Candidate(cfg: Settings, owner: string, key: ArgsKey, req: UpRequest, ttl: Option<nat>,
                     id: string): Environment {
    Environment(id, key, BackendNamed(cfg, req.backend), owner, Creating, None, None, "", req.now,
                Ttl.Expiry(req.now, ttl, req.maxTtl), {}, map[], None, None)
  }

  function TtlSpec(req: UpRequest): Option<string> {
    if req.ttl.Some? then req.ttl else req.template.ttl
  }

  /** Reserve the pinned name, or a generated one. */
  function Claim(cfg: Settings, t: Tables, owner: string, key: ArgsKey, req: UpRequest, ttl: Option<nat>,
                 id: Option<string>)
    : (Tables, ReserveOutcome)
  {
    var quota := if req.quota.Some? then req.quota else cfg.defaultQuota;
    if id.Some? then Reserve(t, Candidate(cfg, owner, key, req, ttl, id.value), quota)
    else ReserveAny(t, Candidate(cfg, owner, key, req, ttl, ""), req, quota, 0)
  }

  ghost function Create(cfg: Settings, w: World, owner: string, key: ArgsKey, req: UpRequest, id: Option<string>,
                        ans: Answers)
    : (World, Outcome)
  {
    var ttl := Ttl.ParseTtl(TtlSpec(req));
    if ttl.Raise? then (w, Raised(BadLifetime))
    else if BackendNamed(cfg, req.backend) !in cfg.backends then (w, Raised(CawlFailure))
    else
      match Claim(cfg, w.t, owner, key, req, ttl.value, id)
      case (_, QuotaExceeded) => (w, Raised(QuotaExhausted))
      case (_, NameTaken) => (w, Raised(if id.Some? then NameConflict else CawlFailure))
      case (t1, Reserved(inst)) =>
        var w1 := w.(t := t1);
        if !SpecBuilds(req.template, inst, ans) then (w1, Raised(SpecFailed))
        else ProvisionIt(cfg, w1, inst, req.template.expose, ans)
  }

  // ---- up: an environment that exists ----

  /** The failure branch of `_resume`: the environment is stopped again. */
  function Suspend(w: World, inst: Environment, ans: Answers): World {
    w.(t := CompleteOperation(w.t, inst.(status := Stopped, error := ans.reason), false).0)
  }

  ghost function Resume(cfg: Settings, w: World, inst: Environment, template: TemplateConfig, ans: Answers)
    : (World, Outcome)
  {
    if Backend(cfg, inst) !in cfg.backends || !SpecBuilds(template, inst, ans) || ans.start.None? then
      (Suspend(w, inst, ans), Raised(CawlFailure))
    else
      var inst1 := inst.(ip := ans.start.value);
      if !ans.cert then (Suspend(w, inst1, ans), Raised(CawlFailure))
      else
        var (t1, inst2, current) := CompleteOperation(w.t, inst1.(status := Ready), true);
        if !current then (Suspend(w, inst1.(status := Ready), ans), Raised(CawlFailure))
        else if !ans.sync then (Suspend(w.(t := t1), inst2, ans), Raised(CawlFailure))
        else (w.(t := t1, files := Synced(cfg.domain, w.files, inst2)), Returned(inst2))
  }

  ghost function BeginAndResume(cfg: Settings, w: World, id: string, template: TemplateConfig, ans: Answers)
    : (World, Outcome)
  {
    var (t1, inst) := BeginOperation(w.t, id, Start, {Stopped}, Starting);
    if inst.None? then (w, Raised(CawlFailure)) else Resume(cfg, w.(t := t1), inst.value, template, ans)
  }

  ghost function Reuse(cfg: Settings, w: World, inst: Environment, template: TemplateConfig, ans: Answers)
    : (World, Outcome)
  {
    if inst.status.DestroyFailed? then (w, Raised(CawlFailure))
    else if inst.status.Stopped? then BeginAndResume(cfg, w, inst.id, template, ans)
    else (w, Returned(inst))
  }

  function OwnerOf(actor: Principal, req: UpRequest): string {
    if req.onBehalfOf != "" then req.onBehalfOf else actor.id
  }

  /** `_claim_name`: the id that a custom name pins, and the environment to reuse under it. */
  function ClaimName(cfg: Settings, t: Tables, actor: Principal, name: string, reuse: bool)
    : Result<(string, Option<Environment>), Error>
  {
    match Naming.ValidateName(name)
    case None => Raise(InvalidName)
    case Some(id) =>
      if !LabelFree(cfg, t, id, id) then Raise(NameConflict)
      else if id !in t.rows || Dead(t.rows[id].status) then Ok((id, None))
      else if !reuse then Raise(NameConflict)
      else if !CanView(actor, ToEnvironment(t, id)) then Raise(PermissionDenied)
      else Ok((id, Some(ToEnvironment(t, id))))
  }

  /** What `up` does with a request: refuse it, hand back an environment, or make one, under a
      pinned id or a generated one. */
  datatype Course =
    | Refuse(error: Error)
    | HandBack(inst: Environment)
    | Make(owner: string, key: ArgsKey, id: Option<string>)

  ghost function CourseOf(cfg: Settings, t: Tables, actor: Principal, req: UpRequest): Course {
    var owner := OwnerOf(actor, req);
    if owner != actor.id && !actor.admin then Refuse(PermissionDenied)
    else
      match Resolve(req.template.params, req.args)
      case None => Refuse(BadArguments)
      case Some(resolved) =>
        var key := ArgsKey(req.template.name, resolved);
        if req.name.Some? then
          match ClaimName(cfg, t, actor, req.name.value, req.reuse)
          case Raise(e) => Refuse(e)
          case Ok((id, held)) => if held.Some? then HandBack(held.value) else Make(owner, key, Some(id))
        else
          var existing := StateStore.Latest(t, key, owner);
          if req.reuse && existing.Some? && !existing.value.status.Errored? then HandBack(existing.value)
          else Make(owner, key, None)
  }

  ghost function Up(cfg: Settings, w: World, actor: Principal, req: UpRequest, ans: Answers): (World, Outcome) {
    match CourseOf(cfg, w.t, actor, req)
    case Refuse(e) => (w, Raised(e))
    case HandBack(inst) => Reuse(cfg, w, inst, req.template, ans)
    case Make(owner, key, id) => Create(cfg, w, owner, key, req, id, ans)
  }

  // ---- sharing ----

  ghost function ShareIt(w: World, actor: Principal, id: string, principal: string): (World, Outcome) {
    match GetOr404(w.t, id)
    case None => (w, Raised(NotFound))
    case Some(inst) =>
      if !IsOwner(actor, inst) then (w, Raised(PermissionDenied))
      else if principal == inst.owner then (w, Raised(CawlFailure))
      else
        var t1 := Grant(w.t, id, principal);
        (w.(t := t1), Returned(ToEnvironment(t1, id)))
  }

  ghost function UnshareIt(w: World, actor: Principal, id: string, principal: string): (World, Outcome) {
    match GetOr404(w.t, id)
    case None => (w, Raised(NotFound))
    case Some(inst) =>
      if !IsOwner(actor, inst) then (w, Raised(PermissionDenied))
      else
        var (t1, deleted) := Revoke(w.t, id, principal);
        if !deleted then (w.(t := t1), Raised(NotFound)) else (w.(t := t1), Returned(ToEnvironment(t1, id)))
  }

  // ---- exposures ----

  function CleanAccess(access: seq<string>): seq<string> {
    if access == [] then []
    else
      var init, last := CleanAccess(access[..|access| - 1]), Lower(Strip(access[|access| - 1]));
      if last == "" then init else init + [last]
  }

  ghost function SyncExposures(cfg: Settings, w: World, id: string, ans: Answers): (World, Outcome) {
    match GetOr404(w.t, id)
    case None => (w, Raised(NotFound))
    case Some(inst) =>
      var inst1 := inst.(url := PrimaryUrl(cfg, inst));
      var w1 := w.(t := Upsert(w.t, inst1));
      if !inst1.status.Ready? then (w1, Returned(inst1))
      else if !ans.sync then (w1, Raised(CawlFailure))
      else (w1.(files := Synced(cfg.domain, w1.files, inst1)), Returned(inst1))
  }

  ghost function ExposeIt(cfg: Settings, w: World, actor: Principal, id: string, port: int, wanted: Option<string>,
                          access: seq<string>, ans: Answers): (World, Outcome)
  {
    match GetOr404(w.t, id)
    case None => (w, Raised(NotFound))
    case Some(inst) =>
      if !IsOwner(actor, inst) then (w, Raised(PermissionDenied))
      else
        match Naming.ValidateExposureLabel(if wanted.Some? then wanted.value else id)
        case None => (w, Raised(InvalidName))
        case Some(n) =>
          if !(0 < port < 65536) then (w, Raised(CawlFailure))
          else if !LabelFree(cfg, w.t, n, id) then (w, Raised(NameConflict))
          else
            var (t1, outcome) := SetExposure(w.t, id, n, Exposure(port, Dedup(CleanAccess(access))));
            if !outcome.Exposed? then (w, Raised(NameConflict)) else SyncExposures(cfg, w.(t := t1), id, ans)
  }

  ghost function UnexposeIt(cfg: Settings, w: World, actor: Principal, id: string, name: string,
                            ans: Answers): (World, Outcome) {
    match GetOr404(w.t, id)
    case None => (w, Raised(NotFound))
    case Some(inst) =>
      if !IsOwner(actor, inst) then (w, Raised(PermissionDenied))
      else
        var (t1, outcome) := RemoveExposure(w.t, id, name);
        if !outcome.Removed? then (w, Raised(NotFound)) else SyncExposures(cfg, w.(t := t1), id, ans)
  }

  // ---- pause, resume, destroy ----

  ghost function StopIt(cfg: Settings, w: World, actor: Principal, id: string, ans: Answers): (World, Outcome) {
    match GetOr404(w.t, id)
    case None => (w, Raised(NotFound))
    case Some(found) =>
      if !IsOwner(actor, found) then (w, Raised(PermissionDenied))
      else if found.status.Stopped? then (w, Returned(found))
      else if !found.status.Ready? then (w, Raised(CawlFailure))
      else
        var (t1, begun) := BeginOperation(w.t, id, Stop, {Ready}, Stopping);
        if begun.None? then (w, Raised(CawlFailure))
        else
          var inst := begun.value;
          if !ans.unregister || Backend(cfg, inst) !in cfg.backends || !ans.stop then
            var back := inst.(status := Ready, error := ans.reason);
            (w.(t := CompleteOperation(t1, back, false).0), Raised(CawlFailure))
          else
            var (t2, down, _) := CompleteOperation(t1, inst.(status := Stopped, ip := None), true);
            if !ans.deregister then (w.(t := t2), Raised(CawlFailure))
            else (w.(t := t2, files := w.files - {id}), Returned(down))
  }

  ghost function StartIt(cfg: Settings, w: World, actor: Principal, id: string, template: TemplateConfig, ans: Answers)
    : (World, Outcome)
  {
    match GetOr404(w.t, id)
    case None => (w, Raised(NotFound))
    case Some(found) =>
      if !IsOwner(actor, found) then (w, Raised(PermissionDenied))
      else if found.status.Ready? then (w, Returned(found))
      else if !found.status.Stopped? then (w, Raised(CawlFailure))
      else BeginAndResume(cfg, w, id, template, ans)
  }

  /** Teardown with no access check, of a record read earlier. */
  ghost function Teardown(cfg: Settings, w: World, inst: Environment, ans: Answers): (World, Outcome) {
    if !ans.deregister then (w, Raised(CawlFailure))
    else
      var w1 := w.(files := w.files - {inst.id});
      if !ans.unregister then (w1, Raised(CawlFailure))
      else if Backend(cfg, inst) !in cfg.backends || !ans.destroy then
        (w1.(t := Upsert(w1.t, inst.(status := DestroyFailed, error := ans.reason))), Raised(CawlFailure))
      else (w1.(t := Delete(w1.t, inst.id), alive := w1.alive - {(Backend(cfg, inst), inst.id)}), Done)
  }

  ghost function DestroyIt(cfg: Settings, w: World, actor: Principal, id: string, ans: Answers): (World, Outcome) {
    match GetOr404(w.t, id)
    case None => (w, Raised(NotFound))
    case Some(inst) =>
      if !IsOwner(actor, inst) then (w, Raised(PermissionDenied)) else Teardown(cfg, w, inst, ans)
  }

  /** The records of some rows, as one query reads them. */
  function Records(t: Tables, ids: seq<string>): seq<Environment>
    requires forall i :: 0 <= i < |ids| ==> ids[i] in t.rows
  {
    seq(|ids|, i requires 0 <= i < |ids| => ToEnvironment(t, ids[i]))
  }

  /** Destroy the records from the `i`th on; the first failure ends the pass. */
  ghost function TeardownAll(cfg: Settings, w: World, insts: seq<Environment>, answers: nat -> Answers,
                             i: nat): (World, Outcome)
    decreases |insts| - i
  {
    if i >= |insts| then (w, Done)
    else
      var (w1, outcome) := Teardown(cfg, w, insts[i], answers(i));
      if outcome.Raised? then (w1, outcome) else TeardownAll(cfg, w1, insts, answers, i + 1)
  }

  ghost function Reap(cfg: Settings, w: World, actor: Principal, now: int, order: seq<string>, answers: nat -> Answers)
    : (World, Outcome)
    requires Lists(order, Expired(w.t, now))
  {
    if !actor.admin then (w, Raised(PermissionDenied))
    else
      assert forall i :: 0 <= i < |order| ==> order[i] in Expired(w.t, now);
      TeardownAll(cfg, w, Records(w.t, order), answers, 0)
  }

  // ---- runs ----

  datatype Call =
    | CallUp(req: UpRequest, ans: Answers)
    | CallStop(id: string, ans: Answers)
    | CallStart(id: string, template: TemplateConfig, ans: Answers)
    | CallDestroy(id: string, ans: Answers)
    | CallExpose(id: string, port: int, wanted: Option<string>, access: seq<string>, ans: Answers)
    | CallUnexpose(id: string, name: string, ans: Answers)
    | CallShare(id: string, principal: string)
    | CallUnshare(id: string, principal: string)
    | CallReap(now: int, order: seq<string>, answers: nat -> Answers)

  datatype Request = Request(actor: Principal, call: Call)

  /** One call, run to its end. A reaper pass that lists something else than what has expired
      is not one. */
  ghost function Step(cfg: Settings, w: World, r: Request): (World, Outcome) {
    match r.call
    case CallUp(req, ans) => Up(cfg, w, r.actor, req, ans)
    case CallStop(id, ans) => StopIt(cfg, w, r.actor, id, ans)
    case CallStart(id, template, ans) => StartIt(cfg, w, r.actor, id, template, ans)
    case CallDestroy(id, ans) => DestroyIt(cfg, w, r.actor, id, ans)
    case CallExpose(id, port, wanted, access, ans) => ExposeIt(cfg, w, r.actor, id, port, wanted, access, ans)
    case CallUnexpose(id, name, ans) => UnexposeIt(cfg, w, r.actor, id, name, ans)
    case CallShare(id, principal) => ShareIt(w, r.actor, id, principal)
    case CallUnshare(id, principal) => UnshareIt(w, r.actor, id, principal)
    case CallReap(now, order, answers) =>
      if Lists(order, Expired(w.t, now)) then Reap(cfg, w, r.actor, now, order, answers) else (w, Raised(CawlFailure))
  }

  ghost function Run(cfg: Settings, w: World, requests: seq<Request>): World {
    if requests == [] then w
    else Step(cfg, Run(cfg, w, requests[..|requests| - 1]), requests[|requests| - 1]).0
  }
}
