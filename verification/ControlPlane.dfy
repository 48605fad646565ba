/** The control plane (control.py) step by step, over the state store and the ingress. Each
    method is proved to do what its function in `Control` says, whatever the outside answers. */
module ControlPlane {
  import opened Wrappers
  import opened Strings
  import opened Model
  import opened Tables
  import opened Params
  import opened Config
  import opened Ingress
  import opened StateStore
  import opened Control
  import C = Control
  import Hooks
  import Naming
  import T = Tables
  import Ttl

  class ControlPlane {
    const cfg: Settings
    const state: DjangoStateStore
    const ingress: TraefikIngress
    /** Backend and name of every instance created and not since destroyed. */
    var alive: set<(string, string)>
    ghost var overwrote: bool

    ghost predicate Valid() {
      ingress.domain == cfg.domain
    }

    ghost function World(): World
      reads this, state, ingress
    {
      C.World(state.View(), alive, ingress.files, overwrote)
    }

    constructor (cfg: Settings)
      ensures Valid() && this.cfg == cfg && World() == START && fresh(state) && fresh(ingress)
    {
      this.cfg := cfg;
      state := new DjangoStateStore();
      ingress := new TraefikIngress(cfg.domain);
      alive := {};
      overwrote := false;
    }

    method GetOr404(id: string) returns (r: Option<Environment>)
      ensures r == C.GetOr404(state.View(), id)
    {
      r := state.Get(id);
      if r.Some? && r.value.status.Destroyed? {
        r := None;
      }
    }

    /** `_require_label_free` */
    method LabelFree(name: string, id: string) returns (free: bool)
      ensures free == C.LabelFree(cfg, state.View(), name, id)
    {
      var held := state.FindExposure(name);
      if held.Some? && held.value != id {
        return false;
      }
      var other := state.Get(name);
      if other.Some? && !Dead(other.value.status) && other.value.id != id {
        return false;
      }
      return cfg.authHost != Naming.ExposureHost(name, cfg.domain);
    }

    /** `_spec_for`, as far as whether it raises. */
    method BuildSpec(template: TemplateConfig, inst: Environment, ans: Answers) returns (ok: bool)
      ensures ok == SpecBuilds(template, inst, ans)
    {
      var values := HookValues(inst.id, inst.key.template, inst.key.args);
      return ans.spec
          && (Hooks.Blank(template.provision) || Hooks.Sub(Hooks.Scan(template.provision, 0), values).Some?);
    }

    // ---- up ----

    /** The `except` branch of `up`. Unregistering from egress is tried and its failure ignored. */
    method Abort(inst: Environment, backend: string, created: bool, ans: Answers)
      modifies this, state
      ensures World() == C.Abort(old(World()), inst, backend, created, ans)
    {
      var failed, _ := state.CompleteOperation(inst.(status := Errored, error := ans.reason), false);
      if created {
        if ans.destroy {
          alive := alive - {(backend, inst.id)};
        } else {
          state.Upsert(failed.(status := DestroyFailed));
        }
      }
    }

    method ExposeDefaults(id: string, expose: Expose) returns (ok: bool)
      modifies state
      ensures (state.View(), ok) == C.ExposeDefaults(cfg, old(state.View()), id, expose, 0)
    {
      hide C.LabelFree, SetExposure, Naming.DefaultExposureLabel;
      for i := 0 to |expose.keys|
        invariant C.ExposeDefaults(cfg, state.View(), id, expose, i)
          == C.ExposeDefaults(cfg, old(state.View()), id, expose, 0)
      {
        var key := expose.keys[i];
        var name := Naming.DefaultExposureLabel(id, key);
        var free := LabelFree(name, id);
        if !free {
          return false;
        }
        var outcome := state.SetExposure(id, name, Exposure(expose.ports[key], []));
        if !outcome.Exposed? {
          return false;
        }
      }
      return true;
    }

    /** The rest of `up`'s `try`, from the materialized exposures on. */
    method Publish(inst: Environment, backend: string, ans: Answers) returns (r: Outcome)
      requires Valid()
      modifies this, state, ingress
      ensures Valid() && (World(), r) == C.Publish(cfg, old(World()), inst, backend, ans)
    {
      hide C.Abort, CompleteOperation, PrimaryUrl, Synced, ExposuresOf;
      var inst2 := inst.(exposures := ExposuresOf(state.View(), inst.id));
      inst2 := inst2.(url := PrimaryUrl(cfg, inst2), status := Ready);
      RefusedCompletion(state.View(), inst2, true);
      var inst3, current := state.CompleteOperation(inst2, true);
      if !current {
        Abort(inst2, backend, true, ans);
        return Raised(CawlFailure);
      }
      var synced := ingress.Sync(inst3, ans.sync);
      if !synced {
        Abort(inst3, backend, true, ans);
        return Raised(CawlFailure);
      }
      return Returned(inst3);
    }

    /** The `try` of `up`. */
    method Provision(inst: Environment, expose: Expose, ans: Answers) returns (r: Outcome)
      requires Valid()
      modifies this, state, ingress
      ensures Valid() && (World(), r) == ProvisionIt(cfg, old(World()), inst, expose, ans)
    {
      hide C.Abort, C.ExposeDefaults, C.Publish;
      var backend := inst.backend;
      overwrote := overwrote || exists a :: a in alive && a.1 == inst.id;
      if ans.create.None? {
        Abort(inst, backend, false, ans);
        return Raised(CawlFailure);
      }
      alive := alive + {(backend, inst.id)};
      var inst1 := inst.(ip := ans.create.value);
      if !ans.cert {
        Abort(inst1, backend, true, ans);
        return Raised(CawlFailure);
      }
      var exposed := ExposeDefaults(inst.id, expose);
      if !exposed {
        Abort(inst1, backend, true, ans);
        return Raised(CawlFailure);
      }
      r := Publish(inst1, backend, ans);
    }

    method Claim(owner: string, key: ArgsKey, req: UpRequest, ttl: Option<nat>, id: Option<string>)
      returns (r: ReserveOutcome)
      modifies state
      ensures (state.View(), r) == C.Claim(cfg, old(state.View()), owner, key, req, ttl, id)
    {
      hide Reserve, Candidate, Naming.NewEnvironmentId;
      var limit := if req.quota.Some? then req.quota else cfg.defaultQuota;
      if id.Some? {
        r := state.Reserve(Candidate(cfg, owner, key, req, ttl, id.value), limit);
        return;
      }
      var blank := Candidate(cfg, owner, key, req, ttl, "");
      for n := 0 to 10
        invariant ReserveAny(state.View(), blank, req, limit, n) == ReserveAny(old(state.View()), blank, req, limit, 0)
        invariant state.View() == old(state.View())
      {
        var inst := blank.(id := Naming.NewEnvironmentId(req.template.name, req.tokens(n)));
        r := state.Reserve(inst, limit);
        if !r.NameTaken? {
          return;
        }
        TakenChangesNothing(old(state.View()), inst, limit);
      }
      return NameTaken;
    }

    method Create(owner: string, key: ArgsKey, req: UpRequest, id: Option<string>, ans: Answers) returns (r: Outcome)
      requires Valid()
      modifies this, state, ingress
      ensures Valid() && (World(), r) == C.Create(cfg, old(World()), owner, key, req, id, ans)
    {
      hide C.Claim, SpecBuilds, ProvisionIt, Ttl.ParseTtl;
      var ttl := Ttl.ParseTtl(if req.ttl.Some? then req.ttl else req.template.ttl);
      if ttl.Raise? {
        return Raised(BadLifetime);
      }
      if BackendNamed(cfg, req.backend) !in cfg.backends {
        return Raised(CawlFailure);
      }
      ClaimRefused(cfg, state.View(), owner, key, req, ttl.value, id);
      var outcome := Claim(owner, key, req, ttl.value, id);
      match outcome
      case QuotaExceeded =>
        return Raised(QuotaExhausted);
      case NameTaken =>
        return Raised(if id.Some? then NameConflict else CawlFailure);
      case Reserved(inst) =>
        var spec := BuildSpec(req.template, inst, ans);
        if !spec {
          return Raised(SpecFailed);
        }
        r := Provision(inst, req.template.expose, ans);
    }

    /** The `except` branch of `_resume`. */
    method Suspend(inst: Environment, ans: Answers)
      modifies state
      ensures World() == C.Suspend(old(World()), inst, ans)
    {
      var _, _ := state.CompleteOperation(inst.(status := Stopped, error := ans.reason), false);
    }

    method Resume(inst: Environment, template: TemplateConfig, ans: Answers) returns (r: Outcome)
      requires Valid()
      modifies state, ingress
      ensures Valid() && (World(), r) == C.Resume(cfg, old(World()), inst, template, ans)
    {
      hide C.Suspend, CompleteOperation, SpecBuilds, Synced;
      var spec := BuildSpec(template, inst, ans);
      if Backend(cfg, inst) !in cfg.backends || !spec || ans.start.None? {
        Suspend(inst, ans);
        return Raised(CawlFailure);
      }
      var inst1 := inst.(ip := ans.start.value);
      if !ans.cert {
        Suspend(inst1, ans);
        return Raised(CawlFailure);
      }
      inst1 := inst1.(status := Ready);
      RefusedCompletion(state.View(), inst1, true);
      var inst2, current := state.CompleteOperation(inst1, true);
      if !current {
        Suspend(inst1, ans);
        return Raised(CawlFailure);
      }
      var synced := ingress.Sync(inst2, ans.sync);
      if !synced {
        Suspend(inst2, ans);
        return Raised(CawlFailure);
      }
      return Returned(inst2);
    }

    method BeginAndResume(id: string, template: TemplateConfig, ans: Answers) returns (r: Outcome)
      requires Valid()
      modifies state, ingress
      ensures Valid() && (World(), r) == C.BeginAndResume(cfg, old(World()), id, template, ans)
    {
      hide C.Resume;
      var inst := state.BeginOperation(id, Kind.Start, {Stopped}, Starting);
      if inst.None? {
        return Raised(CawlFailure);
      }
      r := Resume(inst.value, template, ans);
    }

    /** Hand back an environment that exists, running. */
    method Reuse(inst: Environment, template: TemplateConfig, ans: Answers) returns (r: Outcome)
      requires Valid()
      modifies state, ingress
      ensures Valid() && (World(), r) == C.Reuse(cfg, old(World()), inst, template, ans)
    {
      hide C.BeginAndResume;
      if inst.status.DestroyFailed? {
        return Raised(CawlFailure);
      }
      if inst.status.Stopped? {
        r := BeginAndResume(inst.id, template, ans);
        return;
      }
      return Returned(inst);
    }

    /** `_claim_name` */
    method ClaimName(actor: Principal, name: string, reuse: bool)
      returns (r: Result<(string, Option<Environment>), Error>)
      ensures r == C.ClaimName(cfg, state.View(), actor, name, reuse)
    {
      hide C.LabelFree, Naming.ValidateName, GrantsOf, ExposuresOf;
      var id := Naming.ValidateName(name);
      if id.None? {
        return Raise(InvalidName);
      }
      var free := LabelFree(id.value, id.value);
      if !free {
        return Raise(NameConflict);
      }
      var held := state.Get(id.value);
      if held.None? || Dead(held.value.status) {
        return Ok((id.value, None));
      }
      if reuse {
        if !CanView(actor, held.value) {
          return Raise(PermissionDenied);
        }
        return Ok((id.value, held));
      }
      return Raise(NameConflict);
    }

    method Arguments(template: TemplateConfig, args: map<string, string>) returns (r: Option<map<string, string>>)
      ensures r == Resolve(template.params, args)
    {
      hide Resolve, Resolves, Unresolvable;
      r := ResolveArgs(template.params, args);
      ResolveIff(template.params, args, if r.Some? then r.value else map[]);
    }

    method Up(actor: Principal, req: UpRequest, ans: Answers) returns (r: Outcome)
      requires Valid()
      modifies this, state, ingress
      ensures Valid() && (World(), r) == C.Up(cfg, old(World()), actor, req, ans)
    {
      hide C.ClaimName, C.Create, C.Reuse, Resolve, Latest, Distinct, GrantsOf, ExposuresOf;
      var owner := actor.id;
      if req.onBehalfOf != "" && req.onBehalfOf != actor.id {
        if !actor.admin {
          return Raised(PermissionDenied);
        }
        owner := req.onBehalfOf;
      }
      var resolved := Arguments(req.template, req.args);
      if resolved.None? {
        return Raised(BadArguments);
      }
      var key := ArgsKey(req.template.name, resolved.value);
      var id: Option<string> := None;
      if req.name.Some? {
        var claimed := ClaimName(actor, req.name.value, req.reuse);
        if claimed.Raise? {
          return Raised(claimed.error);
        }
        if claimed.value.1.Some? {
          r := Reuse(claimed.value.1.value, req.template, ans);
          return;
        }
        id := Some(claimed.value.0);
      } else if req.reuse {
        var existing := state.Find(key, owner);
        if existing.Some? && !existing.value.status.Errored? {
          r := Reuse(existing.value, req.template, ans);
          return;
        }
      }
      r := Create(owner, key, req, id, ans);
    }

    // ---- sharing and exposing ----

    method Share(actor: Principal, id: string, principal: string) returns (r: Outcome)
      modifies state
      ensures (World(), r) == ShareIt(old(World()), actor, id, principal)
    {
      var inst := GetOr404(id);
      if inst.None? {
        return Raised(NotFound);
      }
      if !IsOwner(actor, inst.value) {
        return Raised(PermissionDenied);
      }
      if principal == inst.value.owner {
        return Raised(CawlFailure);
      }
      state.Grant(id, principal);
      inst := GetOr404(id);
      return Returned(inst.value);
    }

    method Unshare(actor: Principal, id: string, principal: string) returns (r: Outcome)
      modifies state
      ensures (World(), r) == UnshareIt(old(World()), actor, id, principal)
    {
      var inst := GetOr404(id);
      if inst.None? {
        return Raised(NotFound);
      }
      if !IsOwner(actor, inst.value) {
        return Raised(PermissionDenied);
      }
      var deleted := state.Revoke(id, principal);
      if !deleted {
        return Raised(NotFound);
      }
      inst := GetOr404(id);
      return Returned(inst.value);
    }

    /** `_sync_exposures`: re-read, rewrite the primary URL, publish if running. */
    method SyncExposures(id: string, ans: Answers) returns (r: Outcome)
      requires Valid()
      modifies state, ingress
      ensures Valid() && (World(), r) == C.SyncExposures(cfg, old(World()), id, ans)
    {
      hide Upsert, Synced, PrimaryUrl, GrantsOf, ExposuresOf;
      var found := GetOr404(id);
      if found.None? {
        return Raised(NotFound);
      }
      var inst := found.value.(url := PrimaryUrl(cfg, found.value));
      state.Upsert(inst);
      if inst.status.Ready? {
        var synced := ingress.Sync(inst, ans.sync);
        if !synced {
          return Raised(CawlFailure);
        }
      }
      return Returned(inst);
    }

    method Expose(actor: Principal, id: string, port: int, wanted: Option<string>, access: seq<string>, ans: Answers)
      returns (r: Outcome)
      requires Valid()
      modifies state, ingress
      ensures Valid() && (World(), r) == ExposeIt(cfg, old(World()), actor, id, port, wanted, access, ans)
    {
      hide C.LabelFree, C.SyncExposures, Naming.ValidateExposureLabel, GrantsOf, ExposuresOf;
      var inst := GetOr404(id);
      if inst.None? {
        return Raised(NotFound);
      }
      if !IsOwner(actor, inst.value) {
        return Raised(PermissionDenied);
      }
      var name := Naming.ValidateExposureLabel(if wanted.Some? then wanted.value else id);
      if name.None? {
        return Raised(InvalidName);
      }
      if !(0 < port < 65536) {
        return Raised(CawlFailure);
      }
      var free := LabelFree(name.value, id);
      if !free {
        return Raised(NameConflict);
      }
      var outcome := state.SetExposure(id, name.value, Exposure(port, Dedup(CleanAccess(access))));
      if !outcome.Exposed? {
        return Raised(NameConflict);
      }
      r := SyncExposures(id, ans);
    }

    method Unexpose(actor: Principal, id: string, name: string, ans: Answers) returns (r: Outcome)
      requires Valid()
      modifies state, ingress
      ensures Valid() && (World(), r) == UnexposeIt(cfg, old(World()), actor, id, name, ans)
    {
      hide C.SyncExposures, GrantsOf, ExposuresOf;
      var inst := GetOr404(id);
      if inst.None? {
        return Raised(NotFound);
      }
      if !IsOwner(actor, inst.value) {
        return Raised(PermissionDenied);
      }
      var outcome := state.RemoveExposure(id, name);
      if !outcome.Removed? {
        return Raised(NotFound);
      }
      r := SyncExposures(id, ans);
    }

    // ---- pause, resume, destroy ----

    method Stop(actor: Principal, id: string, ans: Answers) returns (r: Outcome)
      requires Valid()
      modifies state, ingress
      ensures Valid() && (World(), r) == StopIt(cfg, old(World()), actor, id, ans)
    {
      hide BeginOperation, CompleteOperation, GrantsOf, ExposuresOf;
      var found := GetOr404(id);
      if found.None? {
        return Raised(NotFound);
      }
      if !IsOwner(actor, found.value) {
        return Raised(PermissionDenied);
      }
      if found.value.status.Stopped? {
        return Returned(found.value);
      }
      if !found.value.status.Ready? {
        return Raised(CawlFailure);
      }
      RefusedBegin(state.View(), id, Kind.Stop, {Ready}, Stopping);
      var begun := state.BeginOperation(id, Kind.Stop, {Ready}, Stopping);
      if begun.None? {
        return Raised(CawlFailure);
      }
      var inst := begun.value;
      if !ans.unregister || Backend(cfg, inst) !in cfg.backends || !ans.stop {
        var _, _ := state.CompleteOperation(inst.(status := Ready, error := ans.reason), false);
        return Raised(CawlFailure);
      }
      var down, _ := state.CompleteOperation(inst.(status := Stopped, ip := None), true);
      var removed := ingress.Deregister(id, ans.deregister);
      if !removed {
        return Raised(CawlFailure);
      }
      return Returned(down);
    }

    method Start(actor: Principal, id: string, template: TemplateConfig, ans: Answers) returns (r: Outcome)
      requires Valid()
      modifies state, ingress
      ensures Valid() && (World(), r) == StartIt(cfg, old(World()), actor, id, template, ans)
    {
      hide C.BeginAndResume, GrantsOf, ExposuresOf;
      var found := GetOr404(id);
      if found.None? {
        return Raised(NotFound);
      }
      if !IsOwner(actor, found.value) {
        return Raised(PermissionDenied);
      }
      if found.value.status.Ready? {
        return Returned(found.value);
      }
      if !found.value.status.Stopped? {
        return Raised(CawlFailure);
      }
      r := BeginAndResume(id, template, ans);
    }

    /** `_destroy` */
    method Teardown(inst: Environment, ans: Answers) returns (r: Outcome)
      requires Valid()
      modifies this, state, ingress
      ensures Valid() && (World(), r) == C.Teardown(cfg, old(World()), inst, ans)
    {
      hide Upsert, Delete;
      var removed := ingress.Deregister(inst.id, ans.deregister);
      if !removed || !ans.unregister {
        return Raised(CawlFailure);
      }
      if Backend(cfg, inst) !in cfg.backends || !ans.destroy {
        state.Upsert(inst.(status := DestroyFailed, error := ans.reason));
        return Raised(CawlFailure);
      }
      alive := alive - {(Backend(cfg, inst), inst.id)};
      state.Delete(inst.id);
      return Done;
    }

    method Destroy(actor: Principal, id: string, ans: Answers) returns (r: Outcome)
      requires Valid()
      modifies this, state, ingress
      ensures Valid() && (World(), r) == DestroyIt(cfg, old(World()), actor, id, ans)
    {
      hide C.Teardown, GrantsOf, ExposuresOf;
      var inst := GetOr404(id);
      if inst.None? {
        return Raised(NotFound);
      }
      if !IsOwner(actor, inst.value) {
        return Raised(PermissionDenied);
      }
      r := Teardown(inst.value, ans);
    }

    /** One pass of the reaper over what had expired when it began, in the order the query lists
        it. */
    method Reap(actor: Principal, now: int, answers: nat -> Answers) returns (r: Outcome, order: seq<string>)
      requires Valid()
      modifies this, state, ingress
      ensures Valid()
      ensures !actor.admin ==> (World(), r) == (old(World()), Raised(PermissionDenied))
      ensures actor.admin ==>
        Lists(order, T.Expired(old(World()).t, now))
        && (World(), r) == C.Reap(cfg, old(World()), actor, now, order, answers)
    {
      hide C.Teardown, Expired;
      if !actor.admin {
        return Raised(PermissionDenied), [];
      }
      order := state.Expired(now);
      ListedRows(state.View(), now, order);
      var insts := Records(state.View(), order);
      for i := 0 to |insts|
        invariant Valid()
        invariant TeardownAll(cfg, World(), insts, answers, i) == TeardownAll(cfg, old(World()), insts, answers, 0)
      {
        r := Teardown(insts[i], answers(i));
        if r.Raised? {
          return;
        }
      }
      r := Done;
    }
  }

  lemma ListedRows(t: Tables, now: int, order: seq<string>)
    requires Lists(order, Expired(t, now))
    ensures forall i :: 0 <= i < |order| ==> order[i] in Expired(t, now) && order[i] in t.rows
  {
    hide Expired;
    forall i | 0 <= i < |order| ensures order[i] in Expired(t, now) {
      assert order[i] in (set id | id in order);
    }
    ExpiredRows(t, now);
  }

  lemma ExpiredRows(t: Tables, now: int)
    ensures Expired(t, now) <= t.rows.Keys
  {
  }

  lemma TakenChangesNothing(t: Tables, inst: Environment, quota: Option<nat>)
    requires Reserve(t, inst, quota).1.NameTaken?
    ensures Reserve(t, inst, quota).0 == t
  {
  }

  lemma RefusedCompletion(t: Tables, inst: Environment, succeeded: bool)
    ensures !CompleteOperation(t, inst, succeeded).2 ==> CompleteOperation(t, inst, succeeded) == (t, inst, false)
  {
  }

  lemma RefusedBegin(t: Tables, id: string, kind: Kind, expected: set<Status>, transitional: Status)
    ensures BeginOperation(t, id, kind, expected, transitional).1.None? ==>
      BeginOperation(t, id, kind, expected, transitional).0 == t
  {
  }

  /** A claim that is refused changes nothing. */
  lemma ClaimRefused(cfg: Settings, t: Tables, owner: string, key: ArgsKey, req: UpRequest, ttl: Option<nat>,
                     id: Option<string>)
    ensures !C.Claim(cfg, t, owner, key, req, ttl, id).1.Reserved? ==> C.Claim(cfg, t, owner, key, req, ttl, id).0 == t
  {
    hide Candidate, Naming.NewEnvironmentId;
    var quota := if req.quota.Some? then req.quota else cfg.defaultQuota;
    AnyRefused(t, Candidate(cfg, owner, key, req, ttl, ""), req, quota, 0);
  }

  lemma {:induction false} AnyRefused(t: Tables, inst: Environment, req: UpRequest, quota: Option<nat>, n: nat)
    ensures !ReserveAny(t, inst, req, quota, n).1.Reserved? ==> ReserveAny(t, inst, req, quota, n).0 == t
    decreases 10 - n
  {
    hide Naming.NewEnvironmentId;
    if n < 10 {
      AnyRefused(t, inst, req, quota, n + 1);
    }
  }
}
