/** Two-tier access: who can change what of a live environment, over every run of calls. */
module Access {
  import opened Wrappers
  import opened Model
  import opened Tables
  import opened Config
  import opened Control
  import opened Frames
  import Commits
  import Courses
  import Fence
  import Naming
  import Params
  import Ttl

  ghost predicate Live(t: Tables, k: string) {
    k in t.rows && !Dead(t.rows[k].status)
  }

  /** The one thing a grantee's call can move: `up` with the name of a stopped environment,
      asking to reuse it. */
  ghost predicate ResumesByName(w: World, r: Request, k: string) {
    && r.call.CallUp? && r.call.req.reuse && r.call.req.name.Some?
    && Naming.ValidateName(r.call.req.name.value) == Some(k)
    && k in w.t.rows && w.t.rows[k].status.Stopped?
  }

  ghost predicate MayMove(w: World, r: Request, k: string)
    requires k in w.t.rows
  {
    var env := ToEnvironment(w.t, k);
    IsOwner(r.actor, env) || (CanView(r.actor, env) && ResumesByName(w, r, k))
  }

  // ---- each call touches one environment ----

  lemma CreateTouches(cfg: Settings, w: World, owner: string, key: ArgsKey, req: UpRequest, id: Option<string>,
                      ans: Answers)
    returns (name: string)
    requires OpsSupplied(w.t)
    ensures forall k :: k != name ==> Kept(w, Create(cfg, w, owner, key, req, id, ans).0, k)
    ensures Create(cfg, w, owner, key, req, id, ans).0 != w ==> !Live(w.t, name)
  {
    hide Claim, ProvisionIt, Reserve, SpecBuilds, Ttl.ParseTtl, Candidate, SameTables;
    name := "";
    var ttl, w' := Ttl.ParseTtl(TtlSpec(req)), Create(cfg, w, owner, key, req, id, ans).0;
    if w' == w {
      forall k ensures Kept(w, w', k) { KeptSame(w, w', k); }
    } else {
      var quota: Option<nat>;
      name, quota := ClaimReserves(cfg, w.t, owner, key, req, ttl.value, id);
      var inst := Candidate(cfg, owner, key, req, ttl.value, name);
      CandidateName(cfg, owner, key, req, ttl.value, name);
      ReservedName(w.t, inst, quota);
      var (t1, outcome) := Reserve(w.t, inst, quota);
      var w1 := w.(t := t1);
      forall k | k != name ensures Kept(w, w', k) {
        ReserveFrame(w.t, inst, quota, k);
        assert Kept(w, w1, k);
        if SpecBuilds(req.template, outcome.inst, ans) {
          ProvisionFrame(cfg, w1, outcome.inst, req.template.expose, ans, k);
          KeptTwice(w, w1, w', k);
        }
      }
    }
  }

  lemma CandidateName(cfg: Settings, owner: string, key: ArgsKey, req: UpRequest, ttl: Option<nat>, id: string)
    ensures Candidate(cfg, owner, key, req, ttl, id).id == id
  {
  }

  lemma ReuseTouches(cfg: Settings, w: World, inst: Environment, template: TemplateConfig, ans: Answers)
    requires OpsSupplied(w.t)
    ensures forall k :: k != inst.id ==> Kept(w, Reuse(cfg, w, inst, template, ans).0, k)
    ensures Reuse(cfg, w, inst, template, ans).0 != w ==> inst.status.Stopped?
  {
    hide BeginAndResume, SameTables;
    var w' := Reuse(cfg, w, inst, template, ans).0;
    forall k | k != inst.id ensures Kept(w, w', k) {
      if inst.status.Stopped? {
        BeginAndResumeFrame(cfg, w, inst.id, template, ans, k);
      } else {
        KeptSame(w, w', k);
      }
    }
  }

  lemma UpTouches(cfg: Settings, w: World, actor: Principal, req: UpRequest, ans: Answers) returns (id: string)
    requires OpsSupplied(w.t)
    ensures var w' := Up(cfg, w, actor, req, ans).0;
      && (forall k :: k != id ==> Kept(w, w', k))
      && (w' != w && Live(w.t, id) ==> MayMove(w, Request(actor, CallUp(req, ans)), id))
  {
    hide Create, Reuse, CourseOf, GrantsOf, ExposuresOf, SameTables;
    id := "";
    var w' := Up(cfg, w, actor, req, ans).0;
    match CourseOf(cfg, w.t, actor, req)
    case Refuse(_) =>
      forall k ensures Kept(w, w', k) { KeptSame(w, w', k); }
    case HandBack(inst) =>
      id := inst.id;
      Courses.HandedBack(cfg, w.t, actor, req);
      ReuseTouches(cfg, w, inst, req.template, ans);
    case Make(owner, key, pinned) =>
      id := CreateTouches(cfg, w, owner, key, req, pinned, ans);
  }

  lemma StepTouches(cfg: Settings, w: World, r: Request) returns (id: string)
    requires OpsSupplied(w.t) && !r.call.CallReap?
    ensures var w' := Step(cfg, w, r).0;
      && (forall k :: k != id ==> Kept(w, w', k))
      && (w' != w && Live(w.t, id) ==> MayMove(w, r, id))
  {
    hide Up, StopIt, BeginAndResume, Teardown, SyncExposures, RemoveExposure, SetExposure, LabelFree, SameTables;
    hide GrantsOf, ExposuresOf, Naming.ValidateExposureLabel, ResumesByName, Upsert;
    var w' := Step(cfg, w, r).0;
    match r.call
    case CallUp(req, ans) => id := UpTouches(cfg, w, r.actor, req, ans);
    case CallStop(name, ans) =>
      id := name;
      StopOwner(cfg, w, r.actor, id, ans);
      forall k | k != id ensures Kept(w, w', k) { StopFrame(cfg, w, r.actor, id, ans, k); }
    case CallStart(name, template, ans) =>
      id := name;
      forall k | k != id ensures Kept(w, w', k) {
        KeptSame(w, w, k);
        BeginAndResumeFrame(cfg, w, id, template, ans, k);
      }
    case CallDestroy(name, ans) =>
      id := name;
      forall k | k != id ensures Kept(w, w', k) {
        KeptSame(w, w, k);
        if GetOr404(w.t, id).Some? {
          TeardownFrame(cfg, w, GetOr404(w.t, id).value, ans, k);
        }
      }
    case CallExpose(name, port, wanted, access, ans) =>
      id := name;
      forall k | k != id ensures Kept(w, w', k) { ExposeFrame(cfg, w, r.actor, id, port, wanted, access, ans, k); }
    case CallUnexpose(name, n, ans) =>
      id := name;
      forall k | k != id ensures Kept(w, w', k) { UnexposeFrame(cfg, w, r.actor, id, n, ans, k); }
    case CallShare(name, principal) =>
      id := name;
      forall k | k != id ensures Kept(w, w', k) { ShareFrame(w, r.actor, id, principal, k); }
    case CallUnshare(name, principal) =>
      id := name;
      forall k | k != id ensures Kept(w, w', k) { UnshareFrame(w, r.actor, id, principal, k); }
  }

  lemma StopOwner(cfg: Settings, w: World, actor: Principal, id: string, ans: Answers)
    ensures StopIt(cfg, w, actor, id, ans).0 != w ==> id in w.t.rows && IsOwner(actor, ToEnvironment(w.t, id))
  {
  }

  // ---- runs ----

  lemma {:induction false} TeardownAllSupplies(cfg: Settings, w: World, insts: seq<Environment>,
                                               answers: nat -> Answers, i: nat)
    requires OpsSupplied(w.t)
    ensures OpsSupplied(TeardownAll(cfg, w, insts, answers, i).0.t)
    decreases |insts| - i
  {
    hide Teardown, SameTables;
    if i < |insts| {
      TeardownFrame(cfg, w, insts[i], answers(i), insts[i].id + "x");
      TeardownAllSupplies(cfg, Teardown(cfg, w, insts[i], answers(i)).0, insts, answers, i + 1);
    }
  }

  lemma StepSupplies(cfg: Settings, w: World, r: Request)
    requires OpsSupplied(w.t)
    ensures OpsSupplied(Step(cfg, w, r).0.t)
  {
    hide Up, StopIt, StartIt, DestroyIt, ExposeIt, UnexposeIt, ShareIt, UnshareIt, TeardownAll, SameTables, MayMove;
    if r.call.CallReap? {
      if Lists(r.call.order, Expired(w.t, r.call.now)) && r.actor.admin {
        assert forall i :: 0 <= i < |r.call.order| ==> r.call.order[i] in Expired(w.t, r.call.now);
        TeardownAllSupplies(cfg, w, Records(w.t, r.call.order), r.call.answers, 0);
      }
    } else {
      var id := StepTouches(cfg, w, r);
      assert Kept(w, Step(cfg, w, r).0, id + "x");
    }
  }

  lemma {:induction false} RunSupplies(cfg: Settings, requests: seq<Request>)
    ensures OpsSupplied(Run(cfg, START, requests).t)
  {
    hide Step;
    if requests != [] {
      var prefix := requests[..|requests| - 1];
      RunSupplies(cfg, prefix);
      StepSupplies(cfg, Run(cfg, START, prefix), requests[|requests| - 1]);
    }
  }

  // ---- the two tiers ----

  /** Neither an admin, nor the owner, nor a grantee of an environment whose name is taken. */
  ghost predicate Stranger(t: Tables, actor: Principal, k: string) {
    && k in t.rows && t.rows[k].status != Destroyed && t.rows[k].status != Errored
    && !actor.admin && t.rows[k].owner != actor.id && (k, actor.id) !in t.grants
  }

  /** In every run, a stranger's call leaves a live environment's row, operations, leases, exposures,
      grants, instances and route file as they were. */
  lemma StrangersChangeNothing(cfg: Settings, requests: seq<Request>, r: Request, k: string)
    ensures var w := Run(cfg, START, requests);
      Stranger(w.t, r.actor, k) ==> Same(w, Step(cfg, w, r).0, k)
  {
    hide Run, Step, Same, ExposuresOf;
    var w := Run(cfg, START, requests);
    RunSupplies(cfg, requests);
    if Stranger(w.t, r.actor, k) {
      assert !CanView(r.actor, ToEnvironment(w.t, k));
      StrangerStep(cfg, w, r, k);
    }
  }

  lemma StrangerStep(cfg: Settings, w: World, r: Request, k: string)
    requires OpsSupplied(w.t) && Live(w.t, k) && !CanView(r.actor, ToEnvironment(w.t, k))
    ensures Same(w, Step(cfg, w, r).0, k)
  {
    hide Up, StopIt, StartIt, DestroyIt, ExposeIt, UnexposeIt, ShareIt, UnshareIt, TeardownAll, SameTables;
    hide GrantsOf, ExposuresOf, ResumesByName;
    KeptSame(w, w, k);
    if r.call.CallReap? {
      assert Step(cfg, w, r).0 == w;
    } else {
      var id := StepTouches(cfg, w, r);
      assert k != id ==> Kept(w, Step(cfg, w, r).0, k);
    }
  }

  /** What resuming changes of an environment: its status, address and error, and an operation
      more; whoever may see it and whatever it exposes stays. */
  ghost predicate Resumed(w: World, w': World, k: string) {
    && RowOf(w.t, k).Some? && RowOf(w'.t, k).Some?
    && (var r, r' := RowOf(w.t, k).value, RowOf(w'.t, k).value;
        r.status.Stopped? && r'.status in {Ready, Stopped}
        && r' == r.(status := r'.status, ip := r'.ip, error := r'.error))
    && (forall o :: OpOf(w.t, k, o).Some? ==> OpOf(w'.t, k, o) == OpOf(w.t, k, o))
    && (forall n :: Leases(w.t, k, n) == Leases(w'.t, k, n))
    && (forall n :: ExposureOf(w.t, k, n) == ExposureOf(w'.t, k, n))
    && (forall p :: Granted(w.t, k, p) == Granted(w'.t, k, p))
    && (forall b :: Alive(w, k, b) == Alive(w', k, b))
  }

  lemma BeginAndResumeResumes(cfg: Settings, w: World, id: string, template: TemplateConfig, ans: Answers)
    requires OpsSupplied(w.t)
    ensures var w' := BeginAndResume(cfg, w, id, template, ans).0; w' == w || Resumed(w, w', id)
  {
    hide BeginOperation, Resume, CompleteOperation, GrantsOf, ExposuresOf;
    Fence.BeginShape(w.t, id, Kind.Start, {Stopped}, Starting);
    if CanBegin(w.t, id, {Stopped}) {
      Commits.BegunIsCurrent(w.t, id, Kind.Start, {Stopped}, Starting);
      var (t1, inst) := BeginOperation(w.t, id, Kind.Start, {Stopped}, Starting);
      var c, ok := Commits.ResumeCommits(cfg, w.(t := t1), inst.value, template, ans);
      Fence.CompleteShape(t1, c, ok);
      var w' := BeginAndResume(cfg, w, id, template, ans).0;
      assert w'.t.ops == w.t.ops[w.t.supply := w'.t.ops[w.t.supply]];
      assert RowOf(w'.t, id).value == w.t.rows[id].(status := c.status, ip := c.ip, error := c.error);
    } else {
      assert BeginOperation(w.t, id, Kind.Start, {Stopped}, Starting).1.None?;
      assert BeginAndResume(cfg, w, id, template, ans).0 == w;
    }
  }

  /** In every run, the only change that anyone but an admin or the owner, a grantee that is, can make
      to a live environment is to resume it, from stopped, by asking `up` for it by name. */
  lemma GranteesOnlyResume(cfg: Settings, requests: seq<Request>, r: Request, k: string)
    ensures var w := Run(cfg, START, requests);
      var w' := Step(cfg, w, r).0;
      k in w.t.rows && w.t.rows[k].status != Destroyed && w.t.rows[k].status != Errored
      && !r.actor.admin && w.t.rows[k].owner != r.actor.id ==>
        Same(w, w', k) || (ResumesByName(w, r, k) && Resumed(w, w', k) && (k, r.actor.id) in w.t.grants)
  {
    hide Run, Step, Same, Resumed, ResumesByName, ExposuresOf, SameTables;
    var w := Run(cfg, START, requests);
    RunSupplies(cfg, requests);
    if Live(w.t, k) && !IsOwner(r.actor, ToEnvironment(w.t, k)) {
      GranteeStep(cfg, w, r, k);
      StrangersChangeNothing(cfg, requests, r, k);
    }
  }

  lemma GranteeStep(cfg: Settings, w: World, r: Request, k: string)
    requires OpsSupplied(w.t) && Live(w.t, k) && !IsOwner(r.actor, ToEnvironment(w.t, k))
    ensures var w' := Step(cfg, w, r).0; Same(w, w', k) || (ResumesByName(w, r, k) && Resumed(w, w', k))
  {
    hide Up, StopIt, StartIt, DestroyIt, ExposeIt, UnexposeIt, ShareIt, UnshareIt, TeardownAll, SameTables;
    hide GrantsOf, ExposuresOf, ResumesByName, Resumed;
    KeptSame(w, w, k);
    if r.call.CallReap? {
      assert Step(cfg, w, r).0 == w;
    } else {
      var id := StepTouches(cfg, w, r);
      assert k != id ==> Kept(w, Step(cfg, w, r).0, k);
      if id == k && Step(cfg, w, r).0 != w {
        NamedResumes(cfg, w, r, k);
      }
    }
  }

  lemma NamedResumes(cfg: Settings, w: World, r: Request, k: string)
    requires OpsSupplied(w.t) && ResumesByName(w, r, k)
    ensures Step(cfg, w, r).0 == w || Resumed(w, Step(cfg, w, r).0, k)
  {
    hide BeginAndResume, Create, LabelFree, Params.Resolve, GrantsOf, ExposuresOf, Resumed, CanView;
    hide Naming.ValidateName;
    BeginAndResumeResumes(cfg, w, k, r.call.req.template, r.call.ans);
  }
}
