/** The other half of conservation: which rows that say they run, or could, have an instance
    behind them. A ready row can lack one, and a run's requests tell exactly which do. */
module Backing {
  import opened Wrappers
  import opened Model
  import opened Tables
  import opened Config
  import opened Ingress
  import opened Control
  import opened Courses
  import opened Frames
  import Access
  import Commits
  import Fence
  import Lifecycle
  import Naming
  import Params
  import Strings
  import Ttl

  // ---- one provisioning ----

  /** Everything up to the commit works, publishing the routes does not, and the teardown that
      follows does. */
  predicate LosesInstance(cfg: Settings, t: Tables, id: string, expose: Expose, ans: Answers) {
    ans.create.Some? && ans.cert && ExposeDefaults(cfg, t, id, expose, 0).1 && !ans.sync && ans.destroy
  }

  /** The instance that a row records is alive. */
  ghost predicate HasInstance(cfg: Settings, w: World, k: string)
    requires k in w.t.rows
  {
    Alive(w, k, BackendNamed(cfg, w.t.rows[k].backend))
  }

  const RUNS_OR_COULD: set<Status> := {Ready, Stopped}

  /** Provisioning a reserved record leaves a row that is not running, or one whose instance is
      alive, except exactly when its instance is lost this way. */
  lemma ProvisionBacks(cfg: Settings, w: World, inst: Environment, expose: Expose, ans: Answers)
    requires Current(w.t, inst) && inst.backend == BackendNamed(cfg, inst.backend)
    ensures var w' := ProvisionIt(cfg, w, inst, expose, ans).0;
      && inst.id in w'.t.rows && w'.t.rows[inst.id].generation == w.t.rows[inst.id].generation
      && w'.t.rows[inst.id].backend == inst.backend
      && w.t.supply == w'.t.supply
      && ((w'.t.rows[inst.id].status in RUNS_OR_COULD ==> HasInstance(cfg, w', inst.id)) <==>
          !LosesInstance(cfg, w.t, inst.id, expose, ans))
      && (LosesInstance(cfg, w.t, inst.id, expose, ans) ==> w'.t.rows[inst.id].status.Ready?)
  {
    hide Abort, ExposeDefaults, Publish, Current, HasInstance, BackendNamed;
    var backend := inst.backend;
    CurrentStays(w.t, w.t, inst, inst.(ip := if ans.create.Some? then ans.create.value else None));
    var w0 := w.(overwrote := w.overwrote || exists a :: a in w.alive && a.1 == inst.id);
    if ans.create.None? {
      AbortLeaves(w0, inst, backend, false, ans);
    } else {
      var w1 := w0.(alive := w0.alive + {(backend, inst.id)});
      var inst1 := inst.(ip := ans.create.value);
      if !ans.cert {
        AbortLeaves(w1, inst1, backend, true, ans);
      } else {
        var (t2, exposed) := ExposeDefaults(cfg, w1.t, inst.id, expose, 0);
        Lifecycle.ExposureDefaultsOnly(cfg, w1.t, inst.id, expose, 0);
        var w2 := w1.(t := t2);
        CurrentStays(w.t, t2, inst1, inst1);
        if exposed {
          PublishBacks(cfg, w2, inst1, backend, ans);
        } else {
          AbortLeaves(w2, inst1, backend, true, ans);
        }
      }
    }
  }

  /** Holding the row's open operation is a matter of id, generation, operation, rows and operations. */
  lemma CurrentStays(t: Tables, t': Tables, inst: Environment, inst': Environment)
    requires Current(t, inst) && t'.rows == t.rows && t'.ops == t.ops
    requires inst' == inst.(ip := inst'.ip)
    ensures Current(t', inst') && t'.rows[inst.id].generation == t.rows[inst.id].generation && inst.id in t.rows
  {
  }

  /** Aborting before the commit leaves a row that is not running. */
  lemma AbortLeaves(w: World, inst: Environment, backend: string, created: bool, ans: Answers)
    requires Current(w.t, inst)
    ensures var w' := Abort(w, inst, backend, created, ans);
      && inst.id in w'.t.rows && w'.t.rows[inst.id].generation == w.t.rows[inst.id].generation
      && w'.t.rows[inst.id].backend == inst.backend
      && w'.t.rows[inst.id].status !in RUNS_OR_COULD && w.t.supply == w'.t.supply
  {
  }

  lemma PublishBacks(cfg: Settings, w: World, inst: Environment, backend: string, ans: Answers)
    requires Current(w.t, inst) && Alive(w, inst.id, backend)
    requires backend == inst.backend == BackendNamed(cfg, inst.backend)
    ensures var w' := Publish(cfg, w, inst, backend, ans).0;
      && inst.id in w'.t.rows && w'.t.rows[inst.id].generation == w.t.rows[inst.id].generation
      && w'.t.rows[inst.id].backend == inst.backend
      && w.t.supply == w'.t.supply
      && ((w'.t.rows[inst.id].status in RUNS_OR_COULD ==> HasInstance(cfg, w', inst.id)) <==> ans.sync || !ans.destroy)
      && (w'.t.rows[inst.id].status in RUNS_OR_COULD ==> w'.t.rows[inst.id].status.Ready?)
  {
    hide Publish;
    Commits.PublishCommits(cfg, w, inst, backend, ans);
  }

  // ---- every environment of a run ----

  /** A row drew its generation from the supply, and while it runs or could, its instance is alive
      exactly if its generation is not among the lost ones. A name without a row has neither
      grant nor exposure. */
  ghost predicate Backed(cfg: Settings, w: World, lost: set<nat>, k: string) {
    if k in w.t.rows then
      && w.t.rows[k].generation < w.t.supply
      && (w.t.rows[k].status in RUNS_OR_COULD ==> (HasInstance(cfg, w, k) <==> w.t.rows[k].generation !in lost))
    else
      (forall p :: !Granted(w.t, k, p)) && (forall n :: ExposureOf(w.t, k, n).None?)
  }

  ghost predicate AllBacked(cfg: Settings, w: World, lost: set<nat>) {
    && OpsSupplied(w.t) && (forall g :: g in lost ==> g < w.t.supply)
    && forall k :: Backed(cfg, w, lost, k)
  }

  lemma KeptIsBacked(cfg: Settings, w: World, w': World, lost: set<nat>, lost': set<nat>, k: string)
    requires Backed(cfg, w, lost, k) && Kept(w, w', k)
    requires lost <= lost' && forall g :: g in lost' - lost ==> g >= w.t.supply
    ensures Backed(cfg, w', lost', k)
  {
    assert RowOf(w.t, k) == RowOf(w'.t, k);
    if k in w.t.rows {
      var r := w.t.rows[k];
      assert Alive(w, k, BackendNamed(cfg, r.backend)) == Alive(w', k, BackendNamed(cfg, r.backend));
      assert r.generation in lost' && r.generation !in lost ==> r.generation in lost' - lost;
    }
  }

  lemma OneMoves(cfg: Settings, w: World, w': World, lost: set<nat>, lost': set<nat>, id: string)
    requires AllBacked(cfg, w, lost) && forall k :: k != id ==> Kept(w, w', k)
    requires lost <= lost' && forall g :: g in lost' - lost ==> w.t.supply <= g < w'.t.supply
    requires Backed(cfg, w', lost', id)
    ensures AllBacked(cfg, w', lost')
  {
    hide Backed, SameTables;
    assert Kept(w, w', id + "x");
    forall g | g in lost' ensures g < w'.t.supply {
      assert g in lost || g in lost' - lost;
    }
    forall k ensures Backed(cfg, w', lost', k) {
      if k != id {
        KeptIsBacked(cfg, w, w', lost, lost', k);
      }
    }
  }

  /** A row that keeps its generation, backend and instances stays backed, if it does not come
      to run. */
  ghost predicate Settles(w: World, w': World, k: string) {
    && k in w.t.rows && k in w'.t.rows && w.t.supply <= w'.t.supply
    && w'.t.rows[k].generation == w.t.rows[k].generation
    && (w'.t.rows[k].status in RUNS_OR_COULD ==>
          && w.t.rows[k].status in RUNS_OR_COULD && w'.t.rows[k].backend == w.t.rows[k].backend
          && forall b :: Alive(w, k, b) == Alive(w', k, b))
  }

  lemma SettledIsBacked(cfg: Settings, w: World, w': World, lost: set<nat>, k: string)
    requires Backed(cfg, w, lost, k) && Settles(w, w', k)
    ensures Backed(cfg, w', lost, k)
  {
  }

  lemma ResumeSettles(cfg: Settings, w: World, id: string, template: TemplateConfig, ans: Answers)
    requires OpsSupplied(w.t) && BeginAndResume(cfg, w, id, template, ans).0 != w
    ensures Settles(w, BeginAndResume(cfg, w, id, template, ans).0, id)
  {
    hide BeginAndResume, OpOf, Leases, ExposureOf, Granted, SameTables;
    var w' := BeginAndResume(cfg, w, id, template, ans).0;
    Access.BeginAndResumeResumes(cfg, w, id, template, ans);
    BeginAndResumeFrame(cfg, w, id, template, ans, id + "x");
    assert RowOf(w.t, id).Some? && RowOf(w'.t, id).Some?;
  }

  lemma StopSettles(cfg: Settings, w: World, actor: Principal, id: string, ans: Answers)
    requires StopIt(cfg, w, actor, id, ans).0 != w
    ensures Settles(w, StopIt(cfg, w, actor, id, ans).0, id)
  {
    hide StopIt, BeginOperation, CompleteOperation, GrantsOf, ExposuresOf;
    var begun, c, ok := Commits.StopCommits(cfg, w, actor, id, ans);
    Commits.BegunIsCurrent(w.t, id, Kind.Stop, {Ready}, Stopping);
    Fence.CompleteShape(begun, c, ok);
  }

  lemma TeardownSettles(cfg: Settings, w: World, inst: Environment, ans: Answers)
    requires inst.id in w.t.rows
    ensures Settles(w, Teardown(cfg, w, inst, ans).0, inst.id)
  {
  }

  lemma SyncSettles(cfg: Settings, w: World, t1: Tables, id: string, ans: Answers)
    requires id in w.t.rows && t1.rows == w.t.rows && t1.supply == w.t.supply
    ensures Settles(w, SyncExposures(cfg, w.(t := t1), id, ans).0, id)
  {
    hide PrimaryUrl, GrantsOf, ExposuresOf, Synced;
  }

  // ---- every call ----

  /** The generation of a reservation. */
  function GenerationOf(inst: Environment): set<nat> {
    match inst.generation
    case None => {}
    case Some(g) => {g}
  }

  /** An `up` that reserves a name, builds its spec, and then loses the instance it creates: all of
      it told from the request, the store and the answers. */
  ghost predicate Loses(cfg: Settings, t: Tables, r: Request) {
    && r.call.CallUp? && Reservation(cfg, t, r.actor, r.call.req).Some? && !Unbuildable(r.call.req, r.call.ans)
    && var (t1, inst) := Reservation(cfg, t, r.actor, r.call.req).value;
       LosesInstance(cfg, t1, inst.id, r.call.req.template.expose, r.call.ans)
  }

  ghost function LostBy(cfg: Settings, t: Tables, r: Request): set<nat> {
    if Loses(cfg, t, r) then GenerationOf(Reservation(cfg, t, r.actor, r.call.req).value.1) else {}
  }

  lemma ReservedIsBacked(cfg: Settings, w: World, candidate: Environment, quota: Option<nat>, lost: set<nat>)
    requires AllBacked(cfg, w, lost) && candidate.status.Creating? && Reserve(w.t, candidate, quota).1.Reserved?
    ensures var t1 := Reserve(w.t, candidate, quota).0;
      && Current(t1, Reserve(w.t, candidate, quota).1.inst)
      && t1.rows[candidate.id].generation == w.t.supply < t1.supply
      && Backed(cfg, w.(t := t1), lost, candidate.id)
  {
    hide Reserve;
    Fence.ReserveShape(w.t, candidate, quota);
  }

  lemma CreateBacked(cfg: Settings, w: World, owner: string, key: ArgsKey, req: UpRequest, id: Option<string>,
                     ans: Answers, lost: set<nat>)
    requires AllBacked(cfg, w, lost)
    requires Params.Resolve(req.template.params, req.args) == Some(key.args)
    ensures var r := Reserves(cfg, w.t, owner, key, req, id);
      AllBacked(cfg, Create(cfg, w, owner, key, req, id, ans).0,
                lost + if r.Some? && !Unbuildable(req, ans)
                          && LosesInstance(cfg, r.value.0, r.value.1.id, req.template.expose, ans)
                       then GenerationOf(r.value.1) else {})
  {
    hide Reserves, ProvisionIt, Reserve, Unbuildable, Create, Ttl.ParseTtl, Ttl.Expiry, SameTables, Backed;
    hide LosesInstance, Params.Resolve, HasInstance;
    CreateIs(cfg, w, owner, key, req, id, ans);
    assert lost + {} == lost;
    if Reserves(cfg, w.t, owner, key, req, id).Some? {
      var name, quota := ReservedIs(cfg, w.t, owner, key, req, id);
      var (t1, inst) := Reserves(cfg, w.t, owner, key, req, id).value;
      var w1, w' := w.(t := t1), Create(cfg, w, owner, key, req, id, ans).0;
      var candidate := Candidate(cfg, owner, key, req, Ttl.ParseTtl(TtlSpec(req)).value, name);
      ReservedIsBacked(cfg, w, candidate, quota, lost);
      forall k | k != name ensures Kept(w, w1, k) {
        ReserveFrame(w.t, candidate, quota, k);
      }
      if Unbuildable(req, ans) {
        OneMoves(cfg, w, w1, lost, lost, name);
      } else {
        var loses := LosesInstance(cfg, t1, name, req.template.expose, ans);
        var lost' := lost + if loses then {w.t.supply} else {};
        ProvisionBacks(cfg, w1, inst, req.template.expose, ans);
        ProvisionedIsBacked(cfg, w1, w', inst, lost, lost', loses);
        forall k | k != name ensures Kept(w, w', k) {
          assert Kept(w, w1, k);
          ProvisionFrame(cfg, w1, inst, req.template.expose, ans, k);
          KeptTwice(w, w1, w', k);
        }
        OneMoves(cfg, w, w', lost, lost', name);
      }
    }
  }

  lemma ProvisionedIsBacked(cfg: Settings, w1: World, w': World, inst: Environment, lost: set<nat>, lost': set<nat>,
                            loses: bool)
    requires inst.id in w1.t.rows && inst.id in w'.t.rows
    requires w'.t.rows[inst.id].generation == w1.t.rows[inst.id].generation < w1.t.supply <= w'.t.supply
    requires var g := w1.t.rows[inst.id].generation; g !in lost && lost' == lost + if loses then {g} else {}
    requires (w'.t.rows[inst.id].status in RUNS_OR_COULD ==> HasInstance(cfg, w', inst.id)) <==> !loses
    ensures Backed(cfg, w', lost', inst.id)
  {
  }

  lemma UpBacked(cfg: Settings, w: World, actor: Principal, req: UpRequest, ans: Answers, lost: set<nat>)
    requires AllBacked(cfg, w, lost)
    ensures AllBacked(cfg, Up(cfg, w, actor, req, ans).0, lost + LostBy(cfg, w.t, Request(actor, CallUp(req, ans))))
  {
    hide AllBacked, Create, CourseOf, Reserves, Unbuildable, Params.Resolve, BeginAndResume, GenerationOf;
    hide LosesInstance;
    assert lost + {} == lost;
    match CourseOf(cfg, w.t, actor, req)
    case Refuse(_) =>
    case HandBack(inst) => ResumeBacked(cfg, w, inst.id, req.template, ans, lost);
    case Make(owner, key, id) =>
      MadeOf(cfg, w.t, actor, req);
      CreateBacked(cfg, w, owner, key, req, id, ans, lost);
  }

  lemma ResumeBacked(cfg: Settings, w: World, id: string, template: TemplateConfig, ans: Answers, lost: set<nat>)
    requires AllBacked(cfg, w, lost)
    ensures AllBacked(cfg, BeginAndResume(cfg, w, id, template, ans).0, lost)
  {
    hide BeginAndResume, SameTables, Backed, Settles;
    var w' := BeginAndResume(cfg, w, id, template, ans).0;
    if w' != w {
      ResumeSettles(cfg, w, id, template, ans);
      forall k | k != id ensures Kept(w, w', k) { BeginAndResumeFrame(cfg, w, id, template, ans, k); }
      SettledIsBacked(cfg, w, w', lost, id);
      OneMoves(cfg, w, w', lost, lost, id);
    }
  }

  lemma TeardownBacked(cfg: Settings, w: World, inst: Environment, ans: Answers, lost: set<nat>)
    requires AllBacked(cfg, w, lost) && inst.id in w.t.rows
    ensures AllBacked(cfg, Teardown(cfg, w, inst, ans).0, lost)
    ensures inst.id in Teardown(cfg, w, inst, ans).0.t.rows
  {
    hide Teardown, SameTables, Backed;
    var w' := Teardown(cfg, w, inst, ans).0;
    TeardownSettles(cfg, w, inst, ans);
    forall k | k != inst.id ensures Kept(w, w', k) { TeardownFrame(cfg, w, inst, ans, k); }
    SettledIsBacked(cfg, w, w', lost, inst.id);
    OneMoves(cfg, w, w', lost, lost, inst.id);
  }

  lemma {:induction false} TeardownAllBacked(cfg: Settings, w: World, insts: seq<Environment>, answers: nat -> Answers,
                                             i: nat, lost: set<nat>)
    requires AllBacked(cfg, w, lost) && forall j :: i <= j < |insts| ==> insts[j].id in w.t.rows
    ensures AllBacked(cfg, TeardownAll(cfg, w, insts, answers, i).0, lost)
    decreases |insts| - i
  {
    hide Teardown, SameTables, Backed;
    if i < |insts| {
      TeardownBacked(cfg, w, insts[i], answers(i), lost);
      var w1 := Teardown(cfg, w, insts[i], answers(i)).0;
      forall j | i + 1 <= j < |insts| ensures insts[j].id in w1.t.rows {
        if insts[j].id != insts[i].id {
          TeardownFrame(cfg, w, insts[i], answers(i), insts[j].id);
          Lifecycle.SameRow(w.t, w1.t, insts[j].id);
        }
      }
      TeardownAllBacked(cfg, w1, insts, answers, i + 1, lost);
    }
  }

  /** A call that moves a row it found, and settles it. */
  lemma SettledStep(cfg: Settings, w: World, w': World, lost: set<nat>, id: string)
    requires AllBacked(cfg, w, lost) && forall k :: k != id ==> Kept(w, w', k)
    requires w' == w || Settles(w, w', id)
    ensures AllBacked(cfg, w', lost)
  {
    hide Backed, Settles, SameTables;
    if w' != w {
      SettledIsBacked(cfg, w, w', lost, id);
      OneMoves(cfg, w, w', lost, lost, id);
    }
  }

  lemma OthersBacked(cfg: Settings, w: World, r: Request, lost: set<nat>)
    requires AllBacked(cfg, w, lost) && !r.call.CallUp?
    ensures AllBacked(cfg, Step(cfg, w, r).0, lost)
  {
    hide StopIt, BeginAndResume, Teardown, SyncExposures, LabelFree, SameTables, Backed, Settles, AllBacked;
    hide GrantsOf, ExposuresOf, IsOwner, CleanAccess, Naming.ValidateExposureLabel, TeardownAll;
    var w' := Step(cfg, w, r).0;
    assert OpsSupplied(w.t) by { BackedSupplies(cfg, w, lost); }
    match r.call
    case CallStop(id, ans) =>
      forall k | k != id ensures Kept(w, w', k) { StopFrame(cfg, w, r.actor, id, ans, k); }
      if w' != w {
        StopSettles(cfg, w, r.actor, id, ans);
      }
      SettledStep(cfg, w, w', lost, id);
    case CallStart(id, template, ans) => ResumeBacked(cfg, w, id, template, ans, lost);
    case CallDestroy(id, ans) =>
      if id in w.t.rows {
        TeardownBacked(cfg, w, ToEnvironment(w.t, id), ans, lost);
      }
    case CallExpose(id, port, wanted, access, ans) =>
      forall k | k != id ensures Kept(w, w', k) { ExposeFrame(cfg, w, r.actor, id, port, wanted, access, ans, k); }
      var name := Naming.ValidateExposureLabel(if wanted.Some? then wanted.value else id);
      if name.Some? && id in w.t.rows {
        var exposure := Exposure(port, Strings.Dedup(CleanAccess(access)));
        SyncSettles(cfg, w, SetExposure(w.t, id, name.value, exposure).0, id, ans);
      }
      SettledStep(cfg, w, w', lost, id);
    case CallUnexpose(id, name, ans) =>
      forall k | k != id ensures Kept(w, w', k) { UnexposeFrame(cfg, w, r.actor, id, name, ans, k); }
      if id in w.t.rows {
        SyncSettles(cfg, w, RemoveExposure(w.t, id, name).0, id, ans);
      }
      SettledStep(cfg, w, w', lost, id);
    case CallShare(id, principal) =>
      forall k | k != id ensures Kept(w, w', k) { ShareFrame(w, r.actor, id, principal, k); }
      ShareSettles(w, r.actor, id, principal);
      SettledStep(cfg, w, w', lost, id);
    case CallUnshare(id, principal) =>
      forall k | k != id ensures Kept(w, w', k) { UnshareFrame(w, r.actor, id, principal, k); }
      ShareSettles(w, r.actor, id, principal);
      SettledStep(cfg, w, w', lost, id);
    case CallReap(now, order, answers) =>
      if Lists(order, Expired(w.t, now)) && r.actor.admin {
        assert forall i :: 0 <= i < |order| ==> order[i] in Expired(w.t, now);
        TeardownAllBacked(cfg, w, Records(w.t, order), answers, 0, lost);
      }
  }

  lemma BackedSupplies(cfg: Settings, w: World, lost: set<nat>)
    requires AllBacked(cfg, w, lost)
    ensures OpsSupplied(w.t)
  {
  }

  lemma ShareSettles(w: World, actor: Principal, id: string, principal: string)
    ensures var w' := ShareIt(w, actor, id, principal).0; w' == w || Settles(w, w', id)
    ensures var w' := UnshareIt(w, actor, id, principal).0; w' == w || Settles(w, w', id)
  {
    hide GrantsOf, ExposuresOf, IsOwner;
  }

  // ---- runs ----

  /** The generations whose instance a run loses, told from its requests. */
  ghost function Lost(cfg: Settings, requests: seq<Request>): set<nat> {
    if requests == [] then {}
    else
      var prefix, last := requests[..|requests| - 1], requests[|requests| - 1];
      Lost(cfg, prefix) + LostBy(cfg, Run(cfg, START, prefix).t, last)
  }

  lemma StepBacked(cfg: Settings, w: World, r: Request, lost: set<nat>)
    requires AllBacked(cfg, w, lost)
    ensures AllBacked(cfg, Step(cfg, w, r).0, lost + LostBy(cfg, w.t, r))
  {
    hide AllBacked, Up, Reservation, Unbuildable, LosesInstance, GenerationOf;
    match r.call
    case CallUp(req, ans) => UpBacked(cfg, w, r.actor, req, ans, lost);
    case _ =>
      hide Step;
      OthersBacked(cfg, w, r, lost);
      assert lost + {} == lost;
  }

  lemma {:induction false} RunBacked(cfg: Settings, requests: seq<Request>)
    ensures AllBacked(cfg, Run(cfg, START, requests), Lost(cfg, requests))
  {
    if requests == [] {
      assert forall k :: Backed(cfg, START, {}, k);
    } else {
      hide AllBacked, Step, LostBy;
      var prefix := requests[..|requests| - 1];
      RunBacked(cfg, prefix);
      StepBacked(cfg, Run(cfg, START, prefix), requests[|requests| - 1], Lost(cfg, prefix));
    }
  }

  /** In every run, a ready or stopped environment lacks the instance it records exactly when its
      generation was reserved by an `up` whose teardown worked after its routes did not. */
  lemma RowsWithoutInstance(cfg: Settings, requests: seq<Request>, id: string)
    ensures var w := Run(cfg, START, requests);
      id in w.t.rows && w.t.rows[id].status in {Ready, Stopped} ==>
        ((Backend(cfg, ToEnvironment(w.t, id)), id) !in w.alive <==> w.t.rows[id].generation in Lost(cfg, requests))
  {
    hide Run, Lost, GrantsOf, ExposuresOf;
    RunBacked(cfg, requests);
    assert Backed(cfg, Run(cfg, START, requests), Lost(cfg, requests), id);
  }
}
