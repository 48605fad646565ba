/** `up --reuse-if-exists`, asked twice: the second call hands back what the first one did. */
module Reuse {
  import opened Wrappers
  import opened Model
  import opened Tables
  import opened Config
  import opened Ingress
  import opened Control
  import opened Frames
  import opened StateStore
  import Access
  import Fence
  import Naming
  import Params
  import Ttl

  // ---- the clock ----

  ghost predicate Dated(t: Tables, k: string, date: int) {
    k in t.rows ==> t.rows[k].createdAt == date
  }

  lemma AbortDated(w: World, inst: Environment, backend: string, created: bool, ans: Answers)
    requires Dated(w.t, inst.id, inst.createdAt)
    ensures Dated(Abort(w, inst, backend, created, ans).t, inst.id, inst.createdAt)
  {
  }

  lemma {:induction false} ExposeDefaultsDated(cfg: Settings, t: Tables, id: string, expose: Expose, i: nat)
    ensures ExposeDefaults(cfg, t, id, expose, i).0.rows == t.rows
    decreases |expose.keys| - i
  {
    hide LabelFree, Naming.DefaultExposureLabel;
    if i < |expose.keys| {
      var name, exposure := Naming.DefaultExposureLabel(id, expose.keys[i]), Exposure(expose.ports[expose.keys[i]], []);
      ExposeDefaultsDated(cfg, SetExposure(t, id, name, exposure).0, id, expose, i + 1);
    }
  }

  lemma PublishDated(cfg: Settings, w: World, inst: Environment, backend: string, ans: Answers)
    requires Dated(w.t, inst.id, inst.createdAt)
    ensures Dated(Publish(cfg, w, inst, backend, ans).0.t, inst.id, inst.createdAt)
  {
  }

  lemma ProvisionDated(cfg: Settings, w: World, inst: Environment, expose: Expose, ans: Answers)
    requires Dated(w.t, inst.id, inst.createdAt)
    ensures Dated(ProvisionIt(cfg, w, inst, expose, ans).0.t, inst.id, inst.createdAt)
  {
    hide Abort, ExposeDefaults, Publish;
    var w0 := w.(overwrote := w.overwrote || exists a :: a in w.alive && a.1 == inst.id);
    AbortDated(w0, inst, inst.backend, false, ans);
    if ans.create.Some? {
      var w1 := w0.(alive := w0.alive + {(inst.backend, inst.id)});
      var inst1 := inst.(ip := ans.create.value);
      AbortDated(w1, inst1, inst.backend, true, ans);
      ExposeDefaultsDated(cfg, w1.t, inst.id, expose, 0);
      var w2 := w1.(t := ExposeDefaults(cfg, w1.t, inst.id, expose, 0).0);
      AbortDated(w2, inst1, inst.backend, true, ans);
      PublishDated(cfg, w2, inst1, inst.backend, ans);
    }
  }

  lemma CreateDated(cfg: Settings, w: World, owner: string, key: ArgsKey, req: UpRequest, id: Option<string>,
                    ans: Answers)
    returns (name: string)
    requires OpsSupplied(w.t)
    ensures var w' := Create(cfg, w, owner, key, req, id, ans).0;
      w' != w ==> Dated(w'.t, name, req.now) && forall k :: k != name ==> RowOf(w.t, k) == RowOf(w'.t, k)
  {
    hide Claim, ProvisionIt, Reserve, SpecBuilds, Ttl.ParseTtl, Ttl.Expiry, OpOf, Leases, ExposureOf, Granted;
    name := "";
    var w' := Create(cfg, w, owner, key, req, id, ans).0;
    if w' != w {
      var quota: Option<nat>;
      var ttl := Ttl.ParseTtl(TtlSpec(req)).value;
      name, quota := ClaimReserves(cfg, w.t, owner, key, req, ttl, id);
      var candidate := Candidate(cfg, owner, key, req, ttl, name);
      Fence.ReserveShape(w.t, candidate, quota);
      var (t1, r) := Reserve(w.t, candidate, quota);
      var w1 := w.(t := t1);
      ProvisionDated(cfg, w1, r.inst, req.template.expose, ans);
      forall k | k != name ensures RowOf(w.t, k) == RowOf(w'.t, k) {
        ReserveFrame(w.t, candidate, quota, k);
        ProvisionFrame(cfg, w1, r.inst, req.template.expose, ans, k);
      }
    }
  }

  /** A call leaves every row's creation time, or dates a new one by its own clock. */
  ghost predicate DatesKept(w: World, w': World, r: Request) {
    forall k :: k in w'.t.rows ==>
      || (k in w.t.rows && w'.t.rows[k].createdAt == w.t.rows[k].createdAt)
      || (r.call.CallUp? && w'.t.rows[k].createdAt == r.call.req.now)
  }

  ghost predicate DateKept(t: Tables, t': Tables, k: string) {
    k in t'.rows ==> k in t.rows && t'.rows[k].createdAt == t.rows[k].createdAt
  }

  lemma NoneDated(w: World, w': World, r: Request)
    requires forall k :: DateKept(w.t, w'.t, k)
    ensures DatesKept(w, w', r)
  {
    forall k | k in w'.t.rows ensures k in w.t.rows && w'.t.rows[k].createdAt == w.t.rows[k].createdAt {
      assert DateKept(w.t, w'.t, k);
    }
  }

  lemma ResumeDate(cfg: Settings, w: World, id: string, template: TemplateConfig, ans: Answers)
    requires OpsSupplied(w.t)
    ensures forall k :: DateKept(w.t, BeginAndResume(cfg, w, id, template, ans).0.t, k)
  {
    hide BeginAndResume, OpOf, Leases, ExposureOf, Granted;
    var w' := BeginAndResume(cfg, w, id, template, ans).0;
    Access.BeginAndResumeResumes(cfg, w, id, template, ans);
    forall k ensures DateKept(w.t, w'.t, k) {
      if k != id {
        BeginAndResumeFrame(cfg, w, id, template, ans, k);
        assert RowOf(w.t, k) == RowOf(w'.t, k);
      } else if w' != w {
        assert RowOf(w.t, k).Some? && RowOf(w'.t, k).Some?;
      }
    }
  }

  lemma StopDate(cfg: Settings, w: World, actor: Principal, id: string, ans: Answers)
    requires OpsSupplied(w.t)
    ensures forall k :: DateKept(w.t, StopIt(cfg, w, actor, id, ans).0.t, k)
  {
  }

  lemma TeardownDate(cfg: Settings, w: World, inst: Environment, ans: Answers)
    requires inst.id in w.t.rows && inst.createdAt == w.t.rows[inst.id].createdAt
    ensures var t' := Teardown(cfg, w, inst, ans).0.t; t'.rows.Keys == w.t.rows.Keys && forall k :: DateKept(w.t, t', k)
  {
  }

  lemma {:induction false} TeardownAllDates(cfg: Settings, w: World, insts: seq<Environment>,
                                            answers: nat -> Answers, i: nat)
    requires forall j :: i <= j < |insts| ==>
      insts[j].id in w.t.rows && insts[j].createdAt == w.t.rows[insts[j].id].createdAt
    ensures forall k :: DateKept(w.t, TeardownAll(cfg, w, insts, answers, i).0.t, k)
    decreases |insts| - i
  {
    hide Teardown;
    if i < |insts| {
      TeardownDate(cfg, w, insts[i], answers(i));
      var w1 := Teardown(cfg, w, insts[i], answers(i)).0;
      assert forall j :: i <= j < |insts| ==> DateKept(w.t, w1.t, insts[j].id);
      TeardownAllDates(cfg, w1, insts, answers, i + 1);
      var w2 := TeardownAll(cfg, w1, insts, answers, i + 1).0;
      forall k ensures DateKept(w.t, w2.t, k) {
        assert DateKept(w1.t, w2.t, k) && DateKept(w.t, w1.t, k);
      }
    }
  }

  lemma SyncDate(cfg: Settings, w: World, t1: Tables, id: string, ans: Answers)
    requires t1.rows == w.t.rows
    ensures forall k :: DateKept(w.t, SyncExposures(cfg, w.(t := t1), id, ans).0.t, k)
  {
  }

  lemma UpDates(cfg: Settings, w: World, actor: Principal, req: UpRequest, ans: Answers)
    requires OpsSupplied(w.t)
    ensures DatesKept(w, Up(cfg, w, actor, req, ans).0, Request(actor, CallUp(req, ans)))
  {
    hide Create, BeginAndResume, CourseOf;
    var w' := Up(cfg, w, actor, req, ans).0;
    match CourseOf(cfg, w.t, actor, req)
    case Refuse(_) =>
    case HandBack(inst) =>
      ResumeDate(cfg, w, inst.id, req.template, ans);
      if w' != w {
        NoneDated(w, w', Request(actor, CallUp(req, ans)));
      }
    case Make(owner, key, pinned) =>
      var name := CreateDated(cfg, w, owner, key, req, pinned, ans);
      forall k | k in w'.t.rows && k != name ensures k in w.t.rows && w'.t.rows[k] == w.t.rows[k] {
        assert RowOf(w.t, k) == RowOf(w'.t, k);
      }
  }

  lemma StepDates(cfg: Settings, w: World, r: Request)
    requires OpsSupplied(w.t)
    ensures DatesKept(w, Step(cfg, w, r).0, r)
  {
    hide Up, StopIt, BeginAndResume, Teardown, SyncExposures, LabelFree, GrantsOf, ExposuresOf, IsOwner, CleanAccess;
    hide Naming.ValidateExposureLabel, TeardownAll;
    var w' := Step(cfg, w, r).0;
    match r.call
    case CallUp(req, ans) => UpDates(cfg, w, r.actor, req, ans);
    case CallStop(id, ans) =>
      StopDate(cfg, w, r.actor, id, ans);
      NoneDated(w, w', r);
    case CallStart(id, template, ans) =>
      ResumeDate(cfg, w, id, template, ans);
      NoneDated(w, w', r);
    case CallDestroy(id, ans) =>
      if id in w.t.rows {
        TeardownDate(cfg, w, ToEnvironment(w.t, id), ans);
      }
      NoneDated(w, w', r);
    case CallExpose(id, port, wanted, access, ans) =>
      var name := Naming.ValidateExposureLabel(if wanted.Some? then wanted.value else id);
      if name.Some? {
        var exposure := Exposure(port, Strings.Dedup(CleanAccess(access)));
        SyncDate(cfg, w, SetExposure(w.t, id, name.value, exposure).0, id, ans);
      }
      NoneDated(w, w', r);
    case CallUnexpose(id, name, ans) =>
      SyncDate(cfg, w, RemoveExposure(w.t, id, name).0, id, ans);
      NoneDated(w, w', r);
    case CallShare(_, _) => assert w'.t.rows == w.t.rows;
    case CallUnshare(_, _) => assert w'.t.rows == w.t.rows;
    case CallReap(now, order, answers) =>
      if Lists(order, Expired(w.t, now)) && r.actor.admin {
        assert forall i :: 0 <= i < |order| ==> order[i] in Expired(w.t, now);
        TeardownAllDates(cfg, w, Records(w.t, order), answers, 0);
      }
      NoneDated(w, w', r);
  }

  ghost predicate AllBefore(requests: seq<Request>, now: int) {
    forall i :: 0 <= i < |requests| && requests[i].call.CallUp? ==> requests[i].call.req.now < now
  }

  lemma {:induction false} RowsAreOlder(cfg: Settings, requests: seq<Request>, now: int)
    requires AllBefore(requests, now)
    ensures forall id :: id in Run(cfg, START, requests).t.rows ==> Run(cfg, START, requests).t.rows[id].createdAt < now
  {
    hide Step;
    if requests != [] {
      var prefix, last := requests[..|requests| - 1], requests[|requests| - 1];
      assert forall i :: 0 <= i < |prefix| ==> prefix[i] == requests[i];
      RowsAreOlder(cfg, prefix, now);
      Access.RunSupplies(cfg, prefix);
      StepDates(cfg, Run(cfg, START, prefix), last);
    }
  }

  // ---- what a successful `up` hands back ----

  /** The row is running for this owner with these arguments, so a reusing `up` returns it. */
  ghost predicate Reusable(t: Tables, key: ArgsKey, owner: string, id: string) {
    Matches(t, key, owner, id) && t.rows[id].status !in {Stopped, Errored, DestroyFailed}
  }

  lemma ProvisionReturns(cfg: Settings, w: World, inst: Environment, expose: Expose, ans: Answers)
    requires ProvisionIt(cfg, w, inst, expose, ans).1.Returned?
    ensures var (w', outcome) := ProvisionIt(cfg, w, inst, expose, ans);
      outcome.inst.id == inst.id && Reusable(w'.t, inst.key, inst.owner, inst.id)
  {
    hide Abort, CompleteOperation, PrimaryUrl, Synced, ExposuresOf;
    var inst1 := inst.(ip := ans.create.value);
    var t2 := ExposeDefaults(cfg, w.t, inst.id, expose, 0).0;
    var ready := inst1.(exposures := ExposuresOf(t2, inst.id));
    Fence.CompleteShape(t2, ready.(url := PrimaryUrl(cfg, ready), status := Ready), true);
    CompletedId(t2, ready.(url := PrimaryUrl(cfg, ready), status := Ready), true);
  }

  lemma CompletedId(t: Tables, inst: Environment, ok: bool)
    ensures CompleteOperation(t, inst, ok).1.id == inst.id
  {
  }

  lemma CreateReturns(cfg: Settings, w: World, owner: string, key: ArgsKey, req: UpRequest, id: Option<string>,
                      ans: Answers)
    requires OpsSupplied(w.t)
    ensures var (w', outcome) := Create(cfg, w, owner, key, req, id, ans);
      outcome.Returned? ==>
        var name := outcome.inst.id;
        && Reusable(w'.t, key, owner, name) && w'.t.rows[name].createdAt == req.now
        && forall k :: k != name ==> RowOf(w.t, k) == RowOf(w'.t, k)
  {
    hide Claim, ProvisionIt, Reserve, SpecBuilds, Ttl.ParseTtl, Ttl.Expiry, OpOf, Leases, ExposureOf, Granted;
    if !Create(cfg, w, owner, key, req, id, ans).1.Returned? {
      return;
    }
    var w' := Create(cfg, w, owner, key, req, id, ans).0;
    var ttl := Ttl.ParseTtl(TtlSpec(req)).value;
    var name, quota := ClaimReserves(cfg, w.t, owner, key, req, ttl, id);
    var candidate := Candidate(cfg, owner, key, req, ttl, name);
    Fence.ReserveShape(w.t, candidate, quota);
    var (t1, r) := Reserve(w.t, candidate, quota);
    var w1 := w.(t := t1);
    ProvisionReturns(cfg, w1, r.inst, req.template.expose, ans);
    ProvisionDated(cfg, w1, r.inst, req.template.expose, ans);
    forall k | k != name ensures RowOf(w.t, k) == RowOf(w'.t, k) {
      ReserveFrame(w.t, candidate, quota, k);
      ProvisionFrame(cfg, w1, r.inst, req.template.expose, ans, k);
    }
  }

  lemma ReuseReturns(cfg: Settings, w: World, id: string, key: ArgsKey, owner: string, template: TemplateConfig,
                     ans: Answers)
    requires OpsSupplied(w.t) && Matches(w.t, key, owner, id) && !w.t.rows[id].status.Errored?
    requires Reuse(cfg, w, ToEnvironment(w.t, id), template, ans).1.Returned?
    ensures var (w', outcome) := Reuse(cfg, w, ToEnvironment(w.t, id), template, ans);
      && outcome.inst.id == id && Reusable(w'.t, key, owner, id)
      && w'.t.rows[id].createdAt == w.t.rows[id].createdAt
      && forall k :: k != id ==> RowOf(w.t, k) == RowOf(w'.t, k)
  {
    hide BeginAndResume, GrantsOf, ExposuresOf, OpOf, Leases, ExposureOf, Granted;
    if w.t.rows[id].status.Stopped? {
      var w' := BeginAndResume(cfg, w, id, template, ans).0;
      ResumeReturns(cfg, w, id, template, ans);
      Access.BeginAndResumeResumes(cfg, w, id, template, ans);
      assert RowOf(w.t, id).Some? && RowOf(w'.t, id).Some?;
      forall k | k != id ensures RowOf(w.t, k) == RowOf(w'.t, k) {
        BeginAndResumeFrame(cfg, w, id, template, ans, k);
      }
    }
  }

  lemma ResumeReturns(cfg: Settings, w: World, id: string, template: TemplateConfig, ans: Answers)
    requires BeginAndResume(cfg, w, id, template, ans).1.Returned?
    ensures var (w', outcome) := BeginAndResume(cfg, w, id, template, ans);
      outcome.inst.id == id && id in w'.t.rows && w'.t.rows[id].status.Ready?
  {
  }

  // ---- twice ----

  /** It stays the newest match when its own row keeps its key and date and no other row moves. */
  lemma StaysNewest(t: Tables, t': Tables, key: ArgsKey, owner: string, id: string)
    requires IsNewest(t, key, owner, id) && Matches(t', key, owner, id)
    requires t'.rows[id].createdAt == t.rows[id].createdAt
    requires forall k :: k != id ==> RowOf(t, k) == RowOf(t', k)
    ensures IsNewest(t', key, owner, id)
  {
    hide Strings.Le;
    forall k | Matches(t', key, owner, k) ensures NewerFirst(t', id, k) {
      assert k != id ==> RowOf(t, k) == RowOf(t', k);
      assert NewerFirst(t, id, k);
    }
  }

  lemma BecomesNewest(t: Tables, t': Tables, key: ArgsKey, owner: string, id: string)
    requires Matches(t', key, owner, id)
    requires forall k :: k in t.rows ==> t.rows[k].createdAt < t'.rows[id].createdAt
    requires forall k :: k != id ==> RowOf(t, k) == RowOf(t', k)
    ensures IsNewest(t', key, owner, id)
  {
    Strings.LeTotal(id, id);
    forall k | Matches(t', key, owner, k) ensures NewerFirst(t', id, k) {
      assert k != id ==> RowOf(t, k) == RowOf(t', k);
    }
  }

  /** The same question to `find`: template, resolved arguments and owner. */
  ghost predicate SameAsk(actor: Principal, req: UpRequest, actor': Principal, req': UpRequest) {
    && req.reuse && req'.reuse && req.name.None? && req'.name.None?
    && OwnerOf(actor, req) == OwnerOf(actor', req') && (OwnerOf(actor, req) == actor'.id || actor'.admin)
    && req.template.name == req'.template.name
    && Params.Resolve(req.template.params, req.args) == Params.Resolve(req'.template.params, req'.args)
  }

  /** With a clock that moves on at every `up`, a reusing `up` that succeeds is the last to change
      anything: another that asks for the same returns the same environment, whatever the outside
      answers, and leaves everything as it is. */
  lemma UpTwice(cfg: Settings, requests: seq<Request>, actor: Principal, req: UpRequest, ans: Answers,
                actor': Principal, req': UpRequest, ans': Answers)
    requires AllBefore(requests, req.now) && SameAsk(actor, req, actor', req')
    ensures var (w', outcome) := Up(cfg, Run(cfg, START, requests), actor, req, ans);
      outcome.Returned? ==>
        && outcome.inst.id in w'.t.rows
        && Up(cfg, w', actor', req', ans') == (w', Returned(ToEnvironment(w'.t, outcome.inst.id)))
  {
    hide Run, Up, Params.Resolve, GrantsOf, ExposuresOf;
    var w := Run(cfg, START, requests);
    if !Up(cfg, w, actor, req, ans).1.Returned? {
      return;
    }
    Access.RunSupplies(cfg, requests);
    RowsAreOlder(cfg, requests, req.now);
    FirstUp(cfg, w, actor, req, ans);
    var (w', outcome) := Up(cfg, w, actor, req, ans);
    var key := ArgsKey(req.template.name, Params.Resolve(req.template.params, req.args).value);
    SecondUp(cfg, w', actor', req', ans', key, outcome.inst.id);
  }

  lemma FirstUp(cfg: Settings, w: World, actor: Principal, req: UpRequest, ans: Answers)
    requires OpsSupplied(w.t) && (forall k :: k in w.t.rows ==> w.t.rows[k].createdAt < req.now)
    requires req.reuse && req.name.None?
    ensures var (w', outcome) := Up(cfg, w, actor, req, ans);
      outcome.Returned? ==>
        && Params.Resolve(req.template.params, req.args).Some?
        && var key := ArgsKey(req.template.name, Params.Resolve(req.template.params, req.args).value);
        && Reusable(w'.t, key, OwnerOf(actor, req), outcome.inst.id)
        && IsNewest(w'.t, key, OwnerOf(actor, req), outcome.inst.id)
  {
    hide Create, Reuse, Params.Resolve, GrantsOf, ExposuresOf, Latest, IsNewest;
    var (w', outcome) := Up(cfg, w, actor, req, ans);
    if !outcome.Returned? {
      return;
    }
    var owner := OwnerOf(actor, req);
    var key := ArgsKey(req.template.name, Params.Resolve(req.template.params, req.args).value);
    var existing := Latest(w.t, key, owner);
    if existing.Some? && !existing.value.status.Errored? {
      LatestIsNewest(w.t, key, owner);
      var id := existing.value.id;
      ReuseReturns(cfg, w, id, key, owner, req.template, ans);
      StaysNewest(w.t, w'.t, key, owner, id);
    } else {
      CreateReturns(cfg, w, owner, key, req, None, ans);
      BecomesNewest(w.t, w'.t, key, owner, outcome.inst.id);
    }
  }

  lemma LatestIsNewest(t: Tables, key: ArgsKey, owner: string)
    requires Latest(t, key, owner).Some?
    ensures var inst := Latest(t, key, owner).value;
      IsNewest(t, key, owner, inst.id) && Matches(t, key, owner, inst.id) && inst == ToEnvironment(t, inst.id)
  {
  }

  lemma SecondUp(cfg: Settings, w: World, actor: Principal, req: UpRequest, ans: Answers, key: ArgsKey, id: string)
    requires req.reuse && req.name.None? && (OwnerOf(actor, req) == actor.id || actor.admin)
    requires Params.Resolve(req.template.params, req.args) == Some(key.args) && req.template.name == key.template
    requires Reusable(w.t, key, OwnerOf(actor, req), id) && IsNewest(w.t, key, OwnerOf(actor, req), id)
    ensures Up(cfg, w, actor, req, ans) == (w, Returned(ToEnvironment(w.t, id)))
  {
    hide Create, BeginAndResume, Params.Resolve, GrantsOf, ExposuresOf, Latest, IsNewest;
    LatestIs(w.t, key, OwnerOf(actor, req), id);
  }
}
