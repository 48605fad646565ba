/** What calls that succeed leave behind, and what a second call undoes. */
module Effects {
  import opened Wrappers
  import opened Model
  import opened Tables
  import opened Config
  import opened Ingress
  import opened Control
  import opened Courses
  import opened Frames
  import Access
  import Backing
  import Commits
  import Fence
  import Lifecycle
  import Naming
  import Outcomes
  import Params
  import Strings
  import Ttl

  // ---- destroy ----

  /** Nothing of a destroyed environment is left but its row and its history: no lease, exposure,
      grant, route file or instance, under any backend. */
  lemma DestroyLeavesNothing(cfg: Settings, requests: seq<Request>, actor: Principal, id: string, ans: Answers)
    ensures var (w', outcome) := DestroyIt(cfg, Run(cfg, START, requests), actor, id, ans);
      outcome.Done? ==>
        && id in w'.t.rows && w'.t.rows[id].status.Destroyed?
        && (forall n :: !Leases(w'.t, id, n) && ExposureOf(w'.t, id, n).None?)
        && (forall p :: !Granted(w'.t, id, p))
        && (forall b :: !Alive(w', id, b))
        && FileOf(w', id).None?
  {
    hide Run, Upsert, GrantsOf, ExposuresOf, IsOwner;
    var w := Run(cfg, START, requests);
    var (w', outcome) := DestroyIt(cfg, w, actor, id, ans);
    if outcome.Done? {
      forall b ensures !Alive(w', id, b) {
        Lifecycle.NoOrphans(cfg, requests, b, id);
      }
    }
  }

  // ---- up ----

  /** The template's default exposures are all there, each on its port and under its own lease. */
  ghost predicate Exposes(t: Tables, id: string, expose: Expose, i: nat) {
    forall j :: i <= j < |expose.keys| ==>
      var name := Naming.DefaultExposureLabel(id, expose.keys[j]);
      ExposureOf(t, id, name) == Some(Exposure(expose.ports[expose.keys[j]], [])) && Leases(t, id, name)
  }

  lemma LabelsOfOneEnvironment(id: string, a: string, b: string)
    ensures Naming.DefaultExposureLabel(id, a) == Naming.DefaultExposureLabel(id, b) ==> a == b
  {
    var x, y := a + "--" + id, b + "--" + id;
    assert |x| == |a| + 2 + |id| && |y| == |b| + 2 + |id|;
    assert x[..|a|] == a && y[..|b|] == b;
  }

  lemma OneLabel(t: Tables, id: string, name: string, exposure: Exposure)
    requires SetExposure(t, id, name, exposure).1.Exposed?
    ensures var t' := SetExposure(t, id, name, exposure).0;
      && t' == t.(leases := t'.leases, exposures := t'.exposures)
      && ExposureOf(t', id, name) == Some(exposure) && Leases(t', id, name)
      && (forall n :: Leases(t, id, n) ==> Leases(t', id, n))
      && (forall n :: n != name ==> ExposureOf(t', id, n) == ExposureOf(t, id, n))
  {
  }

  lemma {:induction false} ExposeDefaultsExposes(cfg: Settings, t: Tables, id: string, expose: Expose, i: nat)
    requires ExposeDefaults(cfg, t, id, expose, i).1
    ensures var t' := ExposeDefaults(cfg, t, id, expose, i).0;
      && Exposes(t', id, expose, i)
      && t' == t.(leases := t'.leases, exposures := t'.exposures)
      && forall n :: (Leases(t, id, n) ==> Leases(t', id, n))
                     && (ExposureOf(t', id, n) == ExposureOf(t, id, n)
                         || exists j :: i <= j < |expose.keys| && n == Naming.DefaultExposureLabel(id, expose.keys[j]))
    decreases |expose.keys| - i
  {
    hide LabelFree, SetExposure, Naming.DefaultExposureLabel;
    if i < |expose.keys| {
      var name := Naming.DefaultExposureLabel(id, expose.keys[i]);
      var exposure := Exposure(expose.ports[expose.keys[i]], []);
      OneLabel(t, id, name, exposure);
      var t1 := SetExposure(t, id, name, exposure).0;
      ExposeDefaultsExposes(cfg, t1, id, expose, i + 1);
      var t' := ExposeDefaults(cfg, t, id, expose, i).0;
      assert Leases(t1, id, name);
      if j :| i + 1 <= j < |expose.keys| && name == Naming.DefaultExposureLabel(id, expose.keys[j]) {
        LabelsOfOneEnvironment(id, expose.keys[i], expose.keys[j]);
      }
      assert ExposureOf(t', id, name) == Some(exposure);
      forall n ensures ExposureOf(t', id, n) == ExposureOf(t, id, n)
          || exists j :: i <= j < |expose.keys| && n == Naming.DefaultExposureLabel(id, expose.keys[j])
      {
        assert n != name ==> ExposureOf(t1, id, n) == ExposureOf(t, id, n);
      }
    }
  }

  lemma ProvisionDelivers(cfg: Settings, w: World, inst: Environment, expose: Expose, ans: Answers)
    requires Current(w.t, inst)
    ensures var (w', outcome) := ProvisionIt(cfg, w, inst, expose, ans);
      var id, op := inst.id, inst.operation.value;
      outcome.Returned? ==>
        && outcome.inst.id == id && ans.create.Some?
        && id in w'.t.rows && w'.t.rows[id].status.Ready? && w'.t.rows[id].active.None?
        && w'.t.rows[id].ip == ans.create.value && w'.t.rows[id].owner == inst.owner && w'.t.rows[id].key == inst.key
        && w'.t.rows[id].backend == inst.backend && w'.t.rows[id].expiresAt == inst.expiresAt
        && Exposes(w'.t, id, expose, 0) && (forall n :: Leases(w.t, id, n) ==> Leases(w'.t, id, n))
        && Alive(w', id, inst.backend)
        && OpOf(w'.t, id, op) == Some(w.t.ops[op].(state := Succeeded))
  {
    hide Abort, CompleteOperation, PrimaryUrl, Synced, ExposuresOf, ExposeDefaults, Naming.DefaultExposureLabel;
    if !ProvisionIt(cfg, w, inst, expose, ans).1.Returned? {
      return;
    }
    var inst1 := inst.(ip := ans.create.value);
    var t2 := ExposeDefaults(cfg, w.t, inst.id, expose, 0).0;
    ExposeDefaultsExposes(cfg, w.t, inst.id, expose, 0);
    var ready := inst1.(exposures := ExposuresOf(t2, inst.id));
    var c := ready.(url := PrimaryUrl(cfg, ready), status := Ready);
    Fence.CompleteShape(t2, c, true);
    var w' := ProvisionIt(cfg, w, inst, expose, ans).0;
    assert w'.t == CompleteOperation(t2, c, true).0;
    Commits.CommitOnce(t2, c, true, c);
    forall j | 0 <= j < |expose.keys|
      ensures var name := Naming.DefaultExposureLabel(inst.id, expose.keys[j]);
        && ExposureOf(w'.t, inst.id, name) == ExposureOf(t2, inst.id, name)
        && Leases(w'.t, inst.id, name) == Leases(t2, inst.id, name)
    {
    }
  }

  /** A name nobody held, ready at the address the runtime reported, alive under its backend, its
      own id and every default exposure leased and in place, its lifetime the one asked for, its
      one operation succeeded. */
  ghost predicate Delivered(cfg: Settings, w: World, w': World, name: string, owner: string, key: ArgsKey,
                            req: UpRequest, ans: Answers)
  {
    && ans.create.Some? && !Access.Live(w.t, name)
    && name in w'.t.rows && w'.t.rows[name].status.Ready? && w'.t.rows[name].active.None?
    && w'.t.rows[name].ip == ans.create.value && w'.t.rows[name].owner == owner && w'.t.rows[name].key == key
    && Ttl.ParseTtl(TtlSpec(req)).Ok?
    && w'.t.rows[name].expiresAt == Ttl.Expiry(req.now, Ttl.ParseTtl(TtlSpec(req)).value, req.maxTtl)
    && w'.t.rows[name].backend in cfg.backends && Alive(w', name, w'.t.rows[name].backend)
    && Leases(w'.t, name, name) && Exposes(w'.t, name, req.template.expose, 0)
    && OpOf(w'.t, name, w.t.supply + 1) == Some(Operation(name, w.t.supply, Provision, Succeeded))
  }

  lemma ReservedWhole(t: Tables, inst: Environment, quota: Option<nat>)
    requires inst.status.Creating? && Reserve(t, inst, quota).1.Reserved?
    ensures var (t1, r) := Reserve(t, inst, quota);
      && r.inst == inst.(generation := Some(t.supply), operation := Some(t.supply + 1))
      && Current(t1, r.inst) && Leases(t1, inst.id, inst.id) && !Access.Live(t, inst.id)
      && t.supply + 1 in t1.ops && t1.ops[t.supply + 1] == Operation(inst.id, t.supply, Provision, Queued)
  {
    hide Reserve;
    Fence.ReserveShape(t, inst, quota);
  }

  lemma CreateDelivers(cfg: Settings, w: World, owner: string, key: ArgsKey, req: UpRequest, id: Option<string>,
                       ans: Answers)
    ensures var (w', outcome) := Create(cfg, w, owner, key, req, id, ans);
      outcome.Returned? ==>
        Delivered(cfg, w, w', outcome.inst.id, owner, key, req, ans) && (id.Some? ==> outcome.inst.id == id.value)
  {
    hide Claim, ProvisionIt, Reserve, SpecBuilds, Ttl.ParseTtl, Ttl.Expiry, Exposes, Current, OpOf, Leases, Alive;
    hide Access.Live;
    if !Create(cfg, w, owner, key, req, id, ans).1.Returned? {
      return;
    }
    var ttl := Ttl.ParseTtl(TtlSpec(req)).value;
    var name, quota := ClaimReserves(cfg, w.t, owner, key, req, ttl, id);
    var candidate := Candidate(cfg, owner, key, req, ttl, name);
    ReservedWhole(w.t, candidate, quota);
    var (t1, r) := Reserve(w.t, candidate, quota);
    ProvisionDelivers(cfg, w.(t := t1), r.inst, req.template.expose, ans);
  }

  // ---- what a name starts with ----

  predicate DefaultLabel(id: string, expose: Expose, n: string) {
    exists j :: 0 <= j < |expose.keys| && n == Naming.DefaultExposureLabel(id, expose.keys[j])
  }

  lemma ProvisionAdds(cfg: Settings, w: World, inst: Environment, expose: Expose, ans: Answers, n: string, p: string)
    requires Current(w.t, inst)
    ensures var (w', outcome) := ProvisionIt(cfg, w, inst, expose, ans);
      outcome.Returned? ==>
        && (Granted(w'.t, inst.id, p) <==> Granted(w.t, inst.id, p))
        && (ExposureOf(w'.t, inst.id, n).Some? <==>
            ExposureOf(w.t, inst.id, n).Some? || DefaultLabel(inst.id, expose, n))
  {
    hide Abort, CompleteOperation, PrimaryUrl, Synced, ExposuresOf, ExposeDefaults, Naming.DefaultExposureLabel;
    if !ProvisionIt(cfg, w, inst, expose, ans).1.Returned? {
      return;
    }
    var inst1 := inst.(ip := ans.create.value);
    var t2 := ExposeDefaults(cfg, w.t, inst.id, expose, 0).0;
    ExposeDefaultsExposes(cfg, w.t, inst.id, expose, 0);
    var ready := inst1.(exposures := ExposuresOf(t2, inst.id));
    var c := ready.(url := PrimaryUrl(cfg, ready), status := Ready);
    Fence.CompleteShape(t2, c, true);
    var w' := ProvisionIt(cfg, w, inst, expose, ans).0;
    assert w'.t == CompleteOperation(t2, c, true).0;
    assert ExposureOf(w'.t, inst.id, n) == ExposureOf(t2, inst.id, n);
    if j :| 0 <= j < |expose.keys| && n == Naming.DefaultExposureLabel(inst.id, expose.keys[j]) {
      assert ExposureOf(t2, inst.id, Naming.DefaultExposureLabel(inst.id, expose.keys[j])).Some?;
    }
    KeptExposures(cfg, w.t, inst.id, expose, 0, n);
  }

  lemma {:induction false} KeptExposures(cfg: Settings, t: Tables, id: string, expose: Expose, i: nat, n: string)
    ensures ExposureOf(t, id, n).Some? ==> ExposureOf(ExposeDefaults(cfg, t, id, expose, i).0, id, n).Some?
    decreases |expose.keys| - i
  {
    hide LabelFree, Naming.DefaultExposureLabel;
    if i < |expose.keys| {
      var name, exposure := Naming.DefaultExposureLabel(id, expose.keys[i]), Exposure(expose.ports[expose.keys[i]], []);
      KeptExposures(cfg, SetExposure(t, id, name, exposure).0, id, expose, i + 1, n);
    }
  }

  /** In every run, an `up` that makes an environment and returns delivers it, with no grant and
      exactly its template's exposures, whoever held the name before. */
  lemma UpDelivers(cfg: Settings, requests: seq<Request>, actor: Principal, req: UpRequest, ans: Answers)
    ensures var w := Run(cfg, START, requests);
      var (w', outcome) := Up(cfg, w, actor, req, ans);
      var course := CourseOf(cfg, w.t, actor, req);
      course.Make? && outcome.Returned? ==>
        var name := outcome.inst.id;
        && Delivered(cfg, w, w', name, course.owner, course.key, req, ans)
        && (forall p :: !Granted(w'.t, name, p))
        && (forall n :: ExposureOf(w'.t, name, n).Some? <==> DefaultLabel(name, req.template.expose, n))
  {
    hide Run, CourseOf, Create, Delivered, ExposureOf, DefaultLabel, Granted;
    var w := Run(cfg, START, requests);
    var course := CourseOf(cfg, w.t, actor, req);
    var (w', outcome) := Up(cfg, w, actor, req, ans);
    if course.Make? && outcome.Returned? {
      CreateDelivers(cfg, w, course.owner, course.key, req, course.id, ans);
      forall p ensures !Granted(w'.t, outcome.inst.id, p) {
        UpStartsClean(cfg, requests, actor, req, ans, "", p);
      }
      forall n ensures ExposureOf(w'.t, outcome.inst.id, n).Some? <==>
          DefaultLabel(outcome.inst.id, req.template.expose, n)
      {
        UpStartsClean(cfg, requests, actor, req, ans, n, "");
      }
    }
  }

  lemma UpStartsClean(cfg: Settings, requests: seq<Request>, actor: Principal, req: UpRequest, ans: Answers,
                      n: string, p: string)
    ensures var w := Run(cfg, START, requests);
      var (w', outcome) := Up(cfg, w, actor, req, ans);
      CourseOf(cfg, w.t, actor, req).Make? && outcome.Returned? ==>
        var name := outcome.inst.id;
        && !Granted(w'.t, name, p)
        && (ExposureOf(w'.t, name, n).Some? <==> DefaultLabel(name, req.template.expose, n))
  {
    hide Run, CourseOf, Reserves, Create, ProvisionIt, Granted, ExposureOf, DefaultLabel, Unbuildable, Params.Resolve;
    hide Backing.Backed, Reserve, Backing.Lost;
    var w := Run(cfg, START, requests);
    match CourseOf(cfg, w.t, actor, req)
    case Make(owner, key, id) =>
      MadeOf(cfg, w.t, actor, req);
      CreateIs(cfg, w, owner, key, req, id, ans);
      if Create(cfg, w, owner, key, req, id, ans).1.Returned? {
        var name, quota := ReservedIs(cfg, w.t, owner, key, req, id);
        var (t1, inst) := Reserves(cfg, w.t, owner, key, req, id).value;
        var candidate := Candidate(cfg, owner, key, req, Ttl.ParseTtl(TtlSpec(req)).value, name);
        Backing.RunBacked(cfg, requests);
        ReservesClean(cfg, w, Backing.Lost(cfg, requests), candidate, quota, n, p);
        ProvisionAdds(cfg, w.(t := t1), inst, req.template.expose, ans, n, p);
        ProvisionDelivers(cfg, w.(t := t1), inst, req.template.expose, ans);
      }
    case _ =>
  }

  lemma ReservesClean(cfg: Settings, w: World, lost: set<nat>, candidate: Environment, quota: Option<nat>, n: string,
                      p: string)
    requires Backing.AllBacked(cfg, w, lost) && candidate.status.Creating?
    requires Reserve(w.t, candidate, quota).1.Reserved?
    ensures var (t1, r) := Reserve(w.t, candidate, quota);
      && Current(t1, r.inst) && !Granted(t1, candidate.id, p) && ExposureOf(t1, candidate.id, n).None?
  {
    hide Reserve;
    Fence.ReserveShape(w.t, candidate, quota);
    assert Backing.Backed(cfg, w, lost, candidate.id);
    assert candidate.id !in w.t.rows ==>
      !Granted(w.t, candidate.id, p) && ExposureOf(w.t, candidate.id, n).None?;
  }

  // ---- stop and start ----

  /** Stopping and starting gives the environment back: the row is as it was but for the address
      the runtime now reports, exposures, leases and grants are untouched, and the routes, gone in
      between, are the same exposures at the new address. */
  lemma StopThenStart(cfg: Settings, w: World, actor: Principal, id: string, template: TemplateConfig,
                      stopping: Answers, starting: Answers)
    requires id in w.t.rows && w.t.rows[id].status.Ready?
    ensures var (w1, stopped) := StopIt(cfg, w, actor, id, stopping);
      var (w2, started) := StartIt(cfg, w1, actor, id, template, starting);
      stopped.Returned? && started.Returned? ==>
        && FileOf(w1, id).None? && id in w1.t.rows && w1.t.rows[id].status.Stopped? && w1.t.rows[id].ip.None?
        && starting.start.Some?
        && w2.t.rows == w.t.rows[id := w.t.rows[id].(ip := starting.start.value)]
        && w2.t.exposures == w.t.exposures && w2.t.leases == w.t.leases && w2.t.grants == w.t.grants
        && w2.alive == w.alive
        && FileOf(w2, id) == Lifecycle.Expected(cfg, w2.t, id)
  {
    hide StopIt, BeginOperation, CompleteOperation, Resume, GrantsOf, ExposuresOf, IsOwner, Synced, Lifecycle.Expected;
    var (w1, stopped) := StopIt(cfg, w, actor, id, stopping);
    var (w2, started) := StartIt(cfg, w1, actor, id, template, starting);
    if !stopped.Returned? || !started.Returned? {
      return;
    }
    StopReturns(cfg, w, actor, id, stopping);
    StartReturns(cfg, w1, actor, id, template, starting);
    assert w2.t.rows == w.t.rows[id := w.t.rows[id].(ip := starting.start.value)];
  }

  lemma StopReturns(cfg: Settings, w: World, actor: Principal, id: string, ans: Answers)
    requires id in w.t.rows && w.t.rows[id].status.Ready? && StopIt(cfg, w, actor, id, ans).1.Returned?
    ensures var w' := StopIt(cfg, w, actor, id, ans).0;
      && FileOf(w', id).None? && w.t.rows[id].active.None?
      && w'.t.rows == w.t.rows[id := w.t.rows[id].(status := Stopped, ip := None)]
      && w'.t.exposures == w.t.exposures && w'.t.leases == w.t.leases && w'.t.grants == w.t.grants
      && w'.alive == w.alive
  {
  }

  lemma StartReturns(cfg: Settings, w: World, actor: Principal, id: string, template: TemplateConfig, ans: Answers)
    requires id in w.t.rows && w.t.rows[id].status.Stopped? && StartIt(cfg, w, actor, id, template, ans).1.Returned?
    ensures var w' := StartIt(cfg, w, actor, id, template, ans).0;
      && ans.start.Some?
      && w'.t.rows == w.t.rows[id := w.t.rows[id].(status := Ready, ip := ans.start.value)]
      && w'.t.exposures == w.t.exposures && w'.t.leases == w.t.leases && w'.t.grants == w.t.grants
      && w'.alive == w.alive
      && FileOf(w', id) == Lifecycle.Expected(cfg, w'.t, id)
  {
    hide StartIt, BeginAndResume, Outcomes.HookRenders, Outcomes.OneOperation, Lifecycle.Expected;
    Outcomes.StartIs(cfg, w, actor, id, template, ans);
    Outcomes.ResumeOutcome(cfg, w, id, template, ans);
    StartRoutes(cfg, w, id, template, ans);
  }

  lemma StartRoutes(cfg: Settings, w: World, id: string, template: TemplateConfig, ans: Answers)
    requires id in w.t.rows && w.t.rows[id].status.Stopped? && w.t.rows[id].active.None?
    requires BeginAndResume(cfg, w, id, template, ans).1.Returned?
    ensures var w' := BeginAndResume(cfg, w, id, template, ans).0;
      FileOf(w', id) == Lifecycle.Expected(cfg, w'.t, id)
  {
    hide BeginOperation, CompleteOperation, Resume, GrantsOf, ExposuresOf, Synced, Lifecycle.Expected, SpecBuilds;
    Fence.BeginShape(w.t, id, Kind.Start, {Stopped}, Starting);
    var (t1, begun) := BeginOperation(w.t, id, Kind.Start, {Stopped}, Starting);
    Commits.BegunIsCurrent(w.t, id, Kind.Start, {Stopped}, Starting);
    var c, ok := Commits.ResumeCommits(cfg, w.(t := t1), begun.value, template, ans);
    Lifecycle.CommitRoutes(cfg, t1, c, ok, w.files);
  }

  // ---- expose and unexpose, share and unshare ----

  /** Exposing an environment under its own generated id, as `expose` does without a name, is
      refused as an invalid name exactly when that id starts with a digit. */
  lemma BareExposeRefused(cfg: Settings, w: World, actor: Principal, template: string, token: string, port: int,
                          access: seq<string>, ans: Answers)
    requires Naming.IsToken(token)
    ensures var id := Naming.NewEnvironmentId(template, token);
      id in w.t.rows && !w.t.rows[id].status.Destroyed? && IsOwner(actor, ToEnvironment(w.t, id)) ==>
        (ExposeIt(cfg, w, actor, id, port, None, access, ans).1 == Raised(InvalidName) <==>
         !Strings.IsLowerLetter(id[0]))
  {
    hide ExposeIt, GrantsOf, ExposuresOf, IsOwner, Naming.ValidateExposureLabel, Naming.Sanitize, Naming.Slug;
    hide Naming.LabelShape, Naming.NameShape;
    var id := Naming.NewEnvironmentId(template, token);
    Naming.GeneratedIdAccepted(template, token);
    Naming.GeneratedIdShape(template, token);
    assert id[0] == Naming.Sanitize(template, 30)[0];
    BareExpose(cfg, w, actor, id, port, access, ans);
  }

  lemma BareExpose(cfg: Settings, w: World, actor: Principal, id: string, port: int, access: seq<string>, ans: Answers)
    ensures id in w.t.rows && !w.t.rows[id].status.Destroyed? && IsOwner(actor, ToEnvironment(w.t, id)) ==>
      (ExposeIt(cfg, w, actor, id, port, None, access, ans).1 == Raised(InvalidName) <==>
       Naming.ValidateExposureLabel(id).None?)
  {
    hide LabelFree, SetExposure, SyncExposures, GrantsOf, ExposuresOf, IsOwner, CleanAccess;
    hide Naming.ValidateExposureLabel;
    var name := Naming.ValidateExposureLabel(id);
    if name.Some? && id in w.t.rows && !w.t.rows[id].status.Destroyed? {
      var exposure := Exposure(port, Strings.Dedup(CleanAccess(access)));
      Lifecycle.ExposureRowsOnly(w.t, id, name.value, exposure);
      SyncKeepsLabels(cfg, w.(t := SetExposure(w.t, id, name.value, exposure).0), id, ans);
    }
  }

  /** Nobody exposes the label or leases it, unless it is the environment's own id, which it leases
      as long as it has not been deleted. */
  ghost predicate Unexposed(t: Tables, id: string, name: string) {
    name !in t.exposures && (name in t.leases ==> name == id && t.leases[name] == id)
  }

  /** Exposing a label that is free to the environment and unexposing it again leaves exposures and
      grants as they were, and leases too, but for the environment's own id, which it keeps. */
  lemma ExposeThenUnexpose(cfg: Settings, w: World, actor: Principal, id: string, port: int, wanted: Option<string>,
                           access: seq<string>, name: string, exposing: Answers, unexposing: Answers)
    requires Unexposed(w.t, id, name)
    ensures var (w1, exposed) := ExposeIt(cfg, w, actor, id, port, wanted, access, exposing);
      var (w2, outcome) := UnexposeIt(cfg, w1, actor, id, name, unexposing);
      exposed.Returned? && Naming.ValidateExposureLabel(if wanted.Some? then wanted.value else id) == Some(name) ==>
        && ExposureOf(w1.t, id, name) == Some(Exposure(port, Strings.Dedup(CleanAccess(access))))
        && Leases(w1.t, id, name)
        && outcome != Raised(NotFound) && outcome != Raised(PermissionDenied)
        && w2.t.exposures == w.t.exposures && w2.t.grants == w.t.grants
        && w2.t.leases == (if name == id then w.t.leases[id := id] else w.t.leases)
  {
    hide LabelFree, GrantsOf, ExposuresOf, IsOwner, Naming.ValidateExposureLabel, CleanAccess;
    hide SetExposure, RemoveExposure, SyncExposures;
    if !ExposeIt(cfg, w, actor, id, port, wanted, access, exposing).1.Returned?
       || Naming.ValidateExposureLabel(if wanted.Some? then wanted.value else id) != Some(name)
    {
      return;
    }
    var exposure := Exposure(port, Strings.Dedup(CleanAccess(access)));
    var t1 := SetExposure(w.t, id, name, exposure).0;
    LabelSet(w.t, id, name, exposure);
    SyncKeepsLabels(cfg, w.(t := t1), id, exposing);
    var w1 := ExposeIt(cfg, w, actor, id, port, wanted, access, exposing).0;
    LabelRemoved(w.t, t1, w1.t, id, name, exposure);
    SyncKeepsLabels(cfg, w1.(t := RemoveExposure(w1.t, id, name).0), id, unexposing);
    OwnerStays(w.t, w1.t, actor, id);
  }

  lemma LabelSet(t: Tables, id: string, name: string, exposure: Exposure)
    requires id in t.rows && Unexposed(t, id, name)
    ensures SetExposure(t, id, name, exposure)
      == (t.(leases := t.leases[name := id], exposures := t.exposures[name := ExposureRow(id, exposure)]), Exposed)
  {
  }

  lemma LabelRemoved(t: Tables, t1: Tables, t2: Tables, id: string, name: string, exposure: Exposure)
    requires id in t2.rows && Unexposed(t, id, name)
    requires t1 == t.(leases := t.leases[name := id], exposures := t.exposures[name := ExposureRow(id, exposure)])
    requires t2.leases == t1.leases && t2.exposures == t1.exposures && t2.grants == t1.grants
    ensures ExposureOf(t2, id, name) == Some(exposure) && Leases(t2, id, name)
    ensures var (t3, outcome) := RemoveExposure(t2, id, name);
      && outcome.Removed? && t3.exposures == t.exposures && t3.grants == t.grants && t3.rows == t2.rows
      && t3.leases == (if name == id then t.leases[id := id] else t.leases)
  {
  }

  lemma SyncKeepsLabels(cfg: Settings, w: World, id: string, ans: Answers)
    requires id in w.t.rows && !w.t.rows[id].status.Destroyed?
    ensures var (w', outcome) := SyncExposures(cfg, w, id, ans);
      && w'.t.exposures == w.t.exposures && w'.t.leases == w.t.leases && w'.t.grants == w.t.grants
      && id in w'.t.rows && w'.t.rows[id].owner == w.t.rows[id].owner && !w'.t.rows[id].status.Destroyed?
      && (outcome.Returned? || outcome == Raised(CawlFailure))
  {
  }

  lemma OwnerStays(t: Tables, t': Tables, actor: Principal, id: string)
    requires id in t.rows && id in t'.rows && t.rows[id].owner == t'.rows[id].owner
    ensures IsOwner(actor, ToEnvironment(t, id)) == IsOwner(actor, ToEnvironment(t', id))
  {
  }

  /** A grant admits its principal, and revoking one that was not there before leaves everything
      as it was. */
  lemma ShareThenUnshare(w: World, actor: Principal, id: string, principal: string)
    requires !Granted(w.t, id, principal) && ShareIt(w, actor, id, principal).1.Returned?
    ensures var (w1, outcome) := ShareIt(w, actor, id, principal);
      && CanView(Principal(principal, false), outcome.inst)
      && UnshareIt(w1, actor, id, principal).0 == w
      && UnshareIt(w1, actor, id, principal).1.Returned?
  {
  }
}
