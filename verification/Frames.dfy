/** What one call can touch: every call of the control plane moves at most one environment
    (the reaper, one after another), and only an actor the access policy lets through. */
module Frames {
  import opened Wrappers
  import opened Model
  import opened Tables
  import opened Config
  import opened Ingress
  import opened Control
  import Naming
  import StateStore
  import Strings
  import Ttl

  // ---- an environment's part of the world ----

  function RowOf(t: Tables, k: string): Option<Row> {
    if k in t.rows then Some(t.rows[k]) else None
  }

  function OpOf(t: Tables, k: string, o: nat): Option<Operation> {
    if o in t.ops && t.ops[o].env == k then Some(t.ops[o]) else None
  }

  predicate Leases(t: Tables, k: string, n: string) {
    n in t.leases && t.leases[n] == k
  }

  function ExposureOf(t: Tables, k: string, n: string): Option<Exposure> {
    if n in t.exposures && t.exposures[n].env == k then Some(t.exposures[n].exposure) else None
  }

  predicate Granted(t: Tables, k: string, p: string) {
    (k, p) in t.grants
  }

  predicate Alive(w: World, k: string, b: string) {
    (b, k) in w.alive
  }

  function FileOf(w: World, k: string): Option<RouteDoc> {
    if k in w.files then Some(w.files[k]) else None
  }

  ghost predicate SameTables(t: Tables, t': Tables, k: string) {
    && RowOf(t, k) == RowOf(t', k)
    && (forall o :: OpOf(t, k, o) == OpOf(t', k, o))
    && (forall n :: Leases(t, k, n) == Leases(t', k, n))
    && (forall n :: ExposureOf(t, k, n) == ExposureOf(t', k, n))
    && (forall p :: Granted(t, k, p) == Granted(t', k, p))
  }

  /** Row, operations, leases, exposures, grants, instances and route file are as they were. */
  ghost predicate Same(w: World, w': World, k: string) {
    && SameTables(w.t, w'.t, k)
    && (forall b :: Alive(w, k, b) == Alive(w', k, b))
    && FileOf(w, k) == FileOf(w', k)
  }

  /** Operation ids came from the supply, so a new one is nobody's. */
  ghost predicate OpsSupplied(t: Tables) {
    forall o :: o in t.ops ==> o < t.supply
  }

  ghost predicate Kept(w: World, w': World, k: string) {
    Same(w, w', k) && OpsSupplied(w'.t) && w.t.supply <= w'.t.supply
  }

  lemma KeptTwice(w: World, w1: World, w2: World, k: string)
    requires Kept(w, w1, k) && Kept(w1, w2, k)
    ensures Kept(w, w2, k)
  {
  }

  lemma TablesTwice(t: Tables, t1: Tables, t2: Tables, k: string)
    requires SameTables(t, t1, k) && SameTables(t1, t2, k)
    ensures SameTables(t, t2, k)
  {
  }

  lemma KeptSame(w: World, w': World, k: string)
    requires OpsSupplied(w.t) && w'.t == w.t
    requires (forall b :: Alive(w, k, b) == Alive(w', k, b)) && FileOf(w, k) == FileOf(w', k)
    ensures Kept(w, w', k)
  {
  }

  // ---- transactions ----

  lemma UpsertFrame(t: Tables, inst: Environment, k: string)
    requires k != inst.id
    ensures SameTables(t, Upsert(t, inst), k)
    ensures OpsSupplied(t) ==> OpsSupplied(Upsert(t, inst))
    ensures t.supply <= Upsert(t, inst).supply
  {
  }

  lemma DropLeasesFrame(t: Tables, id: string, k: string)
    requires k != id
    ensures SameTables(t, DropLeases(t, id), k)
  {
  }

  lemma OpenFrame(t: Tables, id: string, kind: Kind, k: string)
    requires k != id && OpsSupplied(t) && id in t.rows
    ensures var t' := OpenOperation(t, id, kind);
      SameTables(t, t', k) && OpsSupplied(t') && t.supply <= t'.supply
  {
  }

  lemma LeaseFrame(t: Tables, id: string, k: string)
    requires k != id && id !in t.leases
    ensures SameTables(t, t.(leases := t.leases[id := id]), k)
  {
  }

  lemma ReserveFrame(t: Tables, inst: Environment, quota: Option<nat>, k: string)
    requires k != inst.id && OpsSupplied(t)
    ensures var t' := Reserve(t, inst, quota).0;
      SameTables(t, t', k) && OpsSupplied(t') && t.supply <= t'.supply
    ensures var r := Reserve(t, inst, quota).1; r.Reserved? ==> r.inst.id == inst.id
  {
    if Reserve(t, inst, quota).1.Reserved? {
      hide SameTables, OpsSupplied, OpenOperation, Upsert, DropLeases;
      var t1 := if inst.id in t.rows then DropLeases(t, inst.id) else t;
      DropLeasesFrame(t, inst.id, k);
      assert SameTables(t, t, k) && OpsSupplied(t1) by { Unmoved(t, inst.id, k); }
      StateStore.UpsertHasRow(t1, inst);
      UpsertFrame(t1, inst, k);
      var t2 := Upsert(t1, inst);
      OpenFrame(t2, inst.id, Provision, k);
      var t3 := OpenOperation(t2, inst.id, Provision);
      LeaseFrame(t3, inst.id, k);
      var t4 := Reserve(t, inst, quota).0;
      TablesTwice(t, t1, t2, k);
      TablesTwice(t, t2, t3, k);
      TablesTwice(t, t3, t4, k);
      SuppliedOps(t3, t4);
    } else {
      Refused(t, inst, quota);
    }
  }

  lemma Unmoved(t: Tables, id: string, k: string)
    ensures SameTables(t, t, k)
    ensures OpsSupplied(t) ==> OpsSupplied(DropLeases(t, id))
  {
  }

  lemma SuppliedOps(t: Tables, t': Tables)
    requires OpsSupplied(t) && t'.ops == t.ops && t'.supply == t.supply
    ensures OpsSupplied(t')
  {
  }

  lemma BeginFrame(t: Tables, id: string, kind: Kind, expected: set<Status>, transitional: Status, k: string)
    requires k != id && OpsSupplied(t)
    ensures var (t', inst) := BeginOperation(t, id, kind, expected, transitional);
      SameTables(t, t', k) && OpsSupplied(t') && t.supply <= t'.supply && (inst.Some? ==> inst.value.id == id)
  {
  }

  lemma CompleteFrame(t: Tables, inst: Environment, succeeded: bool, k: string)
    requires k != inst.id && OpsSupplied(t)
    ensures var (t', done, _) := CompleteOperation(t, inst, succeeded);
      SameTables(t, t', k) && OpsSupplied(t') && t.supply <= t'.supply && done.id == inst.id
  {
  }

  lemma DeleteFrame(t: Tables, id: string, k: string)
    requires k != id
    ensures var t' := Delete(t, id);
      SameTables(t, t', k) && (OpsSupplied(t) ==> OpsSupplied(t')) && t.supply == t'.supply
  {
  }

  lemma SetExposureFrame(t: Tables, id: string, name: string, exposure: Exposure, k: string)
    requires k != id
    ensures var t' := SetExposure(t, id, name, exposure).0;
      SameTables(t, t', k) && t'.ops == t.ops && t.supply == t'.supply
  {
  }

  lemma RemoveExposureFrame(t: Tables, id: string, name: string, k: string)
    requires k != id
    ensures var t' := RemoveExposure(t, id, name).0;
      SameTables(t, t', k) && t'.ops == t.ops && t.supply == t'.supply
  {
  }

  // ---- calls ----

  lemma AbortFrame(w: World, inst: Environment, backend: string, created: bool, ans: Answers, k: string)
    requires k != inst.id && OpsSupplied(w.t)
    ensures Kept(w, Abort(w, inst, backend, created, ans), k)
  {
    hide CompleteOperation, Upsert;
    var errored := inst.(status := Errored, error := ans.reason);
    CompleteFrame(w.t, errored, false, k);
    var (t1, failed, _) := CompleteOperation(w.t, errored, false);
    UpsertFrame(t1, failed.(status := DestroyFailed), k);
  }

  lemma {:induction false} ExposeDefaultsFrame(cfg: Settings, t: Tables, id: string, expose: Expose, i: nat, k: string)
    requires k != id
    ensures var t' := ExposeDefaults(cfg, t, id, expose, i).0;
      SameTables(t, t', k) && t'.ops == t.ops && t.supply == t'.supply
    decreases |expose.keys| - i
  {
    hide LabelFree, SetExposure, Naming.DefaultExposureLabel;
    if i < |expose.keys| {
      var name := Naming.DefaultExposureLabel(id, expose.keys[i]);
      var exposure := Exposure(expose.ports[expose.keys[i]], []);
      SetExposureFrame(t, id, name, exposure, k);
      ExposeDefaultsFrame(cfg, SetExposure(t, id, name, exposure).0, id, expose, i + 1, k);
    }
  }

  lemma PublishFrame(cfg: Settings, w: World, inst: Environment, backend: string, ans: Answers, k: string)
    requires k != inst.id && OpsSupplied(w.t)
    ensures Kept(w, Publish(cfg, w, inst, backend, ans).0, k)
  {
    hide CompleteOperation, Abort, PrimaryUrl, ExposuresOf;
    var ready := inst.(exposures := ExposuresOf(w.t, inst.id));
    var committed := ready.(url := PrimaryUrl(cfg, ready), status := Ready);
    CompleteFrame(w.t, committed, true, k);
    var (t1, inst1, _) := CompleteOperation(w.t, committed, true);
    AbortFrame(w, committed, backend, true, ans, k);
    AbortFrame(w.(t := t1), inst1, backend, true, ans, k);
  }

  lemma ProvisionFrame(cfg: Settings, w: World, inst: Environment, expose: Expose, ans: Answers, k: string)
    requires k != inst.id && OpsSupplied(w.t)
    ensures Kept(w, ProvisionIt(cfg, w, inst, expose, ans).0, k)
  {
    hide Abort, ExposeDefaults, Publish, SameTables, OpsSupplied;
    var result := ProvisionIt(cfg, w, inst, expose, ans).0;
    var backend := inst.backend;
    var w0 := w.(overwrote := w.overwrote || exists a :: a in w.alive && a.1 == inst.id);
    KeptSame(w, w0, k);
    if ans.create.None? {
      AbortFrame(w0, inst, backend, false, ans, k);
      KeptTwice(w, w0, result, k);
    } else {
      var w1 := w0.(alive := w0.alive + {(backend, inst.id)});
      var inst1 := inst.(ip := ans.create.value);
      KeptSame(w, w1, k);
      if !ans.cert {
        AbortFrame(w1, inst1, backend, true, ans, k);
        KeptTwice(w, w1, result, k);
      } else {
        var w2 := w1.(t := ExposeDefaults(cfg, w1.t, inst.id, expose, 0).0);
        ExposedFrame(cfg, w1, inst.id, expose, k);
        KeptTwice(w, w1, w2, k);
        AbortFrame(w2, inst1, backend, true, ans, k);
        PublishFrame(cfg, w2, inst1, backend, ans, k);
        KeptTwice(w, w2, result, k);
      }
    }
  }

  lemma ExposedFrame(cfg: Settings, w: World, id: string, expose: Expose, k: string)
    requires k != id && OpsSupplied(w.t)
    ensures Kept(w, w.(t := ExposeDefaults(cfg, w.t, id, expose, 0).0), k)
  {
    hide ExposeDefaults;
    ExposeDefaultsFrame(cfg, w.t, id, expose, 0, k);
  }

  lemma SuspendFrame(w: World, inst: Environment, ans: Answers, k: string)
    requires k != inst.id && OpsSupplied(w.t)
    ensures Kept(w, Suspend(w, inst, ans), k)
  {
  }

  lemma ResumeFrame(cfg: Settings, w: World, inst: Environment, template: TemplateConfig, ans: Answers, k: string)
    requires k != inst.id && OpsSupplied(w.t)
    ensures Kept(w, Resume(cfg, w, inst, template, ans).0, k)
  {
    hide CompleteOperation, Suspend, SpecBuilds, SameTables, OpsSupplied, Synced;
    SuspendFrame(w, inst, ans, k);
    if ans.start.Some? && ans.cert {
      var ready := inst.(ip := ans.start.value, status := Ready);
      SuspendFrame(w, ready, ans, k);
      CompleteFrame(w.t, ready, true, k);
      var (t1, inst2, current) := CompleteOperation(w.t, ready, true);
      if current && !ans.sync {
        SuspendFrame(w.(t := t1), inst2, ans, k);
        KeptTwice(w, w.(t := t1), Suspend(w.(t := t1), inst2, ans), k);
      } else if current {
        SyncedFrame(cfg, w.files, inst2, k);
      }
    } else if ans.start.Some? {
      SuspendFrame(w, inst.(ip := ans.start.value), ans, k);
    }
  }

  lemma SyncedFrame(cfg: Settings, files: map<string, RouteDoc>, inst: Environment, k: string)
    requires k != inst.id
    ensures var files' := Synced(cfg.domain, files, inst);
      (k in files <==> k in files') && (k in files ==> files'[k] == files[k])
  {
  }

  lemma BeginAndResumeFrame(cfg: Settings, w: World, id: string, template: TemplateConfig, ans: Answers, k: string)
    requires k != id && OpsSupplied(w.t)
    ensures Kept(w, BeginAndResume(cfg, w, id, template, ans).0, k)
  {
    hide BeginOperation, Resume;
    BeginFrame(w.t, id, Kind.Start, {Stopped}, Starting, k);
    var (t1, inst) := BeginOperation(w.t, id, Kind.Start, {Stopped}, Starting);
    if inst.Some? {
      ResumeFrame(cfg, w.(t := t1), inst.value, template, ans, k);
    }
  }

  lemma TeardownFrame(cfg: Settings, w: World, inst: Environment, ans: Answers, k: string)
    requires k != inst.id && OpsSupplied(w.t)
    ensures Kept(w, Teardown(cfg, w, inst, ans).0, k)
  {
    hide Upsert, Delete;
    UpsertFrame(w.t, inst.(status := DestroyFailed, error := ans.reason), k);
    DeleteFrame(w.t, inst.id, k);
  }

  lemma SyncExposuresFrame(cfg: Settings, w: World, id: string, ans: Answers, k: string)
    requires k != id && OpsSupplied(w.t)
    ensures Kept(w, SyncExposures(cfg, w, id, ans).0, k)
  {
    hide Upsert, PrimaryUrl, GrantsOf, ExposuresOf;
    if GetOr404(w.t, id).Some? {
      var inst := GetOr404(w.t, id).value;
      UpsertFrame(w.t, inst.(url := PrimaryUrl(cfg, inst)), k);
    }
  }

  lemma StopFrame(cfg: Settings, w: World, actor: Principal, id: string, ans: Answers, k: string)
    requires k != id && OpsSupplied(w.t)
    ensures Kept(w, StopIt(cfg, w, actor, id, ans).0, k)
  {
    hide BeginOperation, CompleteOperation, GrantsOf, ExposuresOf, IsOwner;
    BeginFrame(w.t, id, Kind.Stop, {Ready}, Stopping, k);
    var (t1, begun) := BeginOperation(w.t, id, Kind.Stop, {Ready}, Stopping);
    if begun.Some? {
      CompleteFrame(t1, begun.value.(status := Ready, error := ans.reason), false, k);
      CompleteFrame(t1, begun.value.(status := Stopped, ip := None), true, k);
    }
  }

  lemma ExposeFrame(cfg: Settings, w: World, actor: Principal, id: string, port: int, wanted: Option<string>,
                    access: seq<string>, ans: Answers, k: string)
    requires k != id && OpsSupplied(w.t)
    ensures Kept(w, ExposeIt(cfg, w, actor, id, port, wanted, access, ans).0, k)
  {
    hide SetExposure, SyncExposures, LabelFree, GrantsOf, ExposuresOf, IsOwner, Naming.ValidateExposureLabel;
    var wantedLabel := Naming.ValidateExposureLabel(if wanted.Some? then wanted.value else id);
    if wantedLabel.Some? {
      var exposure := Exposure(port, Strings.Dedup(CleanAccess(access)));
      SetExposureFrame(w.t, id, wantedLabel.value, exposure, k);
      SyncExposuresFrame(cfg, w.(t := SetExposure(w.t, id, wantedLabel.value, exposure).0), id, ans, k);
    }
  }

  lemma UnexposeFrame(cfg: Settings, w: World, actor: Principal, id: string, name: string, ans: Answers, k: string)
    requires k != id && OpsSupplied(w.t)
    ensures Kept(w, UnexposeIt(cfg, w, actor, id, name, ans).0, k)
  {
    hide RemoveExposure, SyncExposures, GrantsOf, ExposuresOf, IsOwner;
    RemoveExposureFrame(w.t, id, name, k);
    SyncExposuresFrame(cfg, w.(t := RemoveExposure(w.t, id, name).0), id, ans, k);
  }

  lemma ShareFrame(w: World, actor: Principal, id: string, principal: string, k: string)
    requires k != id && OpsSupplied(w.t)
    ensures Kept(w, ShareIt(w, actor, id, principal).0, k)
  {
    hide GrantsOf, ExposuresOf, IsOwner;
  }

  lemma UnshareFrame(w: World, actor: Principal, id: string, principal: string, k: string)
    requires k != id && OpsSupplied(w.t)
    ensures Kept(w, UnshareIt(w, actor, id, principal).0, k)
  {
  }

  // ---- reserving ----

  /** The record that `Claim` reserved: its id was absent or dead, its operation is the new one. */
  lemma {:induction false} ReserveAnyReserves(t: Tables, inst: Environment, req: UpRequest, quota: Option<nat>, n: nat)
    returns (id: string)
    requires ReserveAny(t, inst, req, quota, n).1.Reserved?
    ensures ReserveAny(t, inst, req, quota, n) == Reserve(t, inst.(id := id), quota)
    ensures exists m: nat :: n <= m < 10 && id == Naming.NewEnvironmentId(req.template.name, req.tokens(m))
    decreases 10 - n
  {
    hide Reserve, Naming.NewEnvironmentId;
    id := Naming.NewEnvironmentId(req.template.name, req.tokens(n));
    Refused(t, inst.(id := id), quota);
    if Reserve(t, inst.(id := id), quota).1.NameTaken? {
      id := ReserveAnyReserves(t, inst, req, quota, n + 1);
    }
  }

  lemma Refused(t: Tables, inst: Environment, quota: Option<nat>)
    ensures !Reserve(t, inst, quota).1.Reserved? ==> Reserve(t, inst, quota).0 == t
  {
  }

  lemma ClaimReserves(cfg: Settings, t: Tables, owner: string, key: ArgsKey, req: UpRequest, ttl: Option<nat>,
                      id: Option<string>) returns (name: string, quota: Option<nat>)
    requires Claim(cfg, t, owner, key, req, ttl, id).1.Reserved?
    ensures Claim(cfg, t, owner, key, req, ttl, id) == Reserve(t, Candidate(cfg, owner, key, req, ttl, name), quota)
    ensures quota == if req.quota.Some? then req.quota else cfg.defaultQuota
    ensures if id.Some? then name == id.value
      else exists n: nat :: n < 10 && name == Naming.NewEnvironmentId(req.template.name, req.tokens(n))
  {
    hide Reserve, ReserveAny, Ttl.Expiry, Naming.NewEnvironmentId;
    quota := if req.quota.Some? then req.quota else cfg.defaultQuota;
    if id.Some? {
      name := id.value;
    } else {
      name := ReserveAnyReserves(t, Candidate(cfg, owner, key, req, ttl, ""), req, quota, 0);
    }
  }

  lemma ReservedName(t: Tables, inst: Environment, quota: Option<nat>)
    requires Reserve(t, inst, quota).1.Reserved?
    ensures inst.id in t.rows ==> Dead(t.rows[inst.id].status)
  {
  }
}
