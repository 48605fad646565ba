/** What every sequential run of calls keeps, whatever fails outside: no instance is orphaned,
    every operation is closed, and, when publishing does not fail, the route files are a view
    of the rows. */
module Lifecycle {
  import opened Wrappers
  import opened Model
  import opened Tables
  import opened Config
  import opened Ingress
  import opened Control
  import opened Courses
  import opened Frames
  import Commits
  import Fence
  import Hooks
  import Naming
  import Params
  import Ttl

  // ---- the three invariants, one environment at a time ----

  /** An instance alive belongs to a row that is neither destroyed nor error and records its
      backend: its name cannot be reclaimed, and destroy will find it. */
  ghost predicate Conserved(cfg: Settings, w: World, k: string) {
    forall b :: Alive(w, k, b) ==>
      k in w.t.rows && !Dead(w.t.rows[k].status) && b == BackendNamed(cfg, w.t.rows[k].backend)
  }

  const AT_REST: set<Status> := {Ready, Stopped, Errored, DestroyFailed, Destroyed}

  /** Of the environment's operations exactly the abandoned ones are unfinished; its row has an
      operation outstanding, or the status `creating`, only if that one is abandoned. */
  ghost predicate Rested(t: Tables, abandoned: set<nat>, k: string) {
    && (forall o: nat :: OpOf(t, k, o).Some? ==> (Unfinished(OpOf(t, k, o).value) <==> o in abandoned))
    && (k in t.rows ==>
          && (t.rows[k].active.Some? ==> t.rows[k].active.value in abandoned)
          && (t.rows[k].status in AT_REST || (t.rows[k].status.Creating? && t.rows[k].active.Some?)))
  }

  /** The file an environment should have: the rendering of its exposures and address, if it is
      ready, has an address and exposes something. */
  ghost function Expected(cfg: Settings, t: Tables, k: string): Option<RouteDoc> {
    if k in t.rows && t.rows[k].status.Ready? && t.rows[k].ip.Some? && t.rows[k].ip.value != ""
       && ExposuresOf(t, k) != map[]
    then Some(Render(cfg.domain, k, ExposuresOf(t, k), t.rows[k].ip.value))
    else None
  }

  ghost predicate Routed(cfg: Settings, w: World, k: string) {
    FileOf(w, k) == Expected(cfg, w.t, k)
  }

  /** `routes` is whether the ingress and egress have not failed so far. */
  ghost predicate Sound(cfg: Settings, w: World, abandoned: set<nat>, routes: bool, k: string) {
    Conserved(cfg, w, k) && Rested(w.t, abandoned, k) && (routes ==> Routed(cfg, w, k))
  }

  ghost predicate Inv(cfg: Settings, w: World, abandoned: set<nat>, routes: bool) {
    && OpsSupplied(w.t) && (forall o :: o in abandoned ==> o < w.t.supply)
    && !w.overwrote
    && forall k :: Sound(cfg, w, abandoned, routes, k)
  }

  predicate Publishes(ans: Answers) {
    ans.sync && ans.deregister && ans.unregister
  }

  // ---- what stays the same stays sound ----

  lemma SameExposures(t: Tables, t': Tables, k: string)
    requires forall n :: ExposureOf(t, k, n) == ExposureOf(t', k, n)
    ensures ExposuresOf(t, k) == ExposuresOf(t', k)
  {
    forall n ensures n in ExposuresOf(t, k) <==> n in ExposuresOf(t', k) {
      assert ExposureOf(t, k, n) == ExposureOf(t', k, n);
    }
    forall n | n in ExposuresOf(t, k) ensures ExposuresOf(t, k)[n] == ExposuresOf(t', k)[n] {
      assert ExposureOf(t, k, n) == ExposureOf(t', k, n);
    }
  }

  lemma SameIsSound(cfg: Settings, w: World, w': World, abandoned: set<nat>, abandoned': set<nat>, routes: bool,
                    k: string)
    requires Kept(w, w', k) && OpsSupplied(w.t) && Sound(cfg, w, abandoned, routes, k)
    requires abandoned <= abandoned' && forall o :: o in abandoned' - abandoned ==> o >= w.t.supply
    ensures Sound(cfg, w', abandoned', routes, k)
  {
    hide ExposuresOf, Render;
    SameExposures(w.t, w'.t, k);
    assert RowOf(w.t, k) == RowOf(w'.t, k);
    forall o: nat | OpOf(w'.t, k, o).Some? ensures Unfinished(OpOf(w'.t, k, o).value) <==> o in abandoned' {
      assert OpOf(w.t, k, o) == OpOf(w'.t, k, o);
      assert o in abandoned' && o !in abandoned ==> o in abandoned' - abandoned;
    }
    forall b | Alive(w', k, b)
      ensures k in w'.t.rows && !Dead(w'.t.rows[k].status) && b == BackendNamed(cfg, w'.t.rows[k].backend)
    {
      assert Alive(w, k, b);
    }
  }

  /** A call that moves one environment keeps the invariant if it leaves that one sound. */
  lemma OneMoves(cfg: Settings, w: World, w': World, abandoned: set<nat>, abandoned': set<nat>, routes: bool,
                 id: string)
    requires Inv(cfg, w, abandoned, routes)
    requires forall k :: k != id ==> Kept(w, w', k)
    requires abandoned <= abandoned' && forall o :: o in abandoned' - abandoned ==> w.t.supply <= o < w'.t.supply
    requires !w'.overwrote && Sound(cfg, w', abandoned', routes, id)
    ensures Inv(cfg, w', abandoned', routes)
  {
    hide Sound, SameTables;
    assert Kept(w, w', id + "x");
    forall o | o in abandoned' ensures o < w'.t.supply {
      assert o in abandoned || o in abandoned' - abandoned;
    }
    forall k ensures Sound(cfg, w', abandoned', routes, k) {
      if k != id {
        SameIsSound(cfg, w, w', abandoned, abandoned', routes, k);
      }
    }
  }

  // ---- committing ----

  /** The record holds the one operation of its row that is open. */
  ghost predicate Holds(t: Tables, abandoned: set<nat>, inst: Environment) {
    && Current(t, inst) && inst.operation.value !in abandoned
    && forall o: nat :: OpOf(t, inst.id, o).Some? && Some(o) != inst.operation ==>
         (Unfinished(OpOf(t, inst.id, o).value) <==> o in abandoned)
  }

  lemma CommitRests(cfg: Settings, t: Tables, abandoned: set<nat>, c: Environment, ok: bool)
    requires Holds(t, abandoned, c) && c.status in AT_REST
    ensures var t' := CompleteOperation(t, c, ok).0;
      && Rested(t', abandoned, c.id)
      && t'.rows == t.rows[c.id := Write(t.rows[c.id], c).(active := None)]
      && t'.exposures == t.exposures && t'.supply == t.supply
  {
  }

  /** The files after publishing a committed record are the ones its row calls for. */
  lemma CommitRoutes(cfg: Settings, t: Tables, c: Environment, ok: bool, files: map<string, RouteDoc>)
    requires Current(t, c) && !c.status.Creating? && c.exposures == ExposuresOf(t, c.id)
    ensures var t' := CompleteOperation(t, c, ok).0;
      var file := Synced(cfg.domain, files, c);
      Expected(cfg, t', c.id) == if c.status.Ready? && c.id in file then Some(file[c.id]) else None
  {
  }

  lemma BeginHolds(t: Tables, abandoned: set<nat>, id: string, kind: Kind, expected: set<Status>, transitional: Status)
    requires OpsSupplied(t) && (forall o :: o in abandoned ==> o < t.supply) && Rested(t, abandoned, id)
    requires CanBegin(t, id, expected)
    ensures var (t', inst) := BeginOperation(t, id, kind, expected, transitional);
      inst.Some? && Holds(t', abandoned, inst.value)
  {
  }

  // ---- resume, stop, destroy ----

  lemma ResumeSound(cfg: Settings, w: World, inst: Environment, template: TemplateConfig, ans: Answers,
                    abandoned: set<nat>, routes: bool)
    requires Holds(w.t, abandoned, inst) && inst.exposures == ExposuresOf(w.t, inst.id)
    requires forall b :: Alive(w, inst.id, b) ==> b == BackendNamed(cfg, inst.backend)
    requires routes ==> ans.sync && FileOf(w, inst.id) == None
    ensures Sound(cfg, Resume(cfg, w, inst, template, ans).0, abandoned, routes, inst.id)
  {
    hide Resume, CompleteOperation, Synced, ExposuresOf, Expected;
    var c, ok := Commits.ResumeCommits(cfg, w, inst, template, ans);
    CommitRests(cfg, w.t, abandoned, c, ok);
    CommitRoutes(cfg, w.t, c, ok, w.files);
    assert forall b :: Alive(Resume(cfg, w, inst, template, ans).0, inst.id, b) == Alive(w, inst.id, b);
  }

  lemma BeginAndResumeKeeps(cfg: Settings, w: World, id: string, template: TemplateConfig, ans: Answers,
                            abandoned: set<nat>, routes: bool)
    requires Inv(cfg, w, abandoned, routes) && (routes ==> Publishes(ans))
    ensures Inv(cfg, BeginAndResume(cfg, w, id, template, ans).0, abandoned, routes)
  {
    hide BeginOperation, Resume, SameTables, Rested, ExposuresOf, GrantsOf;
    var w' := BeginAndResume(cfg, w, id, template, ans).0;
    Fence.BeginShape(w.t, id, Kind.Start, {Stopped}, Starting);
    if CanBegin(w.t, id, {Stopped}) {
      assert Sound(cfg, w, abandoned, routes, id);
      Commits.BegunIsCurrent(w.t, id, Kind.Start, {Stopped}, Starting);
      BeginHolds(w.t, abandoned, id, Kind.Start, {Stopped}, Starting);
      var (t1, inst) := BeginOperation(w.t, id, Kind.Start, {Stopped}, Starting);
      assert forall b :: Alive(w.(t := t1), id, b) == Alive(w, id, b);
      ResumeSound(cfg, w.(t := t1), inst.value, template, ans, abandoned, routes);
      Quiet(cfg, w.(t := t1), inst.value, template, ans);
      forall k | k != id ensures Kept(w, w', k) {
        BeginAndResumeFrame(cfg, w, id, template, ans, k);
      }
      OneMoves(cfg, w, w', abandoned, abandoned, routes, id);
    } else {
      assert BeginOperation(w.t, id, Kind.Start, {Stopped}, Starting).1.None?;
      assert w' == w;
    }
  }

  lemma Quiet(cfg: Settings, w: World, inst: Environment, template: TemplateConfig, ans: Answers)
    ensures Resume(cfg, w, inst, template, ans).0.overwrote == w.overwrote
  {
  }

  lemma StopSound(cfg: Settings, w: World, actor: Principal, id: string, ans: Answers, abandoned: set<nat>,
                  routes: bool)
    requires Inv(cfg, w, abandoned, routes) && (routes ==> Publishes(ans))
    requires StopIt(cfg, w, actor, id, ans).0 != w
    ensures Sound(cfg, StopIt(cfg, w, actor, id, ans).0, abandoned, routes, id)
    ensures !StopIt(cfg, w, actor, id, ans).0.overwrote
  {
    hide BeginOperation, CompleteOperation, StopIt, ExposuresOf, GrantsOf, Render, IsOwner;
    assert Sound(cfg, w, abandoned, routes, id);
    var begun, c, ok := Commits.StopCommits(cfg, w, actor, id, ans);
    Commits.BegunIsCurrent(w.t, id, Kind.Stop, {Ready}, Stopping);
    BeginHolds(w.t, abandoned, id, Kind.Stop, {Ready}, Stopping);
    CommitRests(cfg, begun, abandoned, c, ok);
    CommitRoutes(cfg, begun, c, ok, w.files);
    var w' := StopIt(cfg, w, actor, id, ans).0;
    assert forall b :: Alive(w', id, b) == Alive(w, id, b);
    CommittedExposures(begun, c, ok);
  }

  lemma CommittedExposures(t: Tables, c: Environment, ok: bool)
    requires Current(t, c) && !c.status.Creating?
    ensures ExposuresOf(CompleteOperation(t, c, ok).0, c.id) == ExposuresOf(t, c.id)
  {
  }

  lemma StopKeeps(cfg: Settings, w: World, actor: Principal, id: string, ans: Answers, abandoned: set<nat>,
                  routes: bool)
    requires Inv(cfg, w, abandoned, routes) && (routes ==> Publishes(ans))
    ensures Inv(cfg, StopIt(cfg, w, actor, id, ans).0, abandoned, routes)
  {
    hide StopIt, SameTables, Sound;
    var w' := StopIt(cfg, w, actor, id, ans).0;
    if w' != w {
      StopSound(cfg, w, actor, id, ans, abandoned, routes);
      forall k | k != id ensures Kept(w, w', k) {
        StopFrame(cfg, w, actor, id, ans, k);
      }
      OneMoves(cfg, w, w', abandoned, abandoned, routes, id);
    }
  }

  lemma TeardownSound(cfg: Settings, w: World, inst: Environment, ans: Answers, abandoned: set<nat>, routes: bool)
    requires Sound(cfg, w, abandoned, routes, inst.id) && (routes ==> Publishes(ans))
    requires inst.id in w.t.rows && inst.backend == w.t.rows[inst.id].backend
    ensures Sound(cfg, Teardown(cfg, w, inst, ans).0, abandoned, routes, inst.id)
  {
    hide Upsert, ExposuresOf, Render;
    var w' := Teardown(cfg, w, inst, ans).0;
    var failed := inst.(status := DestroyFailed, error := ans.reason);
    Commits.Rewrites(w.t, failed);
    assert RestsStill(w.t, Upsert(w.t, failed), abandoned, inst.id);
    assert RestsStill(w.t, Delete(w.t, inst.id), abandoned, inst.id);
    forall b | Alive(w', inst.id, b)
      ensures !Dead(w'.t.rows[inst.id].status) && b == BackendNamed(cfg, w'.t.rows[inst.id].backend)
    {
      assert Alive(w, inst.id, b);
    }
  }

  ghost predicate RestsStill(t: Tables, t': Tables, abandoned: set<nat>, k: string) {
    Rested(t, abandoned, k) && t'.ops == t.ops && k in t.rows && k in t'.rows
    && t'.rows[k].active == t.rows[k].active && t'.rows[k].status in AT_REST
  }

  lemma TeardownKeeps(cfg: Settings, w: World, inst: Environment, ans: Answers, abandoned: set<nat>, routes: bool)
    requires Inv(cfg, w, abandoned, routes) && (routes ==> Publishes(ans))
    requires inst.id in w.t.rows && inst.backend == w.t.rows[inst.id].backend
    ensures Inv(cfg, Teardown(cfg, w, inst, ans).0, abandoned, routes)
  {
    hide Upsert, Delete, SameTables, Sound;
    var w' := Teardown(cfg, w, inst, ans).0;
    TeardownSound(cfg, w, inst, ans, abandoned, routes);
    forall k | k != inst.id ensures Kept(w, w', k) {
      TeardownFrame(cfg, w, inst, ans, k);
    }
    OneMoves(cfg, w, w', abandoned, abandoned, routes, inst.id);
  }

  /** The reaper's records were read before the pass; tearing one down leaves the others true. */
  lemma {:induction false} TeardownAllKeeps(cfg: Settings, w: World, insts: seq<Environment>, answers: nat -> Answers,
                                            i: nat, abandoned: set<nat>, routes: bool)
    requires Inv(cfg, w, abandoned, routes)
    requires routes ==> forall j :: 0 <= j < |insts| ==> Publishes(answers(j))
    requires forall j, k :: 0 <= j < k < |insts| ==> insts[j].id != insts[k].id
    requires forall j :: i <= j < |insts| ==>
      insts[j].id in w.t.rows && insts[j].backend == w.t.rows[insts[j].id].backend
    ensures Inv(cfg, TeardownAll(cfg, w, insts, answers, i).0, abandoned, routes)
    decreases |insts| - i
  {
    hide Teardown, Inv, Publishes, SameTables;
    if i < |insts| {
      assert OpsSupplied(w.t) by { InvSupplies(cfg, w, abandoned, routes); }
      TeardownKeeps(cfg, w, insts[i], answers(i), abandoned, routes);
      var w1 := Teardown(cfg, w, insts[i], answers(i)).0;
      forall j | i + 1 <= j < |insts|
        ensures insts[j].id in w1.t.rows && insts[j].backend == w1.t.rows[insts[j].id].backend
      {
        TeardownFrame(cfg, w, insts[i], answers(i), insts[j].id);
        SameRow(w.t, w1.t, insts[j].id);
      }
      TeardownAllKeeps(cfg, w1, insts, answers, i + 1, abandoned, routes);
    }
  }

  lemma InvSupplies(cfg: Settings, w: World, abandoned: set<nat>, routes: bool)
    requires Inv(cfg, w, abandoned, routes)
    ensures OpsSupplied(w.t)
  {
  }

  lemma SameRow(t: Tables, t': Tables, k: string)
    requires SameTables(t, t', k) && k in t.rows
    ensures k in t'.rows && t'.rows[k] == t.rows[k]
  {
  }

  lemma ReapKeeps(cfg: Settings, w: World, actor: Principal, now: int, order: seq<string>, answers: nat -> Answers,
                  abandoned: set<nat>, routes: bool)
    requires Inv(cfg, w, abandoned, routes) && Lists(order, Expired(w.t, now))
    requires routes ==> forall j :: 0 <= j < |order| ==> Publishes(answers(j))
    ensures Inv(cfg, Reap(cfg, w, actor, now, order, answers).0, abandoned, routes)
  {
    hide TeardownAll, Inv, Publishes, GrantsOf, ExposuresOf;
    if actor.admin {
      assert forall i :: 0 <= i < |order| ==> order[i] in Expired(w.t, now);
      TeardownAllKeeps(cfg, w, Records(w.t, order), answers, 0, abandoned, routes);
    }
  }

  // ---- exposures and grants ----

  lemma SyncExposuresSound(cfg: Settings, w: World, id: string, ans: Answers, abandoned: set<nat>, routes: bool)
    requires Sound(cfg, w, abandoned, false, id)
    requires routes ==> ans.sync
    requires routes && !(id in w.t.rows && w.t.rows[id].status.Ready?) ==> FileOf(w, id) == None
    ensures Sound(cfg, SyncExposures(cfg, w, id, ans).0, abandoned, routes, id)
  {
    hide Upsert, GrantsOf, ExposuresOf, Render, PrimaryUrl;
    if id in w.t.rows && !w.t.rows[id].status.Destroyed? {
      var inst := ToEnvironment(w.t, id);
      var inst1 := inst.(url := PrimaryUrl(cfg, inst));
      var w' := SyncExposures(cfg, w, id, ans).0;
      Rewritten(w.t, inst1);
      assert forall b :: Alive(w', id, b) == Alive(w, id, b);
      assert forall o :: OpOf(w'.t, id, o) == OpOf(w.t, id, o);
    }
  }

  lemma Rewritten(t: Tables, inst: Environment)
    requires inst.id in t.rows && inst == ToEnvironment(t, inst.id).(url := inst.url)
    ensures var t' := Upsert(t, inst);
      && t' == t.(rows := t'.rows)
      && t'.rows == t.rows[inst.id := t.rows[inst.id].(url := inst.url)]
      && ExposuresOf(t', inst.id) == ExposuresOf(t, inst.id)
  {
  }

  lemma ExposeSound(cfg: Settings, w: World, actor: Principal, id: string, port: int, wanted: Option<string>,
                    access: seq<string>, ans: Answers, abandoned: set<nat>, routes: bool)
    requires Sound(cfg, w, abandoned, routes, id) && (routes ==> Publishes(ans))
    ensures Sound(cfg, ExposeIt(cfg, w, actor, id, port, wanted, access, ans).0, abandoned, routes, id)
  {
    hide SetExposure, SyncExposures, LabelFree, GrantsOf, ExposuresOf, IsOwner, Naming.ValidateExposureLabel, Render;
    var name := Naming.ValidateExposureLabel(if wanted.Some? then wanted.value else id);
    if name.Some? {
      var exposure := Exposure(port, Strings.Dedup(CleanAccess(access)));
      var t1 := SetExposure(w.t, id, name.value, exposure).0;
      ExposureRowsOnly(w.t, id, name.value, exposure);
      assert forall o :: OpOf(t1, id, o) == OpOf(w.t, id, o);
      assert forall b :: Alive(w.(t := t1), id, b) == Alive(w, id, b);
      SyncExposuresSound(cfg, w.(t := t1), id, ans, abandoned, routes);
    }
  }

  lemma ExposureRowsOnly(t: Tables, id: string, name: string, exposure: Exposure)
    ensures var t' := SetExposure(t, id, name, exposure).0; t' == t.(leases := t'.leases, exposures := t'.exposures)
    ensures var t' := RemoveExposure(t, id, name).0; t' == t.(leases := t'.leases, exposures := t'.exposures)
  {
  }

  lemma UnexposeSound(cfg: Settings, w: World, actor: Principal, id: string, name: string, ans: Answers,
                      abandoned: set<nat>, routes: bool)
    requires Sound(cfg, w, abandoned, routes, id) && (routes ==> Publishes(ans))
    ensures Sound(cfg, UnexposeIt(cfg, w, actor, id, name, ans).0, abandoned, routes, id)
  {
    hide RemoveExposure, SyncExposures, GrantsOf, ExposuresOf, IsOwner, Render;
    var t1 := RemoveExposure(w.t, id, name).0;
    ExposureRowsOnly(w.t, id, name, Exposure(0, []));
    if RemoveExposure(w.t, id, name).1.Removed? {
      assert forall o :: OpOf(t1, id, o) == OpOf(w.t, id, o);
      assert forall b :: Alive(w.(t := t1), id, b) == Alive(w, id, b);
      SyncExposuresSound(cfg, w.(t := t1), id, ans, abandoned, routes);
    }
  }

  lemma GrantsDoNotMatter(cfg: Settings, w: World, grants: set<(string, string)>, abandoned: set<nat>, routes: bool,
                          k: string)
    requires Sound(cfg, w, abandoned, routes, k)
    ensures Sound(cfg, w.(t := w.t.(grants := grants)), abandoned, routes, k)
  {
    hide ExposuresOf, Render;
    var w' := w.(t := w.t.(grants := grants));
    SameExposures(w.t, w'.t, k);
    assert forall o :: OpOf(w'.t, k, o) == OpOf(w.t, k, o);
    assert forall b :: Alive(w', k, b) == Alive(w, k, b);
  }

  lemma ShareSound(cfg: Settings, w: World, actor: Principal, id: string, principal: string, abandoned: set<nat>,
                   routes: bool)
    requires Sound(cfg, w, abandoned, routes, id)
    ensures Sound(cfg, ShareIt(w, actor, id, principal).0, abandoned, routes, id)
    ensures Sound(cfg, UnshareIt(w, actor, id, principal).0, abandoned, routes, id)
  {
    hide Sound, GrantsOf, ExposuresOf, IsOwner;
    GrantsDoNotMatter(cfg, w, Grant(w.t, id, principal).grants, abandoned, routes, id);
    GrantsDoNotMatter(cfg, w, Revoke(w.t, id, principal).0.grants, abandoned, routes, id);
  }

  // ---- up ----

  /** Before the commit the record holds the open operation; after it, none is open. */
  ghost predicate HoldsOrDone(t: Tables, abandoned: set<nat>, inst: Environment) {
    || Holds(t, abandoned, inst)
    || (inst.operation.None? && inst.id in t.rows && t.rows[inst.id].status in AT_REST && Rested(t, abandoned, inst.id))
  }

  /** At most the instance this call created is alive under the name. */
  ghost predicate OnlyMine(w: World, id: string, backend: string, created: bool) {
    forall b :: Alive(w, id, b) ==> created && b == backend
  }

  lemma AbortSound(cfg: Settings, w: World, inst: Environment, backend: string, created: bool, ans: Answers,
                   abandoned: set<nat>, routes: bool)
    requires HoldsOrDone(w.t, abandoned, inst) && OnlyMine(w, inst.id, backend, created)
    requires backend == inst.backend == BackendNamed(cfg, inst.backend)
    requires inst.operation.None? ==> created
    requires routes ==> FileOf(w, inst.id) == None && inst.operation.Some?
    ensures Sound(cfg, Abort(w, inst, backend, created, ans), abandoned, routes, inst.id)
    ensures Abort(w, inst, backend, created, ans).overwrote == w.overwrote
  {
    hide CompleteOperation, Upsert, ExposuresOf, Render;
    var c := inst.(status := Errored, error := ans.reason);
    var (t1, failed, _) := CompleteOperation(w.t, c, false);
    FirstOrNone(cfg, w.t, abandoned, c);
    var gone := failed.(status := DestroyFailed);
    Commits.Rewrites(t1, gone);
    assert RestsStill(t1, Upsert(t1, gone), abandoned, inst.id);
    assert Rested(Upsert(t1, gone), abandoned, inst.id);
    var w' := Abort(w, inst, backend, created, ans);
    assert forall b :: Alive(w', inst.id, b) ==> Alive(w, inst.id, b);
  }

  /** Completing commits the record if its operation is open, and changes nothing if it is done. */
  lemma FirstOrNone(cfg: Settings, t: Tables, abandoned: set<nat>, c: Environment)
    requires HoldsOrDone(t, abandoned, c) && c.status in AT_REST
    ensures var (t', done, _) := CompleteOperation(t, c, false);
      && done == c.(operation := None)
      && c.id in t'.rows && Rested(t', abandoned, c.id)
      && (c.operation.Some? ==> t'.rows[c.id] == Write(t.rows[c.id], c).(active := None))
      && (c.operation.None? ==> t' == t)
  {
  }

  lemma ExposureDefaultsOnly(cfg: Settings, t: Tables, id: string, expose: Expose, i: nat)
    ensures var t' := ExposeDefaults(cfg, t, id, expose, i).0; t' == t.(leases := t'.leases, exposures := t'.exposures)
    decreases |expose.keys| - i
  {
    hide LabelFree, SetExposure, Naming.DefaultExposureLabel;
    if i < |expose.keys| {
      var name := Naming.DefaultExposureLabel(id, expose.keys[i]);
      var exposure := Exposure(expose.ports[expose.keys[i]], []);
      ExposureRowsOnly(t, id, name, exposure);
      ExposureDefaultsOnly(cfg, SetExposure(t, id, name, exposure).0, id, expose, i + 1);
    }
  }

  lemma StillHolds(t: Tables, t': Tables, abandoned: set<nat>, inst: Environment)
    requires Holds(t, abandoned, inst) && t'.rows == t.rows && t'.ops == t.ops
    ensures Holds(t', abandoned, inst)
  {
  }

  lemma PublishSound(cfg: Settings, w: World, inst: Environment, backend: string, ans: Answers,
                     abandoned: set<nat>, routes: bool)
    requires Holds(w.t, abandoned, inst) && OnlyMine(w, inst.id, backend, true)
    requires backend == inst.backend == BackendNamed(cfg, inst.backend)
    requires routes ==> FileOf(w, inst.id) == None && ans.sync
    ensures Sound(cfg, Publish(cfg, w, inst, backend, ans).0, abandoned, routes, inst.id)
    ensures Publish(cfg, w, inst, backend, ans).0.overwrote == w.overwrote
  {
    hide CompleteOperation, Abort, ExposuresOf, PrimaryUrl, Synced, Expected;
    var ready := inst.(exposures := ExposuresOf(w.t, inst.id));
    var c := ready.(url := PrimaryUrl(cfg, ready), status := Ready);
    assert Holds(w.t, abandoned, c);
    Commits.CommitOnce(w.t, c, true, c);
    CommitRests(cfg, w.t, abandoned, c, true);
    CommitRoutes(cfg, w.t, c, true, w.files);
    var (t1, inst1, _) := CompleteOperation(w.t, c, true);
    var w' := Publish(cfg, w, inst, backend, ans).0;
    if !ans.sync {
      assert forall b :: Alive(w.(t := t1), inst.id, b) ==> Alive(w, inst.id, b);
      AbortSound(cfg, w.(t := t1), inst1, backend, true, ans, abandoned, routes);
    } else {
      SyncedByRecord(cfg, w.files, c, inst1);
      assert forall b :: Alive(w', inst.id, b) ==> Alive(w, inst.id, b);
    }
  }

  lemma SyncedByRecord(cfg: Settings, files: map<string, RouteDoc>, a: Environment, b: Environment)
    requires a == b.(operation := a.operation)
    ensures Synced(cfg.domain, files, a) == Synced(cfg.domain, files, b)
  {
  }

  lemma ProvisionSound(cfg: Settings, w: World, inst: Environment, expose: Expose, ans: Answers,
                       abandoned: set<nat>, routes: bool)
    requires Holds(w.t, abandoned, inst) && OnlyMine(w, inst.id, inst.backend, false)
    requires inst.backend == BackendNamed(cfg, inst.backend) && !w.overwrote
    requires routes ==> FileOf(w, inst.id) == None && ans.sync
    ensures Sound(cfg, ProvisionIt(cfg, w, inst, expose, ans).0, abandoned, routes, inst.id)
    ensures !ProvisionIt(cfg, w, inst, expose, ans).0.overwrote
  {
    hide Abort, ExposeDefaults, Publish;
    var backend := inst.backend;
    forall a | a in w.alive ensures a.1 != inst.id {
      assert Alive(w, inst.id, a.0) <==> (a.0, inst.id) in w.alive;
    }
    if ans.create.None? {
      AbortSound(cfg, w, inst, backend, false, ans, abandoned, routes);
    } else {
      var w1 := w.(alive := w.alive + {(backend, inst.id)});
      var inst1 := inst.(ip := ans.create.value);
      assert Holds(w1.t, abandoned, inst1);
      assert OnlyMine(w1, inst.id, backend, true) by {
        forall b | Alive(w1, inst.id, b) ensures b == backend {
          assert b == backend || Alive(w, inst.id, b);
        }
      }
      if !ans.cert {
        AbortSound(cfg, w1, inst1, backend, true, ans, abandoned, routes);
      } else {
        var t2 := ExposeDefaults(cfg, w1.t, inst.id, expose, 0).0;
        ExposureDefaultsOnly(cfg, w1.t, inst.id, expose, 0);
        var w2 := w1.(t := t2);
        StillHolds(w1.t, t2, abandoned, inst1);
        assert forall b :: Alive(w2, inst.id, b) ==> Alive(w1, inst.id, b);
        AbortSound(cfg, w2, inst1, backend, true, ans, abandoned, routes);
        PublishSound(cfg, w2, inst1, backend, ans, abandoned, routes);
      }
    }
  }

  /** What reserving a name leaves: an open operation nobody else has, on a name with nothing
      alive and nothing published. */
  lemma ReserveHolds(cfg: Settings, w: World, candidate: Environment, quota: Option<nat>, abandoned: set<nat>,
                     routes: bool)
    requires Inv(cfg, w, abandoned, routes) && candidate.status.Creating?
    requires Reserve(w.t, candidate, quota).1.Reserved?
    ensures var (t1, outcome) := Reserve(w.t, candidate, quota);
      var inst := outcome.inst;
      && inst == candidate.(generation := inst.generation, operation := Some(w.t.supply + 1))
      && Holds(t1, abandoned, inst)
      && OnlyMine(w, candidate.id, candidate.backend, false)
      && (routes ==> FileOf(w, candidate.id) == None)
      && w.t.supply + 1 < t1.supply
      && Sound(cfg, w.(t := t1), abandoned + {w.t.supply + 1}, routes, candidate.id)
  {
    hide Reserve, ExposuresOf, Render;
    var id := candidate.id;
    assert Sound(cfg, w, abandoned, routes, id);
    Fence.ReserveShape(w.t, candidate, quota);
    var t1 := Reserve(w.t, candidate, quota).0;
    var op: nat := w.t.supply + 1;
    forall o: nat | OpOf(t1, id, o).Some? && o != op ensures Unfinished(OpOf(t1, id, o).value) <==> o in abandoned {
      assert OpOf(w.t, id, o) == OpOf(t1, id, o);
    }
    forall b ensures !Alive(w, id, b) && !Alive(w.(t := t1), id, b) {
      assert Alive(w.(t := t1), id, b) == Alive(w, id, b);
    }
  }

  lemma CreateKeeps(cfg: Settings, w: World, owner: string, key: ArgsKey, req: UpRequest, id: Option<string>,
                    ans: Answers, abandoned: set<nat>, routes: bool)
    requires Inv(cfg, w, abandoned, routes) && (routes ==> Publishes(ans))
    requires Params.Resolve(req.template.params, req.args) == Some(key.args)
    ensures var r := Reserves(cfg, w.t, owner, key, req, id);
      Inv(cfg, Create(cfg, w, owner, key, req, id, ans).0,
          abandoned + if r.Some? && Unbuildable(req, ans) then OperationOf(r.value.1) else {}, routes)
  {
    hide Reserves, ProvisionIt, Reserve, Unbuildable, Create, Ttl.ParseTtl, Ttl.Expiry, SameTables, Sound, Holds;
    hide OnlyMine, Params.Resolve;
    CreateIs(cfg, w, owner, key, req, id, ans);
    assert abandoned + {} == abandoned;
    if Reserves(cfg, w.t, owner, key, req, id).Some? {
      var name, quota := ReservedIs(cfg, w.t, owner, key, req, id);
      var (t1, inst) := Reserves(cfg, w.t, owner, key, req, id).value;
      var w1, w' := w.(t := t1), Create(cfg, w, owner, key, req, id, ans).0;
      var candidate := Candidate(cfg, owner, key, req, Ttl.ParseTtl(TtlSpec(req)).value, name);
      ReserveHolds(cfg, w, candidate, quota, abandoned, routes);
      forall k | k != name ensures Kept(w, w1, k) {
        ReserveFrame(w.t, candidate, quota, k);
      }
      if Unbuildable(req, ans) {
        OneMoves(cfg, w, w1, abandoned, abandoned + {w.t.supply + 1}, routes, name);
      } else {
        NothingAliveStill(w, w1, name, inst.backend);
        ProvisionSound(cfg, w1, inst, req.template.expose, ans, abandoned, routes);
        forall k | k != name ensures Kept(w, w', k) {
          assert Kept(w, w1, k);
          ProvisionFrame(cfg, w1, inst, req.template.expose, ans, k);
          KeptTwice(w, w1, w', k);
        }
        OneMoves(cfg, w, w', abandoned, abandoned, routes, name);
      }
    }
  }

  lemma NothingAliveStill(w: World, w1: World, id: string, backend: string)
    requires OnlyMine(w, id, backend, false) && w1.alive == w.alive
    ensures OnlyMine(w1, id, backend, false)
  {
    assert forall b :: Alive(w1, id, b) == Alive(w, id, b);
  }

  lemma ReuseKeeps(cfg: Settings, w: World, inst: Environment, template: TemplateConfig, ans: Answers,
                   abandoned: set<nat>, routes: bool)
    requires Inv(cfg, w, abandoned, routes) && (routes ==> Publishes(ans))
    ensures Inv(cfg, Reuse(cfg, w, inst, template, ans).0, abandoned, routes)
  {
    hide Inv, BeginOperation, CompleteOperation, Suspend, SpecBuilds;
    BeginAndResumeKeeps(cfg, w, inst.id, template, ans, abandoned, routes);
  }

  /** What a request abandons: the operation of the reservation it cannot build a spec for. */
  ghost function AbandonedBy(cfg: Settings, t: Tables, r: Request): set<nat> {
    if r.call.CallUp? && Abandons(cfg, t, r.actor, r.call.req, r.call.ans)
    then OperationOf(Reservation(cfg, t, r.actor, r.call.req).value.1) else {}
  }

  lemma UpKeeps(cfg: Settings, w: World, actor: Principal, req: UpRequest, ans: Answers, abandoned: set<nat>,
                routes: bool)
    requires Inv(cfg, w, abandoned, routes) && (routes ==> Publishes(ans))
    ensures Inv(cfg, Up(cfg, w, actor, req, ans).0,
                abandoned + AbandonedBy(cfg, w.t, Request(actor, CallUp(req, ans))), routes)
  {
    hide Inv, Create, Reuse, CourseOf, Reserves, Unbuildable, Params.Resolve, OperationOf;
    assert abandoned + {} == abandoned;
    match CourseOf(cfg, w.t, actor, req)
    case Refuse(_) =>
    case HandBack(inst) => ReuseKeeps(cfg, w, inst, req.template, ans, abandoned, routes);
    case Make(owner, key, id) =>
      MadeOf(cfg, w.t, actor, req);
      CreateKeeps(cfg, w, owner, key, req, id, ans, abandoned, routes);
  }

  // ---- runs ----

  /** Ingress and egress answer this call; the runtime may not. */
  ghost predicate PublishesAll(call: Call) {
    match call
    case CallReap(_, order, answers) => forall j :: 0 <= j < |order| ==> Publishes(answers(j))
    case CallShare(_, _) => true
    case CallUnshare(_, _) => true
    case _ => Publishes(call.ans)
  }

  lemma OthersNeverAbandon(cfg: Settings, w: World, r: Request)
    requires !r.call.CallUp?
    ensures Step(cfg, w, r).1 != Raised(SpecFailed)
  {
    hide CompleteOperation, BeginOperation, Suspend, SpecBuilds, Synced, LabelFree, SetExposure, RemoveExposure, Upsert;
    hide GrantsOf, ExposuresOf, PrimaryUrl, TeardownAll, IsOwner, Naming.ValidateExposureLabel;
    match r.call
    case CallReap(now, order, answers) =>
      if Lists(order, Expired(w.t, now)) && r.actor.admin {
        assert forall i :: 0 <= i < |order| ==> order[i] in Expired(w.t, now);
        PassNeverAbandons(cfg, w, Records(w.t, order), answers, 0);
      }
    case _ =>
  }

  lemma {:induction false} PassNeverAbandons(cfg: Settings, w: World, insts: seq<Environment>,
                                             answers: nat -> Answers, i: nat)
    ensures TeardownAll(cfg, w, insts, answers, i).1 != Raised(SpecFailed)
    decreases |insts| - i
  {
    hide Upsert, Delete;
    if i < |insts| {
      PassNeverAbandons(cfg, Teardown(cfg, w, insts[i], answers(i)).0, insts, answers, i + 1);
    }
  }

  lemma OthersKeep(cfg: Settings, w: World, r: Request, abandoned: set<nat>, routes: bool)
    requires Inv(cfg, w, abandoned, routes) && (routes ==> PublishesAll(r.call))
    requires !r.call.CallUp?
    ensures Inv(cfg, Step(cfg, w, r).0, abandoned, routes)
  {
    hide StopIt, BeginAndResume, Teardown, ExposeIt, UnexposeIt, ShareIt, UnshareIt, Reap, SameTables, Sound;
    hide GrantsOf, ExposuresOf, IsOwner, Publishes;
    var w' := Step(cfg, w, r).0;
    match r.call
    case CallStop(id, ans) => StopKeeps(cfg, w, r.actor, id, ans, abandoned, routes);
    case CallStart(id, template, ans) => BeginAndResumeKeeps(cfg, w, id, template, ans, abandoned, routes);
    case CallDestroy(id, ans) =>
      if id in w.t.rows {
        TeardownKeeps(cfg, w, ToEnvironment(w.t, id), ans, abandoned, routes);
      }
    case CallExpose(id, port, wanted, access, ans) =>
      forall k | k != id ensures Kept(w, w', k) { ExposeFrame(cfg, w, r.actor, id, port, wanted, access, ans, k); }
      ExposeSound(cfg, w, r.actor, id, port, wanted, access, ans, abandoned, routes);
      OverwroteOnlyByUp(cfg, w, r);
      OneMoves(cfg, w, w', abandoned, abandoned, routes, id);
    case CallUnexpose(id, name, ans) =>
      forall k | k != id ensures Kept(w, w', k) { UnexposeFrame(cfg, w, r.actor, id, name, ans, k); }
      UnexposeSound(cfg, w, r.actor, id, name, ans, abandoned, routes);
      OverwroteOnlyByUp(cfg, w, r);
      OneMoves(cfg, w, w', abandoned, abandoned, routes, id);
    case CallShare(id, principal) =>
      forall k | k != id ensures Kept(w, w', k) { ShareFrame(w, r.actor, id, principal, k); }
      ShareSound(cfg, w, r.actor, id, principal, abandoned, routes);
      OverwroteOnlyByUp(cfg, w, r);
      OneMoves(cfg, w, w', abandoned, abandoned, routes, id);
    case CallUnshare(id, principal) =>
      forall k | k != id ensures Kept(w, w', k) { UnshareFrame(w, r.actor, id, principal, k); }
      ShareSound(cfg, w, r.actor, id, principal, abandoned, routes);
      OverwroteOnlyByUp(cfg, w, r);
      OneMoves(cfg, w, w', abandoned, abandoned, routes, id);
    case CallReap(now, order, answers) =>
      if Lists(order, Expired(w.t, now)) {
        ReapKeeps(cfg, w, r.actor, now, order, answers, abandoned, routes);
      }
  }

  lemma OverwroteOnlyByUp(cfg: Settings, w: World, r: Request)
    requires r.call.CallExpose? || r.call.CallUnexpose? || r.call.CallShare? || r.call.CallUnshare?
    ensures Step(cfg, w, r).0.overwrote == w.overwrote
  {
    hide LabelFree, SetExposure, RemoveExposure, Upsert, Synced, GrantsOf, ExposuresOf, PrimaryUrl, IsOwner;
    hide Naming.ValidateExposureLabel;
  }

  /** The operations that a run abandons, told from its requests: those reserved by an `up` whose
      spec cannot be built. */
  ghost function Abandoned(cfg: Settings, requests: seq<Request>): set<nat> {
    if requests == [] then {}
    else
      var prefix, last := requests[..|requests| - 1], requests[|requests| - 1];
      Abandoned(cfg, prefix) + AbandonedBy(cfg, Run(cfg, START, prefix).t, last)
  }

  ghost predicate AllPublish(requests: seq<Request>) {
    forall i :: 0 <= i < |requests| ==> PublishesAll(requests[i].call)
  }

  lemma {:induction false} RunKeeps(cfg: Settings, requests: seq<Request>)
    ensures Inv(cfg, Run(cfg, START, requests), Abandoned(cfg, requests), AllPublish(requests))
  {
    if requests == [] {
      assert forall k :: Sound(cfg, START, {}, true, k);
    } else {
      hide Inv, Step, PublishesAll, AbandonedBy;
      var prefix, last := requests[..|requests| - 1], requests[|requests| - 1];
      RunKeeps(cfg, prefix);
      var w := Run(cfg, START, prefix);
      var routes := AllPublish(requests);
      if routes {
        assert forall i :: 0 <= i < |prefix| ==> prefix[i] == requests[i];
      }
      Fewer(cfg, w, Abandoned(cfg, prefix), AllPublish(prefix), routes);
      StepKeeps(cfg, w, last, Abandoned(cfg, prefix), routes);
    }
  }

  lemma Fewer(cfg: Settings, w: World, abandoned: set<nat>, more: bool, routes: bool)
    requires Inv(cfg, w, abandoned, more) && (routes ==> more)
    ensures Inv(cfg, w, abandoned, routes)
  {
    hide Conserved, Rested, Routed;
    forall k ensures Sound(cfg, w, abandoned, routes, k) {
      assert Sound(cfg, w, abandoned, more, k);
    }
  }

  lemma StepKeeps(cfg: Settings, w: World, r: Request, abandoned: set<nat>, routes: bool)
    requires Inv(cfg, w, abandoned, routes) && (routes ==> PublishesAll(r.call))
    ensures Inv(cfg, Step(cfg, w, r).0, abandoned + AbandonedBy(cfg, w.t, r), routes)
  {
    hide Inv, Up, Publishes, Abandons;
    match r.call
    case CallUp(req, ans) => UpKeeps(cfg, w, r.actor, req, ans, abandoned, routes);
    case _ =>
      hide Step;
      OthersKeep(cfg, w, r, abandoned, routes);
      assert abandoned + {} == abandoned;
  }

  // ---- what no run can break ----

  /** No orphans, whatever fails: an instance whose `create` returned and whose `destroy` has
      not since succeeded belongs to a row that is neither destroyed nor error and records its
      backend, and `create` was never called for a name with an instance alive. */
  lemma NoOrphans(cfg: Settings, requests: seq<Request>, backend: string, id: string)
    ensures var w := Run(cfg, START, requests);
      && !w.overwrote
      && ((backend, id) in w.alive ==>
            && id in w.t.rows && !Dead(w.t.rows[id].status)
            && Backend(cfg, ToEnvironment(w.t, id)) == backend)
  {
    hide Run, Rested, Routed;
    RunKeeps(cfg, requests);
    var w := Run(cfg, START, requests);
    assert Sound(cfg, w, Abandoned(cfg, requests), AllPublish(requests), id);
    assert Alive(w, id, backend) <==> (backend, id) in w.alive;
  }

  /** So a name with an instance alive can be reserved by nobody. */
  lemma AliveNamesAreKept(cfg: Settings, requests: seq<Request>, backend: string, inst: Environment, quota: Option<nat>)
    ensures var w := Run(cfg, START, requests);
      (backend, inst.id) in w.alive ==> !Reserve(w.t, inst, quota).1.Reserved?
  {
    hide Run;
    NoOrphans(cfg, requests, backend, inst.id);
  }

  /** Between calls, the unfinished operations are exactly those reserved by an `up` whose spec
      cannot be built, no other row has an operation outstanding, and every other status is at rest. */
  lemma ClosedAtRest(cfg: Settings, requests: seq<Request>)
    ensures var t := Run(cfg, START, requests).t;
      && (forall o :: o in t.ops ==> (Unfinished(t.ops[o]) <==> o in Abandoned(cfg, requests)))
      && (forall id :: id in t.rows && t.rows[id].active.Some? ==> t.rows[id].active.value in Abandoned(cfg, requests))
      && (forall id :: id in t.rows && t.rows[id].status !in AT_REST ==>
            t.rows[id].status.Creating? && t.rows[id].active.Some?)
  {
    hide Run, Conserved, Routed, Abandoned;
    RunKeeps(cfg, requests);
    var w, abandoned := Run(cfg, START, requests), Abandoned(cfg, requests);
    forall o | o in w.t.ops ensures Unfinished(w.t.ops[o]) <==> o in abandoned {
      assert Sound(cfg, w, abandoned, AllPublish(requests), w.t.ops[o].env);
      assert OpOf(w.t, w.t.ops[o].env, o) == Some(w.t.ops[o]);
    }
    forall id | id in w.t.rows
      ensures w.t.rows[id].active.Some? ==> w.t.rows[id].active.value in abandoned
      ensures w.t.rows[id].status !in AT_REST ==> w.t.rows[id].status.Creating? && w.t.rows[id].active.Some?
    {
      assert Sound(cfg, w, abandoned, AllPublish(requests), id);
    }
  }

  /** When ingress and egress do not fail (the runtime may), an environment has a route file
      exactly when it is ready with an address and exposes something, and the file is the
      rendering of its exposures and address. */
  lemma RoutesAreAView(cfg: Settings, requests: seq<Request>, id: string)
    requires AllPublish(requests)
    ensures var w := Run(cfg, START, requests);
      && (id in w.files <==>
            && id in w.t.rows && w.t.rows[id].status == Ready
            && w.t.rows[id].ip.Some? && w.t.rows[id].ip.value != "" && ExposuresOf(w.t, id) != map[])
      && (id in w.files ==>
            w.files[id] == Render(cfg.domain, id, ExposuresOf(w.t, id), w.t.rows[id].ip.value))
  {
    hide Run, Conserved, Rested, Render, ExposuresOf, GrantsOf, AllPublish;
    RunKeeps(cfg, requests);
    assert Sound(cfg, Run(cfg, START, requests), Abandoned(cfg, requests), AllPublish(requests), id);
  }

  // ---- when nothing is abandoned ----

  /** Request `i` of a run is an `up` that abandons what it reserves. */
  ghost predicate AbandonsAt(cfg: Settings, requests: seq<Request>, i: nat)
    requires i < |requests|
  {
    AbandonedBy(cfg, Run(cfg, START, requests[..i]).t, requests[i]) != {}
  }

  lemma {:induction false} AbandonedFrom(cfg: Settings, requests: seq<Request>)
    ensures Abandoned(cfg, requests) == {} <==> forall i :: 0 <= i < |requests| ==> !AbandonsAt(cfg, requests, i)
  {
    hide Run, AbandonedBy;
    if requests != [] {
      var n := |requests| - 1;
      var prefix := requests[..n];
      AbandonedFrom(cfg, prefix);
      forall i | 0 <= i < n ensures AbandonsAt(cfg, prefix, i) <==> AbandonsAt(cfg, requests, i) {
        assert prefix[..i] == requests[..i];
      }
      assert Abandoned(cfg, requests) == {} <==> Abandoned(cfg, prefix) == {} && !AbandonsAt(cfg, requests, n);
    }
  }

  /** Some template document that the parser accepts describes the template. */
  ghost predicate Accepted(template: TemplateConfig) {
    exists raw :: WellFormed(raw) && Describes(template, raw)
  }

  /** The request would reserve a name, and its deployment part fails or its hook names an optional
      parameter that has no default and was not supplied. */
  ghost predicate Unlucky(cfg: Settings, t: Tables, r: Request) {
    && r.call.CallUp? && Reservation(cfg, t, r.actor, r.call.req).Some?
    && (!r.call.ans.spec || NamesOmitted(Hooks.Placeholders(r.call.req.template.provision),
                                         r.call.req.template.params, r.call.req.args))
  }

  ghost predicate AsAccepted(r: Request) {
    r.call.CallUp? ==> Accepted(r.call.req.template)
  }

  lemma AbandonedByIff(cfg: Settings, t: Tables, r: Request)
    ensures AsAccepted(r) ==> (AbandonedBy(cfg, t, r) != {} <==> Unlucky(cfg, t, r))
  {
    hide WellFormed, Describes, Reserves, CourseOf, Unbuildable, NamesOmitted, Hooks.Placeholders;
    if r.call.CallUp? && Accepted(r.call.req.template) {
      var req := r.call.req;
      var raw :| WellFormed(raw) && Describes(req.template, raw);
      AbandonsIff(cfg, t, r.actor, req, r.call.ans, raw);
      match CourseOf(cfg, t, r.actor, req) {
        case Make(owner, key, id) =>
          if Reserves(cfg, t, owner, key, req, id).Some? {
            var _, _ := ReservedIs(cfg, t, owner, key, req, id);
          }
        case _ =>
      }
    }
  }

  /** On templates the parser accepted, a run leaves no operation open between its calls exactly
      when none of its requests is such an `up`, which can be told before each is made. */
  lemma NothingAbandonedIff(cfg: Settings, requests: seq<Request>)
    ensures (forall i :: 0 <= i < |requests| ==> AsAccepted(requests[i])) ==>
      (Abandoned(cfg, requests) == {} <==>
       forall i :: 0 <= i < |requests| ==> !Unlucky(cfg, Run(cfg, START, requests[..i]).t, requests[i]))
  {
    hide Run, AbandonedBy, Unlucky, AsAccepted, Abandoned;
    AbandonedFrom(cfg, requests);
    forall i | 0 <= i < |requests|
      ensures AsAccepted(requests[i]) ==>
        (AbandonsAt(cfg, requests, i) <==> Unlucky(cfg, Run(cfg, START, requests[..i]).t, requests[i]))
    {
      AbandonedByIff(cfg, Run(cfg, START, requests[..i]).t, requests[i]);
    }
  }

  /** A call fails on its spec exactly when it abandons a reservation: no other call does. */
  lemma SpecFailsIff(cfg: Settings, w: World, r: Request)
    ensures Step(cfg, w, r).1 == Raised(SpecFailed) <==>
      r.call.CallUp? && Abandons(cfg, w.t, r.actor, r.call.req, r.call.ans)
  {
    hide Abandons, Up;
    match r.call
    case CallUp(req, ans) => UpRaisesIff(cfg, w, r.actor, req, ans);
    case _ =>
      hide Step;
      OthersNeverAbandon(cfg, w, r);
  }
}
