/** What each call answers and leaves, told from the row, the actor and what the outside answers:
    when it returns, when it raises and what, and every field it moves. */
module Outcomes {
  import opened Wrappers
  import opened Model
  import opened Tables
  import opened Config
  import opened Ingress
  import opened Control
  import opened Frames
  import Access
  import Commits
  import Fence
  import Hooks
  import Lifecycle
  import Naming
  import Strings

  /** Everything but one row, the operations, the supply and the route files is as it was. */
  ghost predicate OnlyRow(w: World, w': World, id: string, row: Row) {
    && w'.t.rows == w.t.rows[id := row]
    && w'.t.leases == w.t.leases && w'.t.exposures == w.t.exposures && w'.t.grants == w.t.grants
    && w'.alive == w.alive && w'.overwrote == w.overwrote
  }

  /** The operation that a call opened on the row at rest is over. */
  ghost predicate OneOperation(w: World, w': World, id: string, kind: Kind, worked: bool)
    requires id in w.t.rows
  {
    && w'.t.ops == w.t.ops[w.t.supply :=
         Operation(id, w.t.rows[id].generation, kind, if worked then Succeeded else Failed)]
    && w'.t.supply == w.t.supply + 1
  }

  /** The backend that a row records is registered; no name means the default one. */
  predicate Registered(cfg: Settings, backend: string) {
    if backend == "" then cfg.defaultBackend in cfg.backends else backend in cfg.backends
  }

  // ---- stop ----

  /** Stopping a ready environment at rest, by its owner or an admin: the row ends stopped without
      an address exactly when egress, backend and runtime all work, and otherwise ready as it was
      with the reason; the call returns exactly when the route file goes as well. */
  lemma StopOutcome(cfg: Settings, w: World, actor: Principal, id: string, ans: Answers)
    requires id in w.t.rows && w.t.rows[id].status == Ready && w.t.rows[id].active == None
    requires actor.admin || w.t.rows[id].owner == actor.id
    ensures var (w', outcome) := StopIt(cfg, w, actor, id, ans);
      var r := w.t.rows[id];
      var worked := ans.unregister && ans.stop && Registered(cfg, r.backend);
      && OnlyRow(w, w', id, if worked then r.(status := Stopped, ip := None) else r.(error := ans.reason))
      && OneOperation(w, w', id, Kind.Stop, worked)
      && w'.files == (if worked && ans.deregister then w.files - {id} else w.files)
      && (outcome.Returned? <==> worked && ans.deregister)
      && (outcome.Returned? ==> outcome.inst.id == id && outcome.inst.status == Stopped && outcome.inst.ip == None)
      && (!outcome.Returned? ==> outcome == Raised(CawlFailure))
  {
    hide CompleteOperation, GrantsOf, ExposuresOf, BeginOperation;
    Fence.BeginShape(w.t, id, Kind.Stop, {Ready}, Stopping);
    Commits.BegunIsCurrent(w.t, id, Kind.Stop, {Ready}, Stopping);
    var (t1, begun) := BeginOperation(w.t, id, Kind.Stop, {Ready}, Stopping);
    var inst := begun.value;
    Fence.CompleteShape(t1, inst.(status := Ready, error := ans.reason), false);
    Fence.CompleteShape(t1, inst.(status := Stopped, ip := None), true);
    Commits.CommitOnce(t1, inst.(status := Stopped, ip := None), true, inst);
  }

  /** Whatever else is asked to stop stays as it is. */
  lemma StopRefused(cfg: Settings, w: World, actor: Principal, id: string, ans: Answers)
    ensures var (w', outcome) := StopIt(cfg, w, actor, id, ans);
      && (id !in w.t.rows || w.t.rows[id].status == Destroyed ==> (w', outcome) == (w, Raised(NotFound)))
      && (id in w.t.rows && w.t.rows[id].status != Destroyed ==>
          var r := w.t.rows[id];
          if !actor.admin && r.owner != actor.id then (w', outcome) == (w, Raised(PermissionDenied))
          else if r.status == Stopped then w' == w && outcome == Returned(ToEnvironment(w.t, id))
          else if r.status != Ready || r.active.Some? then (w', outcome) == (w, Raised(CawlFailure))
          else w' != w)
  {
    hide CompleteOperation, GrantsOf, ExposuresOf, BeginOperation;
    Fence.BeginShape(w.t, id, Kind.Stop, {Ready}, Stopping);
    if id in w.t.rows && w.t.rows[id].status == Ready && w.t.rows[id].active == None
       && (actor.admin || w.t.rows[id].owner == actor.id) {
      StopOutcome(cfg, w, actor, id, ans);
    }
  }

  // ---- start ----

  /** The hook renders: it names nothing but builtins and the environment's own arguments. */
  ghost predicate HookRenders(template: TemplateConfig, args: map<string, string>) {
    forall n :: n in Hooks.Placeholders(template.provision) ==> n == "id" || n == "template" || n in args
  }

  lemma SpecIff(template: TemplateConfig, inst: Environment, ans: Answers)
    ensures SpecBuilds(template, inst, ans) <==> ans.spec && HookRenders(template, inst.key.args)
  {
    hide Hooks.Render, Hooks.Placeholders, HookValues;
    RenderFailsIff(template.provision, HookValues(inst.id, inst.key.template, inst.key.args));
    HookKeys(inst.id, inst.key.template, inst.key.args);
  }

  /** Resuming a stopped environment at rest: it ends ready at the address the runtime reports
      exactly when backend, spec, runtime and certificate work, and otherwise stopped with the
      reason; the call returns exactly when the routes are published as well. */
  lemma ResumeOutcome(cfg: Settings, w: World, id: string, template: TemplateConfig, ans: Answers)
    requires id in w.t.rows && w.t.rows[id].status == Stopped && w.t.rows[id].active == None
    ensures var (w', outcome) := BeginAndResume(cfg, w, id, template, ans);
      var r := w.t.rows[id];
      var booted := Registered(cfg, r.backend) && ans.spec && HookRenders(template, r.key.args) && ans.start.Some?;
      var worked := booted && ans.cert;
      && OnlyRow(w, w', id,
           if worked then r.(status := Ready, ip := ans.start.value)
           else r.(error := ans.reason, ip := if booted then ans.start.value else r.ip))
      && OneOperation(w, w', id, Kind.Start, worked)
      && (outcome.Returned? <==> worked && ans.sync)
      && (outcome.Returned? ==> outcome.inst.id == id && outcome.inst.status == Ready
                                && outcome.inst.ip == ans.start.value)
      && (!outcome.Returned? ==> outcome == Raised(CawlFailure) && w'.files == w.files)
  {
    hide CompleteOperation, BeginOperation, Resume, SpecBuilds, HookRenders, BeginAndResume, OnlyRow, OneOperation;
    var c, ok := Resumes(cfg, w, id, template, ans);
    var (t1, begun) := BeginOperation(w.t, id, Kind.Start, {Stopped}, Starting);
    Commits.BegunIsCurrent(w.t, id, Kind.Start, {Stopped}, Starting);
    SpecIff(template, begun.value, ans);
    ResumeRaises(cfg, w, id, template, ans);
  }

  lemma Resumes(cfg: Settings, w: World, id: string, template: TemplateConfig, ans: Answers)
    returns (c: Environment, ok: bool)
    requires id in w.t.rows && w.t.rows[id].status == Stopped && w.t.rows[id].active == None
    ensures var (w', outcome) := BeginAndResume(cfg, w, id, template, ans);
      var inst := BeginOperation(w.t, id, Kind.Start, {Stopped}, Starting).1.value;
      var booted := Backend(cfg, inst) in cfg.backends && SpecBuilds(template, inst, ans) && ans.start.Some?;
      && (ok <==> booted && ans.cert)
      && c.id == id && c.status == (if ok then Ready else Stopped)
      && c.ip == (if booted then ans.start.value else w.t.rows[id].ip)
      && OnlyRow(w, w', id,
           if ok then w.t.rows[id].(status := Ready, ip := c.ip) else w.t.rows[id].(error := ans.reason, ip := c.ip))
      && OneOperation(w, w', id, Kind.Start, ok)
      && (outcome.Returned? <==> ok && ans.sync) && (outcome.Returned? ==> outcome.inst == c.(operation := None))
      && (!outcome.Returned? ==> w'.files == w.files)
  {
    hide CompleteOperation, GrantsOf, ExposuresOf, BeginOperation, Resume, SpecBuilds, Current, Synced;
    Fence.BeginShape(w.t, id, Kind.Start, {Stopped}, Starting);
    Commits.BegunIsCurrent(w.t, id, Kind.Start, {Stopped}, Starting);
    var (t1, begun) := BeginOperation(w.t, id, Kind.Start, {Stopped}, Starting);
    c, ok := Commits.ResumeCommits(cfg, w.(t := t1), begun.value, template, ans);
    Committed(w.t, id, Kind.Start, {Stopped}, Starting, c, ok);
  }

  /** Begin and commit: the row takes the record's status, address and error. */
  lemma Committed(t: Tables, id: string, kind: Kind, expected: set<Status>, transitional: Status,
                  c: Environment, ok: bool)
    requires CanBegin(t, id, expected) && !c.status.Creating?
    requires c == BeginOperation(t, id, kind, expected, transitional).1.value
                    .(status := c.status, ip := c.ip, error := c.error)
    ensures var t' := CompleteOperation(BeginOperation(t, id, kind, expected, transitional).0, c, ok).0;
      && t'.rows == t.rows[id := t.rows[id].(status := c.status, ip := c.ip, error := c.error)]
      && t'.ops == t.ops[t.supply := Operation(id, t.rows[id].generation, kind, if ok then Succeeded else Failed)]
      && t' == t.(rows := t'.rows, ops := t'.ops, supply := t.supply + 1)
  {
    hide CompleteOperation, GrantsOf, ExposuresOf, BeginOperation;
    Fence.BeginShape(t, id, kind, expected, transitional);
    Commits.BegunIsCurrent(t, id, kind, expected, transitional);
    Fence.CompleteShape(BeginOperation(t, id, kind, expected, transitional).0, c, ok);
  }

  lemma ResumeRaises(cfg: Settings, w: World, id: string, template: TemplateConfig, ans: Answers)
    ensures var outcome := BeginAndResume(cfg, w, id, template, ans).1;
      !outcome.Returned? ==> outcome == Raised(CawlFailure)
  {
    hide CompleteOperation, BeginOperation, Suspend, SpecBuilds, Synced;
  }

  /** What `start` does otherwise: a ready environment is returned as it is. */
  lemma StartIs(cfg: Settings, w: World, actor: Principal, id: string, template: TemplateConfig, ans: Answers)
    ensures StartIt(cfg, w, actor, id, template, ans) ==
      if id !in w.t.rows || w.t.rows[id].status == Destroyed then (w, Raised(NotFound))
      else if !actor.admin && w.t.rows[id].owner != actor.id then (w, Raised(PermissionDenied))
      else if w.t.rows[id].status == Ready then (w, Returned(ToEnvironment(w.t, id)))
      else if w.t.rows[id].status != Stopped || w.t.rows[id].active.Some? then (w, Raised(CawlFailure))
      else BeginAndResume(cfg, w, id, template, ans)
  {
    hide BeginOperation, Resume, GrantsOf, ExposuresOf;
    Fence.BeginShape(w.t, id, Kind.Start, {Stopped}, Starting);
  }

  // ---- destroy and reap ----

  /** The row, and nothing of what it leased, exposed or granted. */
  ghost predicate Gone(t: Tables, t': Tables, id: string) {
    && id in t'.rows && t'.rows == t.rows[id := t'.rows[id]] && t'.ops == t.ops && t'.supply == t.supply
    && (forall n :: n in t'.leases <==> n in t.leases && t.leases[n] != id)
    && (forall n :: n in t'.leases ==> t'.leases[n] == t.leases[n])
    && (forall n :: n in t'.exposures <==> n in t.exposures && t.exposures[n].env != id)
    && (forall n :: n in t'.exposures ==> t'.exposures[n] == t.exposures[n])
    && (forall g :: g in t'.grants <==> g in t.grants && g.0 != id)
  }

  /** Tearing down an environment, from its row: the route file goes first, then egress, then the
      instance, then the row. A runtime that refuses leaves the row `destroy_failed` with the reason;
      a failure before that leaves the store as it was. */
  lemma TeardownOutcome(cfg: Settings, w: World, id: string, ans: Answers)
    requires id in w.t.rows
    ensures var (w', outcome) := Teardown(cfg, w, ToEnvironment(w.t, id), ans);
      var r := w.t.rows[id];
      var backend := if r.backend == "" then cfg.defaultBackend else r.backend;
      var destroyed := ans.deregister && ans.unregister && ans.destroy && backend in cfg.backends;
      && w'.overwrote == w.overwrote
      && w'.files == (if ans.deregister then w.files - {id} else w.files)
      && w'.alive == (if destroyed then w.alive - {(backend, id)} else w.alive)
      && outcome == (if destroyed then Done else Raised(CawlFailure))
      && if destroyed then
           Gone(w.t, w'.t, id) && w'.t.rows[id] == r.(status := Destroyed, destroyedAt := true)
         else if ans.deregister && ans.unregister then
           w'.t == w.t.(rows := w.t.rows[id := r.(status := DestroyFailed, error := ans.reason)])
         else w'.t == w.t
  {
    hide GrantsOf, ExposuresOf;
    assert Write(w.t.rows[id], ToEnvironment(w.t, id)) == w.t.rows[id];
  }

  lemma DestroyIs(cfg: Settings, w: World, actor: Principal, id: string, ans: Answers)
    ensures DestroyIt(cfg, w, actor, id, ans) ==
      if id !in w.t.rows || w.t.rows[id].status == Destroyed then (w, Raised(NotFound))
      else if !actor.admin && w.t.rows[id].owner != actor.id then (w, Raised(PermissionDenied))
      else Teardown(cfg, w, ToEnvironment(w.t, id), ans)
  {
    hide Teardown, GrantsOf, ExposuresOf;
  }

  /** Not destroyed, and its lifetime is over. */
  predicate Overdue(t: Tables, id: string, now: int) {
    id in t.rows && t.rows[id].status != Destroyed
    && match t.rows[id].expiresAt
       case None => false
       case Some(end) => end <= now
  }

  /** A reaper pass by anyone but an admin does nothing. In every other, returning or raising, an
      environment whose lifetime is not over keeps its row, operations, leases, exposures, grants,
      instances and route file. */
  lemma ReapSpares(cfg: Settings, requests: seq<Request>, actor: Principal, now: int, order: seq<string>,
                   answers: nat -> Answers, k: string)
    ensures var w := Run(cfg, START, requests);
      var (w', outcome) := Step(cfg, w, Request(actor, CallReap(now, order, answers)));
      && (!actor.admin ==> w' == w && outcome.Raised?)
      && (!Overdue(w.t, k, now) ==> Same(w, w', k))
  {
    hide Run, TeardownAll, Same, GrantsOf, ExposuresOf;
    var w := Run(cfg, START, requests);
    Access.RunSupplies(cfg, requests);
    assert Same(w, w, k) by { KeptSame(w, w, k); }
    if actor.admin && Lists(order, Expired(w.t, now)) && !Overdue(w.t, k, now) {
      assert forall i :: 0 <= i < |order| ==> order[i] in Expired(w.t, now);
      TeardownAllSpares(cfg, w, Records(w.t, order), answers, 0, k);
    }
  }

  lemma {:induction false} TeardownAllSpares(cfg: Settings, w: World, insts: seq<Environment>, answers: nat -> Answers,
                                             i: nat, k: string)
    requires OpsSupplied(w.t) && forall j :: i <= j < |insts| ==> insts[j].id != k
    ensures Kept(w, TeardownAll(cfg, w, insts, answers, i).0, k)
    decreases |insts| - i
  {
    hide Teardown, SameTables;
    if i < |insts| {
      var w1 := Teardown(cfg, w, insts[i], answers(i)).0;
      TeardownFrame(cfg, w, insts[i], answers(i), k);
      TeardownAllSpares(cfg, w1, insts, answers, i + 1, k);
      KeptTwice(w, w1, TeardownAll(cfg, w, insts, answers, i).0, k);
    } else {
      KeptSame(w, w, k);
    }
  }

  /** A pass that returns has destroyed everything overdue, and leaves nothing overdue. */
  lemma ReapClears(cfg: Settings, requests: seq<Request>, actor: Principal, now: int, order: seq<string>,
                   answers: nat -> Answers, k: string)
    ensures var w := Run(cfg, START, requests);
      var (w', outcome) := Step(cfg, w, Request(actor, CallReap(now, order, answers)));
      outcome.Done? ==>
        !Overdue(w'.t, k, now) && (Overdue(w.t, k, now) ==> k in w'.t.rows && w'.t.rows[k].status == Destroyed)
  {
    hide Run, TeardownAll, GrantsOf, ExposuresOf;
    var w := Run(cfg, START, requests);
    Access.RunSupplies(cfg, requests);
    if actor.admin && Lists(order, Expired(w.t, now)) {
      assert forall i :: 0 <= i < |order| ==> order[i] in Expired(w.t, now);
      var insts := Records(w.t, order);
      if Overdue(w.t, k, now) {
        assert k in Expired(w.t, now) && k in (set i | i in order);
        var j :| 0 <= j < |order| && order[j] == k;
        assert insts[j].id == k;
        TeardownAllEnds(cfg, w, insts, answers, 0, k);
      } else {
        TeardownAllSpares(cfg, w, insts, answers, 0, k);
        assert RowOf(w.t, k) == RowOf(TeardownAll(cfg, w, insts, answers, 0).0.t, k);
      }
    }
  }

  /** A pass over what is overdue, by an admin, returns exactly if every teardown works. */
  lemma ReapReturnsIff(cfg: Settings, w: World, actor: Principal, now: int, order: seq<string>, answers: nat -> Answers)
    requires (forall i, j :: 0 <= i < j < |order| ==> order[i] != order[j]) && actor.admin
    requires forall k :: k in order <==> Overdue(w.t, k, now)
    ensures Step(cfg, w, Request(actor, CallReap(now, order, answers))).1.Done? <==>
      forall i :: 0 <= i < |order| ==>
        answers(i).deregister && answers(i).unregister && answers(i).destroy
        && (order[i] in w.t.rows ==> Registered(cfg, w.t.rows[order[i]].backend))
  {
    hide TeardownAll, GrantsOf, ExposuresOf;
    assert (set k | k in order) == Expired(w.t, now) by {
      forall k ensures k in (set k | k in order) <==> k in Expired(w.t, now) {
        assert k in order <==> Overdue(w.t, k, now);
      }
    }
    assert forall i :: 0 <= i < |order| ==> order[i] in Expired(w.t, now);
    TeardownAllIff(cfg, w, Records(w.t, order), answers, 0);
  }

  lemma {:induction false} TeardownAllIff(cfg: Settings, w: World, insts: seq<Environment>, answers: nat -> Answers,
                                          i: nat)
    requires i <= |insts|
    ensures TeardownAll(cfg, w, insts, answers, i).1.Done? <==>
      forall j :: i <= j < |insts| ==>
        answers(j).deregister && answers(j).unregister && answers(j).destroy && Registered(cfg, insts[j].backend)
    decreases |insts| - i
  {
    hide Upsert, Delete;
    if i < |insts| {
      TeardownAllIff(cfg, Teardown(cfg, w, insts[i], answers(i)).0, insts, answers, i + 1);
    }
  }

  lemma {:induction false} TeardownAllEnds(cfg: Settings, w: World, insts: seq<Environment>, answers: nat -> Answers,
                                           i: nat, k: string)
    requires exists j :: i <= j < |insts| && insts[j].id == k
    requires forall a, b :: 0 <= a < b < |insts| ==> insts[a].id != insts[b].id
    requires OpsSupplied(w.t) && k in w.t.rows
    ensures var (w', outcome) := TeardownAll(cfg, w, insts, answers, i);
      outcome.Done? ==> k in w'.t.rows && w'.t.rows[k].status == Destroyed
    decreases |insts| - i
  {
    hide Teardown;
    if i < |insts| {
      var (w1, outcome) := Teardown(cfg, w, insts[i], answers(i));
      TeardownEnds(cfg, w, insts[i], answers(i));
      if outcome.Done? {
        if insts[i].id == k {
          Supplied(cfg, w, insts[i], answers(i));
          TeardownAllSpares(cfg, w1, insts, answers, i + 1, k);
          assert RowOf(w1.t, k) == RowOf(TeardownAll(cfg, w1, insts, answers, i + 1).0.t, k);
        } else {
          TeardownFrame(cfg, w, insts[i], answers(i), k);
          assert RowOf(w.t, k) == RowOf(w1.t, k);
          TeardownAllEnds(cfg, w1, insts, answers, i + 1, k);
        }
      }
    }
  }

  lemma Supplied(cfg: Settings, w: World, inst: Environment, ans: Answers)
    requires OpsSupplied(w.t)
    ensures OpsSupplied(Teardown(cfg, w, inst, ans).0.t)
  {
  }

  lemma TeardownEnds(cfg: Settings, w: World, inst: Environment, ans: Answers)
    ensures var (w', outcome) := Teardown(cfg, w, inst, ans);
      && (outcome.Done? || outcome.Raised?)
      && (outcome.Done? && inst.id in w.t.rows ==> inst.id in w'.t.rows && w'.t.rows[inst.id].status == Destroyed)
  {
  }

  // ---- labels, access lists and front doors ----

  /** Nobody else's: no other environment that is not destroyed exposes the label, no other live one
      has it as its id, and it is not the sign-in host's. */
  predicate Free(cfg: Settings, t: Tables, name: string, id: string) {
    && (name in t.exposures && t.exposures[name].env != id && t.exposures[name].env in t.rows ==>
          t.rows[t.exposures[name].env].status == Destroyed)
    && (name in t.rows && name != id ==> t.rows[name].status == Destroyed || t.rows[name].status == Errored)
    && cfg.authHost != name + "." + cfg.domain
  }

  lemma FreeIff(cfg: Settings, t: Tables, name: string, id: string)
    ensures LabelFree(cfg, t, name, id) <==> Free(cfg, t, name, id)
  {
  }

  /** Neither leased to nor exposed by another environment, be it destroyed. */
  predicate Unheld(t: Tables, name: string, id: string) {
    && (name in t.leases ==> t.leases[name] == id)
    && (name in t.exposures ==> t.exposures[name].env == id)
  }

  /** The addresses given, without surrounding space and in lower case, blank ones left out, each
      once and in the order given. */
  lemma {:induction false} AccessIs(access: seq<string>)
    ensures var r := Strings.Dedup(CleanAccess(access));
      && Strings.NoDup(r)
      && forall x :: x in r <==> x != "" && exists a :: a in access && x == Strings.Lower(Strings.Strip(a))
  {
    hide Strings.Lower, Strings.Strip, Strings.Dedup;
    Strings.DedupIs(CleanAccess(access));
    CleanedAre(access);
  }

  lemma {:induction false} CleanedAre(access: seq<string>)
    ensures forall x :: x in CleanAccess(access) <==>
      x != "" && exists a :: a in access && x == Strings.Lower(Strings.Strip(a))
  {
    hide Strings.Lower, Strings.Strip;
    if access != [] {
      var init, last := access[..|access| - 1], access[|access| - 1];
      CleanedAre(init);
      assert access == init + [last];
      assert forall a :: a in access <==> a in init || a == last;
    }
  }

  /** The labels that an environment exposes. */
  function Labels(t: Tables, id: string): set<string> {
    set n | n in t.exposures && t.exposures[n].env == id
  }

  /** The front door is the environment's own id, or its only label, under the base domain. */
  ghost predicate FrontDoor(cfg: Settings, labels: set<string>, id: string, url: Option<string>) {
    && (id in labels ==> url == Some("https://" + (id + "." + cfg.domain)))
    && (forall n :: id !in labels && labels == {n} ==> url == Some("https://" + (n + "." + cfg.domain)))
    && (id !in labels && (forall n :: labels != {n}) ==> url == None)
  }

  lemma FrontDoorIs(cfg: Settings, inst: Environment)
    ensures FrontDoor(cfg, inst.exposures.Keys, inst.id, PrimaryUrl(cfg, inst))
  {
    var labels := inst.exposures.Keys;
    if |labels| == 1 {
      var n := TheOnly(labels);
      assert labels == {n};
      forall m | labels == {m} ensures m == n {
        assert m in {n};
      }
    } else {
      forall m ensures labels != {m} {
        assert |{m}| == 1;
      }
    }
  }

  // ---- expose and unexpose ----

  /** After a label came or went: the row takes its front door, and a ready environment its routes. */
  ghost predicate Published(cfg: Settings, t: Tables, w: World, w': World, outcome: Outcome, id: string, ans: Answers)
    requires id in t.rows
  {
    var ready := t.rows[id].status == Ready;
    && id in w'.t.rows && w'.t == t.(rows := t.rows[id := t.rows[id].(url := w'.t.rows[id].url)])
    && FrontDoor(cfg, Labels(t, id), id, w'.t.rows[id].url)
    && w'.alive == w.alive && w'.overwrote == w.overwrote
    && w'.files == (if ready && ans.sync then Synced(cfg.domain, w.files, ToEnvironment(t, id)) else w.files)
    && (if ready && !ans.sync then outcome == Raised(CawlFailure)
        else outcome == Returned(ToEnvironment(t, id).(url := w'.t.rows[id].url)))
  }

  lemma SyncOutcome(cfg: Settings, w: World, t1: Tables, id: string, ans: Answers)
    requires id in t1.rows && t1.rows[id].status != Destroyed
    ensures var (w', outcome) := SyncExposures(cfg, w.(t := t1), id, ans);
      Published(cfg, t1, w, w', outcome, id, ans)
  {
    hide GrantsOf, PrimaryUrl, FrontDoor, Synced;
    var inst := ToEnvironment(t1, id);
    FrontDoorIs(cfg, inst);
    assert inst.exposures.Keys == Labels(t1, id);
    var inst1 := inst.(url := PrimaryUrl(cfg, inst));
    assert Upsert(t1, inst1) == t1.(rows := t1.rows[id := t1.rows[id].(url := inst1.url)]);
    Commits.SameRoutes(cfg, w.files, inst, inst1);
  }

  /** Exposing: whoever asks for what is refused with the first thing that is wrong, and nothing
      changes; otherwise the label is leased and exposed on its port to those listed. */
  lemma ExposeIs(cfg: Settings, w: World, actor: Principal, id: string, port: int, wanted: Option<string>,
                      access: seq<string>, ans: Answers)
    ensures var (w', outcome) := ExposeIt(cfg, w, actor, id, port, wanted, access, ans);
      var named := Naming.ValidateExposureLabel(if wanted == None then id else wanted.value);
      if id !in w.t.rows || w.t.rows[id].status == Destroyed then (w', outcome) == (w, Raised(NotFound))
      else if !actor.admin && w.t.rows[id].owner != actor.id then (w', outcome) == (w, Raised(PermissionDenied))
      else if named == None then (w', outcome) == (w, Raised(InvalidName))
      else if port < 1 || port > 65535 then (w', outcome) == (w, Raised(CawlFailure))
      else if !Free(cfg, w.t, named.value, id) || !Unheld(w.t, named.value, id) then
        (w', outcome) == (w, Raised(NameConflict))
      else
        var exposure := Exposure(port, Strings.Dedup(CleanAccess(access)));
        var t1 := w.t.(leases := w.t.leases[named.value := id],
                       exposures := w.t.exposures[named.value := ExposureRow(id, exposure)]);
        Published(cfg, t1, w, w', outcome, id, ans)
  {
    hide LabelFree, Free, GrantsOf, ExposuresOf, Naming.ValidateExposureLabel, CleanAccess, SyncExposures, Published;
    var named := Naming.ValidateExposureLabel(if wanted == None then id else wanted.value);
    if named.Some? {
      FreeIff(cfg, w.t, named.value, id);
    }
    if id in w.t.rows && w.t.rows[id].status != Destroyed && named.Some? {
      var exposure := Exposure(port, Strings.Dedup(CleanAccess(access)));
      var t1 := SetExposure(w.t, id, named.value, exposure).0;
      SyncOutcome(cfg, w, t1, id, ans);
    }
  }

  /** Unexposing: the label goes with its lease, but for the environment's own id. */
  lemma UnexposeIs(cfg: Settings, w: World, actor: Principal, id: string, name: string, ans: Answers)
    ensures var (w', outcome) := UnexposeIt(cfg, w, actor, id, name, ans);
      if id !in w.t.rows || w.t.rows[id].status == Destroyed then (w', outcome) == (w, Raised(NotFound))
      else if !actor.admin && w.t.rows[id].owner != actor.id then (w', outcome) == (w, Raised(PermissionDenied))
      else if name !in Labels(w.t, id) then (w', outcome) == (w, Raised(NotFound))
      else
        var ours := name in w.t.leases && w.t.leases[name] == id && name != id;
        var t1 := w.t.(leases := if ours then w.t.leases - {name} else w.t.leases,
                       exposures := w.t.exposures - {name});
        Published(cfg, t1, w, w', outcome, id, ans)
  {
    hide GrantsOf, ExposuresOf, SyncExposures, Published;
    if id in w.t.rows && w.t.rows[id].status != Destroyed {
      SyncOutcome(cfg, w, RemoveExposure(w.t, id, name).0, id, ans);
    }
  }

  // ---- share and unshare ----

  lemma ShareIs(w: World, actor: Principal, id: string, principal: string)
    ensures var (w', outcome) := ShareIt(w, actor, id, principal);
      if id !in w.t.rows || w.t.rows[id].status == Destroyed then (w', outcome) == (w, Raised(NotFound))
      else if !actor.admin && w.t.rows[id].owner != actor.id then (w', outcome) == (w, Raised(PermissionDenied))
      else if principal == w.t.rows[id].owner then (w', outcome) == (w, Raised(CawlFailure))
      else
        && w' == w.(t := w.t.(grants := w.t.grants + {(id, principal)}))
        && outcome.Returned? && outcome.inst.id == id && principal in outcome.inst.sharedWith
  {
    hide ExposuresOf;
  }

  lemma UnshareIs(w: World, actor: Principal, id: string, principal: string)
    ensures var (w', outcome) := UnshareIt(w, actor, id, principal);
      if id !in w.t.rows || w.t.rows[id].status == Destroyed then (w', outcome) == (w, Raised(NotFound))
      else if !actor.admin && w.t.rows[id].owner != actor.id then (w', outcome) == (w, Raised(PermissionDenied))
      else if (id, principal) !in w.t.grants then (w', outcome) == (w, Raised(NotFound))
      else
        && w' == w.(t := w.t.(grants := w.t.grants - {(id, principal)}))
        && outcome.Returned? && outcome.inst.id == id && principal !in outcome.inst.sharedWith
  {
    hide ExposuresOf;
    assert (id, principal) !in w.t.grants ==> w.t.grants - {(id, principal)} == w.t.grants;
  }

  // ---- making an environment ----

  /** Every default exposure's label is free to the environment. */
  ghost predicate DefaultsFree(cfg: Settings, t: Tables, id: string, expose: Expose, i: nat) {
    forall j :: i <= j < |expose.keys| ==>
      var name := Naming.DefaultExposureLabel(id, expose.keys[j]);
      Free(cfg, t, name, id) && Unheld(t, name, id)
  }

  /** One label taken by the environment stands in the way of none of its others. */
  lemma TakingFreesOthers(cfg: Settings, t: Tables, id: string, name: string, exposure: Exposure, other: string)
    requires id in t.rows && Unheld(t, name, id)
    ensures var t' := SetExposure(t, id, name, exposure).0;
      && SetExposure(t, id, name, exposure).1.Exposed?
      && (Free(cfg, t', other, id) <==> Free(cfg, t, other, id)) && (Unheld(t', other, id) <==> Unheld(t, other, id))
  {
  }

  lemma {:induction false} DefaultsIff(cfg: Settings, t: Tables, id: string, expose: Expose, i: nat)
    requires id in t.rows
    ensures ExposeDefaults(cfg, t, id, expose, i).1 <==> DefaultsFree(cfg, t, id, expose, i)
    decreases |expose.keys| - i
  {
    hide LabelFree, SetExposure, Naming.DefaultExposureLabel, Free, Unheld;
    if i < |expose.keys| {
      var name := Naming.DefaultExposureLabel(id, expose.keys[i]);
      var exposure := Exposure(expose.ports[expose.keys[i]], []);
      FreeIff(cfg, t, name, id);
      SetsIff(t, id, name, exposure);
      if Free(cfg, t, name, id) && Unheld(t, name, id) {
        var t1 := SetExposure(t, id, name, exposure).0;
        DefaultsIff(cfg, t1, id, expose, i + 1);
        forall j | i + 1 <= j < |expose.keys|
          ensures var other := Naming.DefaultExposureLabel(id, expose.keys[j]);
            (Free(cfg, t1, other, id) && Unheld(t1, other, id)) <==> (Free(cfg, t, other, id) && Unheld(t, other, id))
        {
          TakingFreesOthers(cfg, t, id, name, exposure, Naming.DefaultExposureLabel(id, expose.keys[j]));
        }
      }
    }
  }

  lemma SetsIff(t: Tables, id: string, name: string, exposure: Exposure)
    requires id in t.rows
    ensures SetExposure(t, id, name, exposure).1.Exposed? <==> Unheld(t, name, id)
    ensures SetExposure(t, id, name, exposure).0.rows == t.rows
  {
  }

  /** Aborting what was never committed: its operation failed, and its row is in error, or
      `destroy_failed` when the instance was made and cannot be destroyed. */
  lemma AbortIs(w: World, inst: Environment, backend: string, created: bool, ans: Answers)
    requires Current(w.t, inst)
    ensures var w' := Abort(w, inst, backend, created, ans);
      && w'.t.rows == w.t.rows[inst.id := Write(w.t.rows[inst.id], inst).(
           status := if created && !ans.destroy then DestroyFailed else Errored, error := ans.reason, active := None)]
      && w'.t.ops == w.t.ops[inst.operation.value := w.t.ops[inst.operation.value].(state := Failed)]
      && w' == w.(t := w.t.(rows := w'.t.rows, ops := w'.t.ops),
                  alive := if created && ans.destroy then w.alive - {(backend, inst.id)} else w.alive)
  {
    hide CompleteOperation, Upsert;
    var errored := inst.(status := Errored, error := ans.reason);
    Fence.CompleteShape(w.t, errored, false);
    Commits.CommitOnce(w.t, errored, false, errored);
    var (t1, failed, _) := CompleteOperation(w.t, errored, false);
    Commits.Rewrites(t1, failed.(status := DestroyFailed));
  }

  /** Publishing commits first: the row is ready at its front door whatever happens to the routes,
      unless they and the teardown that follows both fail. */
  lemma PublishIs(cfg: Settings, w: World, inst: Environment, backend: string, ans: Answers)
    requires Current(w.t, inst)
    ensures var (w', outcome) := Publish(cfg, w, inst, backend, ans);
      && inst.id in w'.t.rows
      && w'.t.rows == w.t.rows[inst.id := Write(w.t.rows[inst.id], inst).(
           status := if ans.sync || ans.destroy then Ready else DestroyFailed,
           url := w'.t.rows[inst.id].url,
           error := if ans.sync || ans.destroy then inst.error else ans.reason, active := None)]
      && FrontDoor(cfg, Labels(w.t, inst.id), inst.id, w'.t.rows[inst.id].url)
      && w'.t.ops == w.t.ops[inst.operation.value := w.t.ops[inst.operation.value].(state := Succeeded)]
      && w' == w.(t := w.t.(rows := w'.t.rows, ops := w'.t.ops), files := w'.files,
                  alive := if !ans.sync && ans.destroy then w.alive - {(backend, inst.id)} else w.alive)
      && (if ans.sync then outcome.Returned? && outcome.inst.id == inst.id && outcome.inst.status == Ready
          else outcome == Raised(CawlFailure) && w'.files == w.files)
  {
    hide PrimaryUrl, GrantsOf, Synced, Upsert, CompleteOperation, FrontDoor;
    var ready := inst.(exposures := ExposuresOf(w.t, inst.id));
    var c := ready.(url := PrimaryUrl(cfg, ready), status := Ready);
    FrontDoorIs(cfg, ready);
    assert ready.exposures.Keys == Labels(w.t, inst.id);
    var (t1, inst1, _) := CompleteOperation(w.t, c, true);
    Commits.CommitOnce(w.t, c, true, inst1.(status := Errored, error := ans.reason));
    Fence.CompleteShape(w.t, c, true);
    Commits.Rewrites(t1, inst1.(status := DestroyFailed, error := ans.reason));
  }

  /** What provisioning leaves of a record reserved: whether it was whole decides its operation, and
      with the answers its row, its instance and the outcome. */
  ghost predicate Provisioned(cfg: Settings, w: World, w': World, outcome: Outcome, inst: Environment, whole: bool,
                              ans: Answers)
    requires Current(w.t, inst)
  {
    var id, made := inst.id, ans.create.Some?;
    var torn := made && !(whole && ans.sync);
    && id in w'.t.rows
    && w'.t.rows == w.t.rows[id := Write(w.t.rows[id], inst).(
         status := if whole && (ans.sync || ans.destroy) then Ready
                   else if torn && !ans.destroy then DestroyFailed else Errored,
         ip := if made then ans.create.value else inst.ip,
         url := w'.t.rows[id].url,
         error := if whole && (ans.sync || ans.destroy) then inst.error else ans.reason,
         active := None)]
    && (if whole then FrontDoor(cfg, Labels(w'.t, id), id, w'.t.rows[id].url) else w'.t.rows[id].url == inst.url)
    && w'.t.ops == w.t.ops[inst.operation.value :=
         w.t.ops[inst.operation.value].(state := if whole then Succeeded else Failed)]
    && w'.t.supply == w.t.supply && w'.t.grants == w.t.grants
    && w'.alive == (if !made then w.alive
                    else if torn && ans.destroy then w.alive - {(inst.backend, id)}
                    else w.alive + {(inst.backend, id)})
    && (outcome.Returned? <==> whole && ans.sync)
    && (outcome.Returned? ==> outcome.inst.id == id && outcome.inst.status == Ready)
    && (!outcome.Returned? ==> outcome == Raised(CawlFailure) && w'.files == w.files)
  }

  /** Provisioning a reserved record. It is whole when the runtime made it, the certificate went in
      and its labels were free, and returns exactly when the routes are published too. Otherwise what
      was made is torn down: an environment that was not whole ends in error, or `destroy_failed` when
      that fails as well; one that was whole stays ready when the teardown works. */
  lemma ProvisionOutcome(cfg: Settings, w: World, inst: Environment, expose: Expose, ans: Answers)
    requires Current(w.t, inst)
    ensures var (w', outcome) := ProvisionIt(cfg, w, inst, expose, ans);
      Provisioned(cfg, w, w', outcome, inst, ans.create.Some? && ans.cert && DefaultsFree(cfg, w.t, inst.id, expose, 0),
                  ans)
  {
    hide ExposeDefaults, Publish, DefaultsFree, Abort, Provisioned;
    var w1 := w.(overwrote := w.overwrote || exists a :: a in w.alive && a.1 == inst.id);
    if ans.create.None? {
      AbortIs(w1, inst, inst.backend, false, ans);
      CutShort(cfg, w, w1, inst, inst, false, ans);
    } else {
      var w2, inst1 := w1.(alive := w1.alive + {(inst.backend, inst.id)}), inst.(ip := ans.create.value);
      StillCurrent(w.t, w.t, inst, inst1);
      DefaultsIff(cfg, w.t, inst.id, expose, 0);
      Lifecycle.ExposureDefaultsOnly(cfg, w.t, inst.id, expose, 0);
      var (t3, exposed) := ExposeDefaults(cfg, w.t, inst.id, expose, 0);
      StillCurrent(w.t, t3, inst, inst1);
      if !ans.cert {
        CutShort(cfg, w, w2, inst, inst1, true, ans);
      } else if !exposed {
        CutShort(cfg, w, w2.(t := t3), inst, inst1, true, ans);
      } else {
        Whole(cfg, w, w2.(t := t3), inst, inst1, ans);
      }
    }
  }

  lemma CutShort(cfg: Settings, w: World, w1: World, inst: Environment, inst1: Environment, made: bool, ans: Answers)
    requires Current(w.t, inst) && Current(w1.t, inst1) && made == ans.create.Some?
    requires inst1 == inst.(ip := if made then ans.create.value else inst.ip)
    requires w1.t == w.t.(leases := w1.t.leases, exposures := w1.t.exposures) && w1.files == w.files
    requires w1.alive == if made then w.alive + {(inst.backend, inst.id)} else w.alive
    ensures Provisioned(cfg, w, Abort(w1, inst1, inst.backend, made, ans), Raised(CawlFailure), inst, false, ans)
  {
    hide Abort, FrontDoor, Current, Write;
    StillCurrent(w.t, w.t, inst, inst);
    AbortIs(w1, inst1, inst.backend, made, ans);
    Rewritten(w.t.rows[inst.id], inst, inst1);
    assert w.alive + {(inst.backend, inst.id)} - {(inst.backend, inst.id)} == w.alive - {(inst.backend, inst.id)};
  }

  lemma Whole(cfg: Settings, w: World, w1: World, inst: Environment, inst1: Environment, ans: Answers)
    requires Current(w.t, inst) && Current(w1.t, inst1) && ans.create.Some? && inst1 == inst.(ip := ans.create.value)
    requires w1.t == w.t.(leases := w1.t.leases, exposures := w1.t.exposures) && w1.files == w.files
    requires w1.alive == w.alive + {(inst.backend, inst.id)}
    ensures var (w', outcome) := Publish(cfg, w1, inst1, inst.backend, ans);
      Provisioned(cfg, w, w', outcome, inst, true, ans)
  {
    hide Publish, FrontDoor, Current, Write;
    StillCurrent(w.t, w.t, inst, inst);
    PublishIs(cfg, w1, inst1, inst.backend, ans);
    Rewritten(w.t.rows[inst.id], inst, inst1);
    SameLabels(w1.t, Publish(cfg, w1, inst1, inst.backend, ans).0.t, inst.id);
    assert w.alive + {(inst.backend, inst.id)} - {(inst.backend, inst.id)} == w.alive - {(inst.backend, inst.id)};
  }

  lemma SameLabels(t: Tables, t': Tables, id: string)
    ensures t'.exposures == t.exposures ==> Labels(t', id) == Labels(t, id)
  {
  }

  lemma Rewritten(r: Row, inst: Environment, inst1: Environment)
    requires inst1 == inst.(ip := inst1.ip)
    ensures Write(r, inst1) == Write(r, inst).(ip := inst1.ip)
    ensures Write(r, inst).url == inst.url && Write(r, inst1).url == inst.url && Write(r, inst).ip == inst.ip
  {
  }

  lemma StillCurrent(t: Tables, t': Tables, inst: Environment, inst1: Environment)
    requires Current(t, inst) && t'.rows == t.rows && t'.ops == t.ops && inst1 == inst.(ip := inst1.ip)
    ensures Current(t', inst1) && inst.id in t.rows && inst.operation.Some? && inst.operation.value in t.ops
  {
  }

  // ---- superseded ----

  /** A record whose operation is no longer the row's commits nothing. Publishing one raises, and tears
      the instance down; only when that fails as well does its row change, by a write without fence. */
  lemma PublishSuperseded(cfg: Settings, w: World, inst: Environment, backend: string, ans: Answers)
    requires !Current(w.t, inst)
    ensures var (w', outcome) := Publish(cfg, w, inst, backend, ans);
      && outcome == Raised(CawlFailure) && w'.files == w.files
      && (if ans.destroy then w' == w.(alive := w.alive - {(backend, inst.id)})
          else w'.alive == w.alive && inst.id in w'.t.rows && w'.t.rows[inst.id].status == DestroyFailed
               && w'.t.rows[inst.id].error == ans.reason && w'.t.rows[inst.id].owner == inst.owner)
  {
    hide PrimaryUrl, ExposuresOf, Synced;
  }

  /** Resuming one raises, and changes nothing. */
  lemma ResumeSuperseded(cfg: Settings, w: World, inst: Environment, template: TemplateConfig, ans: Answers)
    requires !Current(w.t, inst)
    ensures Resume(cfg, w, inst, template, ans) == (w, Raised(CawlFailure))
  {
    hide SpecBuilds, Synced;
  }
}
