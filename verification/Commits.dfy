/** What the try/except blocks of the control plane amount to: however a call fails, it commits
    exactly one result of the operation it opened, and a failure after that commit (a route
    file that cannot be written) leaves the committed result standing. */
module Commits {
  import opened Wrappers
  import opened Model
  import opened Tables
  import opened Config
  import opened Ingress
  import opened Control
  import Fence

  /** A record that holds the row's open operation, or whose operation it has just closed. */
  lemma CommitOnce(t: Tables, inst: Environment, ok: bool, again: Environment)
    requires Current(t, inst)
    ensures var (t1, inst1, done) := CompleteOperation(t, inst, ok);
      && done && inst1 == inst.(operation := None)
      && (again.operation.None? ==> CompleteOperation(t1, again, false) == (t1, again, false))
  {
  }

  /** Routes are rendered from a record's id, exposures and address. */
  lemma SameRoutes(cfg: Settings, files: map<string, RouteDoc>, inst: Environment, inst1: Environment)
    requires inst1.id == inst.id && inst1.exposures == inst.exposures && inst1.ip == inst.ip
    ensures Synced(cfg.domain, files, inst) == Synced(cfg.domain, files, inst1)
  {
    hide Render;
  }

  /** Resuming commits one record: running exactly when backend, spec, runtime and certificate work,
      and otherwise stopped with the reason. Routes are published exactly when the call returns. */
  lemma ResumeCommits(cfg: Settings, w: World, inst: Environment, template: TemplateConfig, ans: Answers)
    returns (c: Environment, ok: bool)
    requires Current(w.t, inst)
    ensures var booted := Backend(cfg, inst) in cfg.backends && SpecBuilds(template, inst, ans) && ans.start.Some?;
      && (ok <==> booted && ans.cert)
      && c == inst.(status := if ok then Ready else Stopped,
                    ip := if booted then ans.start.value else inst.ip,
                    error := if ok then inst.error else ans.reason)
    ensures var (w', outcome) := Resume(cfg, w, inst, template, ans);
      && w'.t == CompleteOperation(w.t, c, ok).0
      && w'.files == (if outcome.Returned? then Synced(cfg.domain, w.files, c) else w.files)
      && w' == w.(t := w'.t, files := w'.files)
      && (ok && ans.sync <==> outcome.Returned?)
      && (outcome.Returned? ==> outcome.inst == c.(operation := None))
      && outcome != Raised(SpecFailed)
  {
    hide CompleteOperation, SpecBuilds, Synced;
    var failed := inst.(status := Stopped, error := ans.reason);
    if Backend(cfg, inst) !in cfg.backends || !SpecBuilds(template, inst, ans) || ans.start.None? {
      return failed, false;
    }
    if !ans.cert {
      return failed.(ip := ans.start.value), false;
    }
    c, ok := inst.(ip := ans.start.value, status := Ready), true;
    var inst2 := c.(operation := None);
    assert Current(w.t, c);
    SameRoutes(cfg, w.files, inst2, c);
    CommitOnce(w.t, c, true, inst2.(status := Stopped, error := ans.reason));
  }

  /** Stopping commits one record: stopped without an address exactly when egress, backend and runtime
      work, or running as before with the reason. The route file goes exactly when the call returns. */
  lemma StopCommits(cfg: Settings, w: World, actor: Principal, id: string, ans: Answers)
    returns (begun: Tables, c: Environment, ok: bool)
    requires StopIt(cfg, w, actor, id, ans).0 != w
    ensures CanBegin(w.t, id, {Ready})
    ensures begun == BeginOperation(w.t, id, Kind.Stop, {Ready}, Stopping).0
    ensures id in begun.rows
    ensures var inst := ToEnvironment(begun, id);
      && (ok <==> ans.unregister && ans.stop && Backend(cfg, inst) in cfg.backends)
      && c == if ok then inst.(status := Stopped, ip := None) else inst.(status := Ready, error := ans.reason)
    ensures var (w', outcome) := StopIt(cfg, w, actor, id, ans);
      && w'.t == CompleteOperation(begun, c, ok).0
      && w'.files == (if ok && ans.deregister then w.files - {id} else w.files)
      && w' == w.(t := w'.t, files := w'.files)
      && id in w.t.rows && IsOwner(actor, ToEnvironment(w.t, id))
  {
    hide CompleteOperation, GrantsOf, ExposuresOf, BeginOperation, IsOwner;
    Fence.BeginShape(w.t, id, Kind.Stop, {Ready}, Stopping);
    begun := BeginOperation(w.t, id, Kind.Stop, {Ready}, Stopping).0;
    var inst := ToEnvironment(begun, id);
    ok := ans.unregister && Backend(cfg, inst) in cfg.backends && ans.stop;
    c := if ok then inst.(status := Stopped, ip := None) else inst.(status := Ready, error := ans.reason);
  }

  /** The record that `begin_operation` returns holds the operation it opened, and says what
      the row says. */
  lemma BegunIsCurrent(t: Tables, id: string, kind: Kind, expected: set<Status>, transitional: Status)
    requires CanBegin(t, id, expected)
    ensures var (t', inst) := BeginOperation(t, id, kind, expected, transitional);
      && inst == Some(ToEnvironment(t', id)) && Current(t', inst.value)
      && inst.value.operation == Some(t.supply)
      && t'.rows == t.rows[id := t.rows[id].(status := transitional, active := Some(t.supply))]
      && t'.ops == t.ops[t.supply := Operation(id, t.rows[id].generation, kind, Queued)]
      && t' == t.(rows := t'.rows, ops := t'.ops, supply := t.supply + 1)
      && ExposuresOf(t', id) == ExposuresOf(t, id)
      && Write(t'.rows[id], inst.value) == t'.rows[id]
  {
  }

  /** Publishing commits the record first, so the second completion is refused: the row ends ready
      unless both the route file and the teardown fail, and the call raises exactly when the route
      file does. The instance goes exactly when the teardown works that this brings on. */
  lemma PublishCommits(cfg: Settings, w: World, inst: Environment, backend: string, ans: Answers)
    requires Current(w.t, inst)
    ensures var (w', outcome) := Publish(cfg, w, inst, backend, ans);
      && inst.id in w'.t.rows && w.t.supply == w'.t.supply
      && w'.t.rows[inst.id] == Write(w.t.rows[inst.id], inst).(
           status := if ans.sync || ans.destroy then Ready else DestroyFailed,
           url := w'.t.rows[inst.id].url, error := w'.t.rows[inst.id].error, active := None)
      && (outcome.Raised? <==> !ans.sync)
      && w'.alive == (if !ans.sync && ans.destroy then w.alive - {(backend, inst.id)} else w.alive)
  {
    hide PrimaryUrl, ExposuresOf, Synced, Upsert, CompleteOperation;
    var ready := inst.(exposures := ExposuresOf(w.t, inst.id));
    var c := ready.(url := PrimaryUrl(cfg, ready), status := Ready);
    var (t1, inst1, _) := CompleteOperation(w.t, c, true);
    CommitOnce(w.t, c, true, inst1.(status := Errored, error := ans.reason));
    Fence.CompleteShape(w.t, c, true);
    Rewrites(t1, inst1.(status := DestroyFailed, error := ans.reason));
  }

  /** A row rewritten, without being recreated. */
  lemma Rewrites(t: Tables, inst: Environment)
    requires inst.id in t.rows && !inst.status.Creating?
    ensures Upsert(t, inst) == t.(rows := t.rows[inst.id := Write(t.rows[inst.id], inst)])
  {
  }
}
