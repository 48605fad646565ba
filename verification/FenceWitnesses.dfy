/** Runs of the store that reach what the fence does not cover: a record read before a name was
    reclaimed and written back after. */
module FenceWitnesses {
  import opened Wrappers
  import opened Model
  import opened Tables
  import opened Fence

  const NO_EDIT := Edit(None, None, "")

  /** The first reservation of all succeeds. */
  lemma FirstReserves(call: nat, a: Environment)
    requires a.status.Creating?
    ensures Allowed(INIT, DoReserve(call, a, None))
    ensures Reserve(EMPTY, a, None).1.Reserved?
  {
  }

  lemma Reclaims(t: Tables, b: Environment)
    requires b.id !in t.leases && (b.id in t.rows ==> Dead(t.rows[b.id].status))
    ensures Reserve(t, b, None).1.Reserved?
  {
  }

  /** The row is whose record it is: owner, arguments, backend, creation time and lifetime. */
  predicate OfRecord(r: Row, a: Environment) {
    && r.owner == a.owner && r.key == a.key && r.backend == a.backend
    && r.createdAt == a.createdAt && r.expiresAt == a.expiresAt
  }

  /** Reserve for `a`, and complete if it should. */
  lemma Made(a: Environment, completed: bool) returns (steps: seq<Step>)
    requires a.status.Creating?
    ensures var s := Run(INIT, steps);
      && s.t.rows.Keys == {a.id} && s.t.leases == map[a.id := a.id] && s.t.exposures == map[] && s.hands.Keys == {0}
      && OfRecord(s.t.rows[a.id], a) && s.t.rows[a.id].status == if completed then Ready else Creating
  {
    hide Reserve, CompleteOperation;
    steps := [DoReserve(0, a, None)];
    RunSnoc([], steps[0]);
    FirstReserves(0, a);
    ReserveShape(EMPTY, a, None);
    if completed {
      var s, k := Run(INIT, steps), Reserve(EMPTY, a, None).1.inst;
      RunSnoc(steps, DoComplete(k, READY));
      steps := steps + [DoComplete(k, READY)];
      CompleteShape(s.t, Finished(k, READY), true);
    }
  }

  /** Then read to publish, and delete: call 1 holds what it read. */
  lemma ReadThenDeleted(a: Environment, completed: bool) returns (steps: seq<Step>)
    requires a.status.Creating?
    ensures var s := Run(INIT, steps);
      && s.t.rows.Keys == {a.id} && s.t.rows[a.id].status.Destroyed?
      && s.t.leases == map[] && s.t.exposures == map[]
      && 1 in s.hands && s.hands.Keys == {0, 1} && s.hands[1].Exposing?
      && s.hands[1].inst.id == a.id && s.hands[1].inst.status == (if completed then Ready else Creating)
      && s.hands[1].inst.owner == a.owner && s.hands[1].inst.key == a.key && s.hands[1].inst.backend == a.backend
      && s.hands[1].inst.createdAt == a.createdAt && s.hands[1].inst.expiresAt == a.expiresAt
  {
    hide Run, Delete;
    steps := Made(a, completed);
    RunSnoc(steps, DoRead(1, a.id, false));
    steps := steps + [DoRead(1, a.id, false)];
    var s := Run(INIT, steps);
    RunSnoc(steps, DoDelete(a.id));
    steps := steps + [DoDelete(a.id)];
    DeleteShape(s.t, a.id);
  }

  /** Reserve for `a`, complete, read to publish, delete; reserve the name for `b`; write the record
      of `a` back: the row of `b`'s generation and operation is `a`'s again. */
  lemma ReclaimedNameOverwritten(a: Environment, b: Environment) returns (steps: seq<Step>, k: Environment)
    requires a.id == b.id && a.status.Creating? && b.status.Creating?
    ensures var s := Run(INIT, steps);
      && k in s.tickets && Current(s.t, k) && k.id == a.id && k.owner == b.owner && k.key == b.key
      && OfRecord(s.t.rows[a.id], a) && s.t.rows[a.id].status.Ready?
  {
    hide Reserve, Upsert, Run;
    steps := ReadThenDeleted(a, true);
    var s := Run(INIT, steps);
    RunSnoc(steps, DoReserve(2, b, None));
    steps := steps + [DoReserve(2, b, None)];
    Reclaims(s.t, b);
    ReserveShape(s.t, b, None);
    k := Reserve(s.t, b, None).1.inst;
    var s' := Run(INIT, steps);
    RunSnoc(steps, DoRewrite(1, NO_EDIT));
    steps := steps + [DoRewrite(1, NO_EDIT)];
    UpsertShape(s'.t, Rewritten(s'.hands[1], NO_EDIT));
  }

  /** Reserve for `a`, read to publish while still creating, delete; `b` finds the label free; the
      record of `a` is written back, so that its row starts over without leasing its id, and `b`
      exposes that id as its own label. */
  lemma LiveIdExposedByAnother(a: Environment, b: Environment, e: Exposure) returns (steps: seq<Step>)
    requires a.id != b.id && a.status.Creating? && b.status.Creating?
    ensures var t := Run(INIT, steps).t;
      && a.id in t.rows && !Dead(t.rows[a.id].status) && !t.rows[a.id].destroyedAt
      && a.id in t.exposures && t.exposures[a.id].env == b.id
  {
    hide Reserve, Upsert, Run;
    steps := ReadThenDeleted(a, false);
    var s := Run(INIT, steps);
    RunSnoc(steps, DoReserve(2, b, None));
    steps := steps + [DoReserve(2, b, None)];
    Reclaims(s.t, b);
    ReserveShape(s.t, b, None);
    var s' := Run(INIT, steps);
    RunSnoc(steps, DoRewrite(1, NO_EDIT));
    steps := steps + [DoRewrite(1, NO_EDIT)];
    UpsertShape(s'.t, Rewritten(s'.hands[1], NO_EDIT));
    RunSnoc(steps, DoExpose(b.id, a.id, e));
    steps := steps + [DoExpose(b.id, a.id, e)];
  }

  // ---- an upsert in two statements ----

  /** The second statement of an `upsert` that updates: it saves every column of the row that the
      first one fetched, under the record's. */
  function Saved(t: Tables, fetched: Row, inst: Environment): Tables {
    t.(rows := t.rows[inst.id := Write(fetched, inst)])
  }

  /** `up` commits between the two statements of the write that publishes an exposure: the row is
      `creating` again under its finished operation, so that no worker's completion is admitted
      and no operation can begin on it. */
  lemma CommitBetweenStatements(a: Environment) returns (before: System, after: System, k: Environment)
    requires a.status.Creating?
    ensures before == Run(INIT, [DoReserve(0, a, None)])
    ensures k in before.tickets && after == Next(before, DoComplete(k, READY))
    ensures a.id in before.t.rows && after.t.rows[a.id].status.Ready? && after.t.rows[a.id].active.None?
    ensures var t := Saved(after.t, before.t.rows[a.id], ToEnvironment(before.t, a.id));
      && t.rows[a.id].status.Creating? && t.rows[a.id].active.Some?
      && (forall expected :: !CanBegin(t, a.id, expected))
      && (forall ticket: Environment :: ticket.id == a.id ==> !Current(t, ticket))
  {
    hide Reserve, CompleteOperation;
    RunSnoc([], DoReserve(0, a, None));
    assert [] + [DoReserve(0, a, None)] == [DoReserve(0, a, None)];
    before := Run(INIT, [DoReserve(0, a, None)]);
    FirstReserves(0, a);
    ReserveShape(EMPTY, a, None);
    k := Reserve(EMPTY, a, None).1.inst;
    after := Next(before, DoComplete(k, READY));
    CompleteShape(before.t, Finished(k, READY), true);
  }

  // ---- instances under interleaving ----

  /** The store and the instances alive, under calls to the runtime between transactions: `Create`
      by the call that reserved the name, `Kill` by one that tears it down. */
  datatype Deployment = Deployment(s: System, alive: set<string>)

  datatype Action = Store(step: Step) | Create(call: nat) | Kill(call: nat)

  function Act(d: Deployment, action: Action): Deployment {
    match action
    case Store(step) => d.(s := Next(d.s, step))
    case Create(call) =>
      if call in d.s.hands && d.s.hands[call].Provisioning? then d.(alive := d.alive + {d.s.hands[call].inst.id})
      else d
    case Kill(call) =>
      if call in d.s.hands && d.s.hands[call].Tearing? then d.(alive := d.alive - {d.s.hands[call].inst.id})
      else d
  }

  function ActAll(actions: seq<Action>): Deployment {
    if actions == [] then Deployment(INIT, {}) else Act(ActAll(actions[..|actions| - 1]), actions[|actions| - 1])
  }

  lemma OneAct(actions: seq<Action>, action: Action)
    ensures ActAll(actions + [action]) == Act(ActAll(actions), action)
  {
    hide Act;
    assert (actions + [action])[..|actions + [action]| - 1] == actions;
  }

  /** The name is nobody's, and the call is new. */
  ghost predicate Claimable(d: Deployment, call: nat, a: Environment) {
    && a.status.Creating? && call !in d.s.hands && a.id !in d.s.t.leases
    && (a.id in d.s.t.rows ==> Dead(d.s.t.rows[a.id].status))
  }

  /** The row is ready, at rest, with its instance alive, and other calls hold what they held. */
  ghost predicate Up(d: Deployment, d': Deployment, call: nat, a: Environment) {
    && a.id in d'.s.t.rows && d'.s.t.rows[a.id].owner == a.owner && d'.s.t.rows[a.id].status.Ready?
    && d'.s.t.rows[a.id].active.None? && a.id in d'.alive
    && a.id in d'.s.t.leases && d'.s.t.leases[a.id] == a.id
    && d'.s.hands.Keys == d.s.hands.Keys + {call}
    && (forall c :: c in d.s.hands ==> d'.s.hands[c] == d.s.hands[c])
  }

  /** Reserve, create and complete. */
  lemma BroughtUp(actions: seq<Action>, call: nat, a: Environment) returns (more: seq<Action>)
    requires Claimable(ActAll(actions), call, a)
    ensures Up(ActAll(actions), ActAll(more), call, a)
  {
    hide ActAll, Reserve, CompleteOperation;
    var s := ActAll(actions).s;
    Reclaims(s.t, a);
    ReserveShape(s.t, a, None);
    var k := Reserve(s.t, a, None).1.inst;
    OneAct(actions, Store(DoReserve(call, a, None)));
    more := actions + [Store(DoReserve(call, a, None))];
    OneAct(more, Create(call));
    more := more + [Create(call)];
    CompleteShape(ActAll(more).s.t, Finished(k, READY), true);
    OneAct(more, Store(DoComplete(k, READY)));
    more := more + [Store(DoComplete(k, READY))];
  }

  /** The row is destroyed and its name free, and call 2 is still about to tear it down. */
  ghost predicate SecondPending(d: Deployment, a: Environment) {
    && a.id in d.s.t.rows && d.s.t.rows[a.id].status.Destroyed? && a.id !in d.s.t.leases
    && d.s.hands.Keys == {0, 1, 2} && d.s.hands[2].Tearing? && d.s.hands[2].inst.id == a.id
  }

  /** Two calls read `a`'s environment to destroy it, and the first does. */
  lemma DestroyedOnce(a: Environment) returns (actions: seq<Action>)
    requires a.status.Creating?
    ensures SecondPending(ActAll(actions), a)
  {
    hide Delete;
    assert ActAll([]) == Deployment(INIT, {});
    hide ActAll;
    actions := BroughtUp([], 0, a);
    OneAct(actions, Store(DoRead(1, a.id, true)));
    actions := actions + [Store(DoRead(1, a.id, true))];
    OneAct(actions, Store(DoRead(2, a.id, true)));
    actions := actions + [Store(DoRead(2, a.id, true))];
    OneAct(actions, Kill(1));
    actions := actions + [Kill(1)];
    DeleteShape(ActAll(actions).s.t, a.id);
    OneAct(actions, Store(DoDelete(a.id)));
    actions := actions + [Store(DoDelete(a.id))];
  }

  /** The row is ready and at rest, and its instance is gone. */
  ghost predicate Robbed(d: Deployment, id: string, owner: string) {
    && id in d.s.t.rows && d.s.t.rows[id].owner == owner && d.s.t.rows[id].status.Ready?
    && d.s.t.rows[id].active.None? && id !in d.alive
  }

  ghost predicate IsDestroyed(d: Deployment, id: string) {
    id in d.s.t.rows && d.s.t.rows[id].status.Destroyed?
  }

  /** Then `b` brings the name up again, and the other call's destroy takes `b`'s instance, from
      under a ready row at rest, and its delete takes the row. */
  lemma LateDestroyTakesTheReclaimed(a: Environment, b: Environment) returns (late: seq<Action>)
    requires a.id == b.id && a.status.Creating? && b.status.Creating?
    ensures Robbed(ActAll(late), a.id, b.owner)
    ensures IsDestroyed(ActAll(late + [Store(DoDelete(a.id))]), a.id)
  {
    hide ActAll, Delete;
    var actions := DestroyedOnce(a);
    actions := BroughtUp(actions, 3, b);
    OneAct(actions, Kill(2));
    late := actions + [Kill(2)];
    DeleteShape(ActAll(late).s.t, a.id);
    OneAct(late, Store(DoDelete(a.id)));
  }
}
