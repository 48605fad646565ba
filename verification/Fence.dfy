/** The lifecycle store under interleaving: any number of workers run its transactions in any
    order. They hold the records that `reserve` and `begin_operation` handed them for as long
    as they like, and calls write records they read before back by an `upsert` without fence. */
module Fence {
  import opened Wrappers
  import opened Model
  import opened Tables

  /** What a worker writes into its record before completing it. */
  datatype Finish = Finish(status: Status, ip: Option<string>, url: Option<string>, error: string, succeeded: bool)

  const READY := Finish(Ready, None, None, "", true)

  /** A record that a call may write back by a plain `upsert`: one read to publish exposures
      (`_sync_exposures`), one read to tear the environment down (`_destroy`), or the one that
      the call has reserved, for the cleanup after a failed `up`. */
  datatype Hand =
    | Exposing(inst: Environment)
    | Tearing(inst: Environment)
    | Provisioning(inst: Environment)

  datatype Edit = Edit(ip: Option<string>, url: Option<string>, error: string)

  /** The record as it is written back: publishing keeps the status that was read. */
  function Rewritten(hand: Hand, e: Edit): Environment {
    match hand
    case Exposing(inst) => inst.(url := e.url)
    case Tearing(inst) => inst.(status := DestroyFailed, error := e.error)
    case Provisioning(inst) => inst.(status := DestroyFailed, ip := e.ip, url := e.url, error := e.error)
  }

  datatype Step =
    | DoReserve(call: nat, inst: Environment, quota: Option<nat>)
    | DoBegin(id: string, kind: Kind, expected: set<Status>, transitional: Status)
    | DoComplete(ticket: Environment, finish: Finish)
    | DoDelete(id: string)
    | DoRead(call: nat, id: string, teardown: bool)
    | DoRewrite(call: nat, edit: Edit)
    | DoEnd(call: nat)
    | DoExpose(id: string, name: string, exposure: Exposure)
    | DoUnexpose(id: string, name: string)
    | DoGrant(id: string, principal: string)
    | DoRevoke(id: string, principal: string)

  /** `tickets` are the records that workers may still complete, however old; `hands` the records
      that the calls under way may still write back, dropped when they do or when they end; `kept`
      the names reserved and not deleted since. A reaper pass counts as a call for each record. */
  datatype System = System(t: Tables, tickets: set<Environment>, hands: map<nat, Hand>, kept: set<string>)

  const INIT := System(EMPTY, {}, map[], {})

  /** How the control plane calls the store: it reserves `creating` records, begins from and
      to live statuses, completes a record it was handed with a status past `creating`, reads
      what is not destroyed, and cleans up after its own operation is over. */
  predicate Allowed(s: System, step: Step) {
    match step
    case DoReserve(call, inst, _) => call !in s.hands && inst.status.Creating?
    case DoBegin(_, _, expected, transitional) => Errored !in expected && Destroyed !in expected && !Dead(transitional)
    case DoComplete(ticket, finish) => ticket in s.tickets && !finish.status.Creating?
    case DoRead(call, id, _) => call !in s.hands && id in s.t.rows && !s.t.rows[id].status.Destroyed?
    case DoRewrite(call, _) =>
      call in s.hands && (s.hands[call].Provisioning? ==> !Current(s.t, s.hands[call].inst))
    case _ => true
  }

  function Finished(ticket: Environment, f: Finish): Environment {
    ticket.(status := f.status, ip := f.ip, url := f.url, error := f.error)
  }

  function Next(s: System, step: Step): System {
    if !Allowed(s, step) then s else
    match step
    case DoReserve(call, inst, quota) =>
      var (t, outcome) := Reserve(s.t, inst, quota);
      if outcome.Reserved? then
        System(t, s.tickets + {outcome.inst}, s.hands[call := Provisioning(outcome.inst)], s.kept + {inst.id})
      else s.(t := t)
    case DoBegin(id, kind, expected, transitional) =>
      var (t, ticket) := BeginOperation(s.t, id, kind, expected, transitional);
      s.(t := t, tickets := if ticket.Some? then s.tickets + {ticket.value} else s.tickets)
    case DoComplete(ticket, finish) =>
      s.(t := CompleteOperation(s.t, Finished(ticket, finish), finish.succeeded).0)
    case DoDelete(id) => s.(t := Delete(s.t, id), kept := s.kept - {id})
    case DoRead(call, id, teardown) =>
      var inst := ToEnvironment(s.t, id);
      s.(hands := s.hands[call := if teardown then Tearing(inst) else Exposing(inst)])
    case DoRewrite(call, edit) =>
      s.(t := Upsert(s.t, Rewritten(s.hands[call], edit)), hands := s.hands - {call})
    case DoEnd(call) => s.(hands := s.hands - {call})
    case DoExpose(id, name, exposure) => s.(t := SetExposure(s.t, id, name, exposure).0)
    case DoUnexpose(id, name) => s.(t := RemoveExposure(s.t, id, name).0)
    case DoGrant(id, principal) => s.(t := Grant(s.t, id, principal))
    case DoRevoke(id, principal) => s.(t := Revoke(s.t, id, principal).0)
  }

  function Run(s: System, steps: seq<Step>): System {
    if steps == [] then s else Next(Run(s, steps[..|steps| - 1]), steps[|steps| - 1])
  }

  lemma RunSnoc(steps: seq<Step>, step: Step)
    ensures Run(INIT, steps + [step]) == Next(Run(INIT, steps), step)
  {
    hide Next;
    assert (steps + [step])[..|steps + [step]| - 1] == steps;
  }

  // ---- the invariant ----

  /** Everything handed out came from the supply. */
  ghost predicate Supplied(t: Tables) {
    && (forall id :: id in t.rows ==> t.rows[id].generation < t.supply)
    && (forall o :: o in t.ops ==> o < t.supply && t.ops[o].generation < t.supply && t.ops[o].env in t.rows)
  }

  /** A row's active operation is an unfinished operation of its own generation ... */
  ghost predicate ActiveIsOpen(t: Tables) {
    forall id :: id in t.rows && t.rows[id].active.Some? ==>
      var o := t.rows[id].active.value;
      o in t.ops && t.ops[o].env == id && t.ops[o].generation == t.rows[id].generation && Unfinished(t.ops[o])
  }

  /** ... and the only one. */
  ghost predicate OpenIsActive(t: Tables) {
    forall o :: o in t.ops && Unfinished(t.ops[o]) && t.ops[o].env in t.rows
                && t.rows[t.ops[o].env].generation == t.ops[o].generation ==>
      t.rows[t.ops[o].env].active == Some(o)
  }

  /** No two operations of one generation, current or past, are unfinished together. */
  ghost predicate Exclusive(t: Tables) {
    forall o, p :: o in t.ops && p in t.ops && Unfinished(t.ops[o]) && Unfinished(t.ops[p])
                   && t.ops[o].env == t.ops[p].env && t.ops[o].generation == t.ops[p].generation
      ==> o == p
  }

  ghost predicate OpsInv(t: Tables) {
    Supplied(t) && ActiveIsOpen(t) && OpenIsActive(t) && Exclusive(t)
  }

  /** One namespace: an exposed label is leased to the environment exposing it, and a name
      reserved and not deleted since is leased to itself. */
  ghost predicate NamesInv(t: Tables, kept: set<string>) {
    && (forall n :: n in t.exposures ==> n in t.leases && t.leases[n] == t.exposures[n].env)
    && (forall n :: n in t.leases ==> t.leases[n] in t.rows)
    && (forall id :: id in kept ==> id in t.leases && t.leases[id] == id)
  }

  /** Some worker was handed the record that opens a row's active operation. */
  ghost predicate Held(s: System, id: string)
    requires id in s.t.rows
  {
    exists k :: k in s.tickets && k.id == id && k.operation == s.t.rows[id].active
                && k.generation == Some(s.t.rows[id].generation)
  }

  /** Tickets came from the supply, one for each operation. */
  ghost predicate TicketsInv(s: System) {
    && (forall id :: id in s.t.rows && s.t.rows[id].active.Some? ==> Held(s, id))
    && (forall k :: k in s.tickets ==>
      && k.generation.Some? && k.operation.Some?
      && k.generation.value < s.t.supply && k.operation.value < s.t.supply
      && k.id in s.t.rows)
    && forall j, k :: j in s.tickets && k in s.tickets && j.operation == k.operation ==> j == k
  }

  /** What calls hold was read or reserved while its row was not destroyed. */
  ghost predicate HandsInv(s: System) {
    forall c :: c in s.hands ==>
      s.hands[c].inst.id in s.t.rows && (s.hands[c].Exposing? ==> !s.hands[c].inst.status.Destroyed?)
  }

  ghost predicate Inv(s: System) {
    OpsInv(s.t) && NamesInv(s.t, s.kept) && TicketsInv(s) && HandsInv(s)
  }

  // ---- opening and closing an operation ----

  /** Open operation `o` on a row: of its own generation if it was at rest, or of a new one. */
  lemma OpeningKeepsOps(t: Tables, t': Tables, id: string, r: Row, kind: Kind, o: nat)
    requires OpsInv(t) && t.supply <= o < t'.supply && r.active == Some(o)
    requires t'.rows == t.rows[id := r] && t'.ops == t.ops[o := Operation(id, r.generation, kind, Queued)]
    requires if r.generation < t.supply
      then id in t.rows && t.rows[id].generation == r.generation && t.rows[id].active.None?
      else r.generation < t'.supply
    ensures OpsInv(t')
  {
    assert forall p :: p in t.ops && Unfinished(t.ops[p]) && t.ops[p].env == id ==> t.ops[p].generation != r.generation;
    assert Exclusive(t');
  }

  lemma ClosingKeepsOps(t: Tables, t': Tables, id: string, r: Row, state: OpState)
    requires OpsInv(t) && t'.supply == t.supply && id in t.rows && t.rows[id].active.Some?
    requires var o := t.rows[id].active.value; t'.ops == t.ops[o := t.ops[o].(state := state)]
    requires t'.rows == t.rows[id := r] && r.active.None? && r.generation == t.rows[id].generation
    requires state.Succeeded? || state.Failed?
    ensures OpsInv(t')
  {
  }

  // ---- every step keeps it ----

  /** A reservation that succeeds writes a new generation with one open operation, clears
      what the name's last holder left, and leases the name. */
  lemma ReserveShape(t: Tables, inst: Environment, quota: Option<nat>)
    requires inst.status.Creating? && Reserve(t, inst, quota).1.Reserved?
    ensures var t' := Reserve(t, inst, quota).0;
      && (inst.id in t.rows ==> Dead(t.rows[inst.id].status))
      && (quota.Some? ==> CountActive(t, inst.owner) < quota.value)
      && t'.supply == t.supply + 2
      && t'.rows == t.rows[inst.id := NewRow(inst, t.supply).(active := Some(t.supply + 1))]
      && t'.ops == t.ops[t.supply + 1 := Operation(inst.id, t.supply, Provision, Queued)]
      && (forall n :: n in t.exposures && t.exposures[n].env == inst.id ==> inst.id in t.rows ==> n !in t'.exposures)
      && (forall n :: n in t'.exposures ==> n in t.exposures && t'.exposures[n] == t.exposures[n])
      && (forall n :: n in t.leases && t.leases[n] != inst.id ==> n in t'.leases && t'.leases[n] == t.leases[n])
      && (forall n :: n in t'.leases ==> n == inst.id || (n in t.leases && t'.leases[n] == t.leases[n]))
      && inst.id in t'.leases && t'.leases[inst.id] == inst.id
      && (inst.id in t.leases ==> t.leases[inst.id] == inst.id)
      && (forall g :: g in t'.grants <==> g in t.grants && (inst.id in t.rows ==> g.0 != inst.id))
    ensures Reserve(t, inst, quota).1.inst == inst.(generation := Some(t.supply), operation := Some(t.supply + 1))
  {
  }

  lemma ReserveFailureChangesNothing(t: Tables, inst: Environment, quota: Option<nat>)
    requires !Reserve(t, inst, quota).1.Reserved?
    ensures Reserve(t, inst, quota).0 == t
  {
  }

  lemma ReserveKeepsNames(t: Tables, kept: set<string>, inst: Environment, quota: Option<nat>)
    requires NamesInv(t, kept) && inst.status.Creating? && Reserve(t, inst, quota).1.Reserved?
    ensures NamesInv(Reserve(t, inst, quota).0, kept + {inst.id})
  {
    hide Reserve;
    ReserveShape(t, inst, quota);
  }

  lemma ReserveKeepsRecords(s: System, step: Step)
    requires step.DoReserve? && Allowed(s, step) && Reserve(s.t, step.inst, step.quota).1.Reserved?
    requires TicketsInv(s) && HandsInv(s)
    ensures TicketsInv(Next(s, step)) && HandsInv(Next(s, step))
  {
    hide Reserve;
    ReserveShape(s.t, step.inst, step.quota);
    var s', k := Next(s, step), Reserve(s.t, step.inst, step.quota).1.inst;
    assert s'.tickets == s.tickets + {k};
    forall id | id in s'.t.rows && s'.t.rows[id].active.Some? ensures Held(s', id) {
      if id != step.inst.id {
        assert Held(s, id);
      }
    }
  }

  lemma ReserveKeeps(s: System, step: Step)
    requires Inv(s) && step.DoReserve?
    ensures Inv(Next(s, step))
  {
    hide Reserve, OpsInv, NamesInv, TicketsInv, HandsInv;
    if Allowed(s, step) {
      var s' := Next(s, step);
      if Reserve(s.t, step.inst, step.quota).1.Reserved? {
        ReserveShape(s.t, step.inst, step.quota);
        OpeningKeepsOps(s.t, s'.t, step.inst.id, s'.t.rows[step.inst.id], Provision, s.t.supply + 1);
        ReserveKeepsNames(s.t, s.kept, step.inst, step.quota);
        ReserveKeepsRecords(s, step);
      } else {
        ReserveFailureChangesNothing(s.t, step.inst, step.quota);
      }
    }
  }

  /** `begin_operation` claims a row at rest, in one of the expected statuses. */
  lemma BeginShape(t: Tables, id: string, kind: Kind, expected: set<Status>, transitional: Status)
    ensures var (t', ticket) := BeginOperation(t, id, kind, expected, transitional);
      && (ticket.Some? <==> CanBegin(t, id, expected))
      && (!CanBegin(t, id, expected) ==> (t', ticket) == (t, None))
      && (ticket.Some? ==>
          && t' == t.(rows := t.rows[id := t.rows[id].(status := transitional, active := Some(t.supply))],
                      ops := t.ops[t.supply := Operation(id, t.rows[id].generation, kind, Queued)],
                      supply := t.supply + 1)
          && ticket.value == ToEnvironment(t', id))
  {
  }

  lemma BeginKeepsRecords(s: System, step: Step)
    requires step.DoBegin? && Allowed(s, step) && CanBegin(s.t, step.id, step.expected)
    requires Supplied(s.t) && TicketsInv(s) && HandsInv(s)
    ensures TicketsInv(Next(s, step)) && HandsInv(Next(s, step))
  {
    hide BeginOperation;
    BeginShape(s.t, step.id, step.kind, step.expected, step.transitional);
    var s' := Next(s, step);
    assert s'.tickets == s.tickets + {ToEnvironment(s'.t, step.id)};
    forall id | id in s'.t.rows && s'.t.rows[id].active.Some? ensures Held(s', id) {
      if id != step.id {
        assert Held(s, id);
      }
    }
  }

  lemma BeginKeeps(s: System, step: Step)
    requires Inv(s) && step.DoBegin?
    ensures Inv(Next(s, step))
  {
    hide BeginOperation, OpsInv, TicketsInv, HandsInv;
    if Allowed(s, step) {
      BeginShape(s.t, step.id, step.kind, step.expected, step.transitional);
      var s' := Next(s, step);
      if CanBegin(s.t, step.id, step.expected) {
        assert OpsInv(s'.t) by {
          SuppliedRows(s.t);
          OpeningKeepsOps(s.t, s'.t, step.id, s'.t.rows[step.id], step.kind, s.t.supply);
        }
        SuppliedRows(s.t);
        BeginKeepsRecords(s, step);
        assert NamesInv(s'.t, s'.kept);
      }
    }
  }

  lemma SuppliedRows(t: Tables)
    requires OpsInv(t)
    ensures Supplied(t)
  {
  }

  /** A completion that passes the fence writes its record to its own row, closes its own
      operation and touches nothing else; one that does not pass changes nothing. */
  lemma CompleteShape(t: Tables, inst: Environment, succeeded: bool)
    requires !inst.status.Creating?
    ensures var (t', _, done) := CompleteOperation(t, inst, succeeded);
      && (done <==> Current(t, inst))
      && (!done ==> t' == t)
      && (done ==>
          && t'.rows == t.rows[inst.id := Write(t.rows[inst.id], inst).(active := None)]
          && t'.ops == t.ops[inst.operation.value :=
               t.ops[inst.operation.value].(state := if succeeded then Succeeded else Failed)]
          && t' == t.(rows := t'.rows, ops := t'.ops))
  {
  }

  lemma CompleteKeepsRecords(s: System, step: Step)
    requires step.DoComplete? && Allowed(s, step) && TicketsInv(s) && HandsInv(s)
    ensures TicketsInv(Next(s, step)) && HandsInv(Next(s, step))
  {
    hide CompleteOperation;
    CompleteShape(s.t, Finished(step.ticket, step.finish), step.finish.succeeded);
    var s' := Next(s, step);
    forall id | id in s'.t.rows && s'.t.rows[id].active.Some? ensures Held(s', id) {
      assert Held(s, id);
    }
  }

  lemma CompleteKeeps(s: System, step: Step)
    requires Inv(s) && step.DoComplete?
    ensures Inv(Next(s, step))
  {
    hide CompleteOperation, OpsInv, TicketsInv, HandsInv;
    if Allowed(s, step) {
      CompleteShape(s.t, Finished(step.ticket, step.finish), step.finish.succeeded);
      var s' := Next(s, step);
      if Current(s.t, Finished(step.ticket, step.finish)) {
        ClosingKeepsOps(s.t, s'.t, step.ticket.id, s'.t.rows[step.ticket.id],
                        if step.finish.succeeded then Succeeded else Failed);
      }
      CompleteKeepsRecords(s, step);
      assert NamesInv(s'.t, s'.kept);
    }
  }

  /** `delete` drops what is leased or exposed for the row, marks it, and leaves its operation. */
  lemma DeleteShape(t: Tables, id: string)
    requires id in t.rows
    ensures var t' := Delete(t, id);
      && t'.rows == t.rows[id := t.rows[id].(status := Destroyed, destroyedAt := true)]
      && t'.ops == t.ops && t'.supply == t.supply
      && (forall n :: n in t'.exposures <==> n in t.exposures && t.exposures[n].env != id)
      && (forall n :: n in t'.exposures ==> t'.exposures[n] == t.exposures[n])
      && (forall n :: n in t'.leases <==> n in t.leases && t.leases[n] != id)
      && (forall n :: n in t'.leases ==> t'.leases[n] == t.leases[n])
  {
  }

  lemma DeleteKeeps(s: System, step: Step)
    requires Inv(s) && step.DoDelete?
    ensures Inv(Next(s, step))
  {
    hide OpsInv, NamesInv, TicketsInv, HandsInv, Delete;
    if step.id in s.t.rows {
      var s' := Next(s, step);
      DeleteShape(s.t, step.id);
      RewordingKeepsOps(s.t, s'.t, step.id);
      DeleteKeepsNames(s.t, s.kept, step.id);
      RewordingKeepsRecords(s, s', step.id);
    } else {
      assert Delete(s.t, step.id) == s.t by { DeletesNothing(s.t, step.id); }
      assert NamesInv(s.t, s.kept - {step.id}) by { FewerKept(s.t, s.kept, s.kept - {step.id}); }
      assert TicketsInv(Next(s, step)) && HandsInv(Next(s, step)) by {
        SameRecords(s, Next(s, step));
      }
    }
  }

  lemma FewerKept(t: Tables, kept: set<string>, kept': set<string>)
    requires NamesInv(t, kept) && kept' <= kept
    ensures NamesInv(t, kept')
  {
  }

  lemma DeletesNothing(t: Tables, id: string)
    requires id !in t.rows
    ensures Delete(t, id) == t
  {
  }

  lemma DeleteKeepsNames(t: Tables, kept: set<string>, id: string)
    requires NamesInv(t, kept) && id in t.rows
    ensures NamesInv(Delete(t, id), kept - {id})
  {
    hide Delete;
    DeleteShape(t, id);
  }

  /** Writing a row without moving its generation and operation. */
  lemma RewordingKeepsOps(t: Tables, t': Tables, id: string)
    requires OpsInv(t) && t'.ops == t.ops && t'.supply == t.supply && id in t.rows && id in t'.rows
    requires t'.rows == t.rows[id := t'.rows[id]]
    requires t'.rows[id].generation == t.rows[id].generation && t'.rows[id].active == t.rows[id].active
    ensures OpsInv(t')
  {
  }

  /** The rows keep what tickets are checked against, or are at rest; calls hold no more. */
  lemma SameRecords(s: System, s': System)
    requires TicketsInv(s) && HandsInv(s) && s'.t.supply >= s.t.supply && s'.tickets == s.tickets
    requires forall c :: c in s'.hands ==> c in s.hands && s'.hands[c] == s.hands[c]
    requires forall id :: id in s.t.rows <==> id in s'.t.rows
    requires forall id :: id in s.t.rows && s'.t.rows[id].active.Some? ==>
      s'.t.rows[id].generation == s.t.rows[id].generation && s'.t.rows[id].active == s.t.rows[id].active
    ensures TicketsInv(s') && HandsInv(s')
  {
    forall id | id in s'.t.rows && s'.t.rows[id].active.Some? ensures Held(s', id) {
      assert Held(s, id);
    }
  }

  lemma RewordingKeepsRecords(s: System, s': System, id: string)
    requires TicketsInv(s) && HandsInv(s) && s'.t.supply == s.t.supply && s'.tickets == s.tickets
    requires forall c :: c in s'.hands ==> c in s.hands && s'.hands[c] == s.hands[c]
    requires id in s.t.rows && id in s'.t.rows && s'.t.rows == s.t.rows[id := s'.t.rows[id]]
    requires s'.t.rows[id].generation == s.t.rows[id].generation && s'.t.rows[id].active == s.t.rows[id].active
    ensures TicketsInv(s') && HandsInv(s')
  {
    SameRecords(s, s');
  }

  /** An unfenced write of a record over its row: the row keeps its generation and operation, or,
      when it is dead and the record is `creating`, starts over at rest without leasing its id. */
  lemma UpsertShape(t: Tables, inst: Environment)
    requires inst.id in t.rows
    ensures var t', r := Upsert(t, inst), t.rows[inst.id];
      if Dead(r.status) && inst.status.Creating? then
        && t'.rows == t.rows[inst.id := NewRow(inst, t.supply)] && t'.supply == t.supply + 1
        && t'.ops == t.ops && t'.leases == t.leases
        && (forall n :: n in t'.exposures <==> n in t.exposures && t.exposures[n].env != inst.id)
        && (forall n :: n in t'.exposures ==> t'.exposures[n] == t.exposures[n])
      else t' == t.(rows := t.rows[inst.id := Write(r, inst)])
  {
  }

  /** A row that starts over leaves every operation to an earlier generation. */
  lemma RestartKeepsOps(t: Tables, t': Tables, id: string, r: Row)
    requires OpsInv(t) && t'.ops == t.ops && t'.supply == t.supply + 1 && id in t.rows
    requires t'.rows == t.rows[id := r] && r.generation == t.supply && r.active.None?
    ensures OpsInv(t')
  {
  }

  lemma UpsertKeepsNames(t: Tables, kept: set<string>, inst: Environment)
    requires NamesInv(t, kept) && inst.id in t.rows
    ensures NamesInv(Upsert(t, inst), kept)
  {
    hide Upsert;
    UpsertShape(t, inst);
  }

  lemma RewriteKeeps(s: System, step: Step)
    requires Inv(s) && step.DoRewrite?
    ensures Inv(Next(s, step))
  {
    hide OpsInv, NamesInv, TicketsInv, Upsert;
    if Allowed(s, step) {
      var s', inst := Next(s, step), Rewritten(s.hands[step.call], step.edit);
      UpsertShape(s.t, inst);
      if Dead(s.t.rows[inst.id].status) && inst.status.Creating? {
        RestartKeepsOps(s.t, s'.t, inst.id, NewRow(inst, s.t.supply));
      } else {
        RewordingKeepsOps(s.t, s'.t, inst.id);
      }
      UpsertKeepsNames(s.t, s.kept, inst);
      SameRecords(s, s');
    }
  }

  lemma ReadKeeps(s: System, step: Step)
    requires Inv(s) && (step.DoRead? || step.DoEnd?)
    ensures Inv(Next(s, step))
  {
    hide OpsInv, NamesInv, TicketsInv;
    var s' := Next(s, step);
    SameRecords(s, s'.(hands := map[]));
    TicketsAlone(s'.(hands := map[]), s');
  }

  lemma TicketsAlone(s: System, s': System)
    requires TicketsInv(s) && s'.t == s.t && s'.tickets == s.tickets
    ensures TicketsInv(s')
  {
    forall id | id in s'.t.rows && s'.t.rows[id].active.Some? ensures Held(s', id) {
      assert Held(s, id);
    }
  }

  lemma ExposeKeeps(s: System, step: Step)
    requires Inv(s) && (step.DoExpose? || step.DoUnexpose? || step.DoGrant? || step.DoRevoke?)
    ensures Inv(Next(s, step))
  {
    hide OpsInv, NamesInv, TicketsInv, HandsInv;
    var s' := Next(s, step);
    assert s'.t.rows == s.t.rows && s'.t.ops == s.t.ops && s'.t.supply == s.t.supply;
    SameOps(s.t, s'.t);
    LabelsKeepNames(s, step);
    SameRecords(s, s');
  }

  lemma SameOps(t: Tables, t': Tables)
    requires OpsInv(t) && t'.rows == t.rows && t'.ops == t.ops && t'.supply == t.supply
    ensures OpsInv(t')
  {
  }

  lemma LabelsKeepNames(s: System, step: Step)
    requires NamesInv(s.t, s.kept) && (step.DoExpose? || step.DoUnexpose? || step.DoGrant? || step.DoRevoke?)
    ensures NamesInv(Next(s, step).t, Next(s, step).kept)
  {
  }

  lemma StepKeeps(s: System, step: Step)
    requires Inv(s)
    ensures Inv(Next(s, step))
  {
    hide Next, Inv;
    match step
    case DoReserve(_, _, _) => ReserveKeeps(s, step);
    case DoBegin(_, _, _, _) => BeginKeeps(s, step);
    case DoComplete(_, _) => CompleteKeeps(s, step);
    case DoDelete(_) => DeleteKeeps(s, step);
    case DoRead(_, _, _) => ReadKeeps(s, step);
    case DoRewrite(_, _) => RewriteKeeps(s, step);
    case DoEnd(_) => ReadKeeps(s, step);
    case _ => ExposeKeeps(s, step);
  }

  lemma {:induction false} RunKeeps(s: System, steps: seq<Step>)
    requires Inv(s)
    ensures Inv(Run(s, steps))
  {
    if steps != [] {
      RunKeeps(s, steps[..|steps| - 1]);
      StepKeeps(Run(s, steps[..|steps| - 1]), steps[|steps| - 1]);
    }
  }

  // ---- what one step does to the rows ----

  /** The environment a step addresses: the one of the record that a call writes back. */
  ghost function Target(s: System, step: Step): string {
    match step
    case DoReserve(_, inst, _) => inst.id
    case DoBegin(id, _, _, _) => id
    case DoComplete(ticket, _) => ticket.id
    case DoDelete(id) => id
    case DoRead(_, id, _) => id
    case DoRewrite(call, _) => if call in s.hands then s.hands[call].inst.id else ""
    case DoEnd(_) => ""
    case DoExpose(id, _, _) => id
    case DoUnexpose(id, _) => id
    case DoGrant(id, _) => id
    case DoRevoke(id, _) => id
  }

  /** How a row may differ after a step that addresses it. */
  ghost predicate RowChange(s: System, step: Step, before: Row, after: Row) {
    || after == before
    || (step.DoBegin? && before.active.None? && !Dead(before.status) && !Dead(after.status) && after.active.Some?
        && after.owner == before.owner)
    || (step.DoComplete? && Current(s.t, step.ticket) && step.ticket in s.tickets
        && after.active.None? && after.owner == step.ticket.owner)
    || (step.DoDelete? && after == before.(status := Destroyed, destroyedAt := true))
    || (step.DoRewrite? && Allowed(s, step)
        && var inst := Rewritten(s.hands[step.call], step.edit);
          && after.owner == inst.owner && after.status == inst.status
          && (after.active == before.active || (after.active.None? && Dead(before.status))))
  }

  lemma OneRowMoves(s: System, step: Step)
    requires Inv(s)
    ensures var t' := Next(s, step).t;
      forall k :: k != Target(s, step) ==>
        (k in s.t.rows <==> k in t'.rows) && (k in s.t.rows ==> s.t.rows[k] == t'.rows[k])
    ensures var t', id := Next(s, step).t, Target(s, step);
      if step.DoReserve? && t' != s.t then
        && (id in s.t.rows ==> Dead(s.t.rows[id].status))
        && (step.quota.Some? ==> CountActive(s.t, step.inst.owner) < step.quota.value)
        && id in t'.rows && t'.rows[id].status.Creating? && t'.rows[id].owner == step.inst.owner
      else
        && (id in s.t.rows <==> id in t'.rows)
        && (id in s.t.rows ==> RowChange(s, step, s.t.rows[id], t'.rows[id]))
  {
    hide Reserve, BeginOperation, CompleteOperation, Upsert, NamesInv, CountActive, OpsInv, TicketsInv;
    match step
    case DoReserve(_, inst, quota) =>
      if Allowed(s, step) {
        if Reserve(s.t, inst, quota).1.Reserved? {
          ReserveShape(s.t, inst, quota);
        } else {
          ReserveFailureChangesNothing(s.t, inst, quota);
        }
      }
    case DoComplete(other, finish) =>
      if Allowed(s, step) {
        CompleteShape(s.t, Finished(other, finish), finish.succeeded);
      }
    case DoBegin(id, kind, expected, transitional) => BeginShape(s.t, id, kind, expected, transitional);
    case DoRewrite(call, edit) =>
      if Allowed(s, step) {
        UpsertShape(s.t, Rewritten(s.hands[call], edit));
      }
    case _ =>
  }

  /** New tickets are for the environment that the step addresses. */
  lemma TicketsMove(s: System, step: Step)
    ensures s.tickets <= Next(s, step).tickets
    ensures forall k :: k in Next(s, step).tickets && k !in s.tickets ==> k.id == Target(s, step)
  {
    hide BeginOperation, CompleteOperation, Upsert, CountActive;
    if step.DoBegin? {
      BeginShape(s.t, step.id, step.kind, step.expected, step.transitional);
    }
  }

  // ---- fencing ----

  /** A ticket the fence no longer admits is never admitted again. */
  lemma StaleAfterStep(s: System, step: Step, ticket: Environment)
    requires Inv(s) && ticket in s.tickets && !Current(s.t, ticket)
    ensures ticket in Next(s, step).tickets && !Current(Next(s, step).t, ticket)
  {
    hide Inv, Current;
    TicketsMove(s, step);
    Supplying(s, ticket);
    if step.DoReserve? || step.DoBegin? {
      StaleAfterClaim(s, step, ticket);
    } else {
      StaleAfterOther(s, step, ticket);
    }
  }

  lemma Supplying(s: System, ticket: Environment)
    requires Inv(s) && ticket in s.tickets
    ensures ticket.generation.Some? && ticket.generation.value < s.t.supply
    ensures ticket.operation.Some? && ticket.operation.value < s.t.supply
    ensures OpsInv(s.t) && HandsInv(s)
  {
  }

  lemma StaleAfterClaim(s: System, step: Step, ticket: Environment)
    requires Supplied(s.t) && !Current(s.t, ticket) && (step.DoReserve? || step.DoBegin?)
    requires ticket.generation.Some? && ticket.generation.value < s.t.supply
    requires ticket.operation.Some? && ticket.operation.value < s.t.supply
    ensures !Current(Next(s, step).t, ticket)
  {
    hide Reserve, BeginOperation, CountActive;
    if Allowed(s, step) {
      if step.DoBegin? {
        BeginShape(s.t, step.id, step.kind, step.expected, step.transitional);
      } else if Reserve(s.t, step.inst, step.quota).1.Reserved? {
        ReserveShape(s.t, step.inst, step.quota);
      } else {
        ReserveFailureChangesNothing(s.t, step.inst, step.quota);
      }
    }
  }

  lemma StaleAfterOther(s: System, step: Step, ticket: Environment)
    requires OpsInv(s.t) && HandsInv(s) && !Current(s.t, ticket) && !(step.DoReserve? || step.DoBegin?)
    requires ticket.generation.Some? && ticket.generation.value < s.t.supply && ticket.operation.Some?
    ensures !Current(Next(s, step).t, ticket)
  {
    hide CompleteOperation, Upsert, OpenIsActive, Exclusive;
    if Allowed(s, step) {
      match step
      case DoComplete(other, finish) => CompleteShape(s.t, Finished(other, finish), finish.succeeded);
      case DoRewrite(call, edit) => UpsertShape(s.t, Rewritten(s.hands[call], edit));
      case _ =>
    }
  }

  lemma {:induction false} StaleForever(s: System, steps: seq<Step>, ticket: Environment)
    requires Inv(s) && ticket in s.tickets && !Current(s.t, ticket)
    ensures ticket in Run(s, steps).tickets && !Current(Run(s, steps).t, ticket)
  {
    if steps != [] {
      var prefix := steps[..|steps| - 1];
      StaleForever(s, prefix, ticket);
      RunKeeps(s, prefix);
      StaleAfterStep(Run(s, prefix), steps[|steps| - 1], ticket);
    }
  }

  /** Once a name is reclaimed, no record handed out for it before can change anything by
      completing, whatever the workers do in between and whatever it tries to write. */
  lemma ReclaimedNameIsFenced(before: seq<Step>, call: nat, inst: Environment, quota: Option<nat>,
                              after: seq<Step>, ticket: Environment, finish: Finish)
    requires Allowed(Run(INIT, before), DoReserve(call, inst, quota))
    requires ticket in Run(INIT, before).tickets && ticket.id == inst.id
    requires Reserve(Run(INIT, before).t, inst, quota).1.Reserved?
    ensures var t := Run(Next(Run(INIT, before), DoReserve(call, inst, quota)), after).t;
      CompleteOperation(t, Finished(ticket, finish), finish.succeeded)
        == (t, Finished(ticket, finish), false)
  {
    var s := Run(INIT, before);
    RunKeeps(INIT, before);
    ReserveShape(s.t, inst, quota);
    var s' := Next(s, DoReserve(call, inst, quota));
    StepKeeps(s, DoReserve(call, inst, quota));
    assert !Current(s'.t, ticket);
    StaleForever(s', after, ticket);
    assert Current(Run(s', after).t, Finished(ticket, finish)) == Current(Run(s', after).t, ticket);
  }

  // ---- operations ----

  /** The unfinished operations of a row's current generation are its active one, or none. */
  lemma OpenOperations(steps: seq<Step>, id: string)
    requires id in Run(INIT, steps).t.rows
    ensures var t := Run(INIT, steps).t;
      (set o | o in t.ops && t.ops[o].env == id && t.ops[o].generation == t.rows[id].generation
               && Unfinished(t.ops[o]))
        == if t.rows[id].active.Some? then {t.rows[id].active.value} else {}
  {
    RunKeeps(INIT, steps);
  }

  /** Operations of one generation never overlap, even of a generation since reclaimed. */
  lemma NoOverlap(steps: seq<Step>, o: nat, p: nat)
    requires var t := Run(INIT, steps).t;
      && o in t.ops && p in t.ops && Unfinished(t.ops[o]) && Unfinished(t.ops[p])
      && t.ops[o].generation == t.ops[p].generation && t.ops[o].env == t.ops[p].env
    ensures o == p
  {
    RunKeeps(INIT, steps);
  }

  /** Records keep their environment, generation and kind, and finished ones keep everything. */
  ghost predicate OpsOnlyFinish(ops: map<nat, Operation>, ops': map<nat, Operation>) {
    forall o :: o in ops ==>
      && o in ops'
      && ops'[o] == ops[o].(state := ops'[o].state)
      && (ops'[o] == ops[o] || (Unfinished(ops[o]) && !Unfinished(ops'[o])))
  }

  lemma OpAdded(ops: map<nat, Operation>, o: nat, op: Operation)
    requires o !in ops
    ensures OpsOnlyFinish(ops, ops) && OpsOnlyFinish(ops, ops[o := op])
  {
  }

  lemma OpClosed(ops: map<nat, Operation>, o: nat, state: OpState)
    requires o in ops && Unfinished(ops[o]) && (state.Succeeded? || state.Failed?)
    ensures OpsOnlyFinish(ops, ops[o := ops[o].(state := state)])
  {
  }

  lemma OpsMove(s: System, step: Step)
    requires Inv(s)
    ensures OpsOnlyFinish(s.t.ops, Next(s, step).t.ops)
  {
    hide OpsOnlyFinish, Reserve, BeginOperation, CompleteOperation, Upsert;
    hide ActiveIsOpen, OpenIsActive, Exclusive, NamesInv, TicketsInv;
    var t := s.t;
    OpAdded(t.ops, t.supply, Operation("", 0, Provision, Queued));
    match step
    case DoReserve(_, inst, quota) =>
      if Allowed(s, step) {
        if Reserve(t, inst, quota).1.Reserved? {
          ReserveShape(t, inst, quota);
          OpAdded(t.ops, t.supply + 1, Operation(inst.id, t.supply, Provision, Queued));
        } else {
          ReserveFailureChangesNothing(t, inst, quota);
        }
      }
    case DoBegin(id, kind, expected, transitional) =>
      BeginShape(t, id, kind, expected, transitional);
      if CanBegin(t, id, expected) {
        OpAdded(t.ops, t.supply, Operation(id, t.rows[id].generation, kind, Queued));
      }
    case DoComplete(other, finish) =>
      if Allowed(s, step) {
        CompleteShape(t, Finished(other, finish), finish.succeeded);
        if Current(t, Finished(other, finish)) {
          OpClosed(t.ops, other.operation.value, if finish.succeeded then Succeeded else Failed);
        }
      }
    case DoRewrite(call, edit) =>
      if Allowed(s, step) {
        UpsertShape(t, Rewritten(s.hands[call], edit));
      }
    case _ => assert Next(s, step).t.ops == t.ops;
  }

  /** An operation leaves `queued` at most once: finished, its record never changes again. */
  lemma {:induction false} OperationsFinishOnce(s: System, steps: seq<Step>)
    requires Inv(s)
    ensures OpsOnlyFinish(s.t.ops, Run(s, steps).t.ops)
  {
    if steps != [] {
      var prefix := steps[..|steps| - 1];
      OperationsFinishOnce(s, prefix);
      RunKeeps(s, prefix);
      OpsMove(Run(s, prefix), steps[|steps| - 1]);
    }
  }

  // ---- the quota ----

  /** The record that opens a row's active operation was handed out for this owner. */
  ghost predicate Owned(s: System, id: string, owner: string)
    requires id in s.t.rows
  {
    exists k :: k in s.tickets && k.id == id && k.operation == s.t.rows[id].active && k.owner == owner
  }

  /** Rows that do not count as this owner's, with an operation open whose completion would
      bring them back. */
  ghost function Revivable(s: System, owner: string): set<string> {
    set id | id in s.t.rows && id !in ActiveIds(s.t, owner) && s.t.rows[id].active.Some? && Owned(s, id, owner)
  }

  ghost predicate HitsOpenOperation(t: Tables, step: Step, owner: string) {
    step.DoDelete? && step.id in t.rows && t.rows[step.id].active.Some? && t.rows[step.id].owner == owner
  }

  /** How many deletes of a run hit a row of this owner with an outstanding operation. */
  ghost function OutstandingDeletes(s: System, steps: seq<Step>, owner: string): nat {
    if steps == [] then 0
    else
      var prefix := steps[..|steps| - 1];
      OutstandingDeletes(s, prefix, owner) +
      if HitsOpenOperation(Run(s, prefix).t, steps[|steps| - 1], owner) then 1 else 0
  }

  predicate Counts(owner: string, status: Status, who: string) {
    owner == who && !Dead(status)
  }

  /** An unfenced write makes a row count as this owner's that did not, or stops one counting
      that has an operation outstanding. */
  ghost predicate Shifts(s: System, step: Step, owner: string) {
    step.DoRewrite? && Allowed(s, step)
    && var inst := Rewritten(s.hands[step.call], step.edit);
      inst.id in s.t.rows
      && var r := s.t.rows[inst.id];
        if Counts(r.owner, r.status, owner) then !Counts(inst.owner, inst.status, owner) && r.active.Some?
        else Counts(inst.owner, inst.status, owner)
  }

  ghost function UnfencedShifts(s: System, steps: seq<Step>, owner: string): nat {
    if steps == [] then 0
    else
      var prefix := steps[..|steps| - 1];
      UnfencedShifts(s, prefix, owner) + if Shifts(Run(s, prefix), steps[|steps| - 1], owner) then 1 else 0
  }

  ghost predicate ReservesUnder(steps: seq<Step>, owner: string, q: nat) {
    forall i :: 0 <= i < |steps| && steps[i].DoReserve? && steps[i].inst.owner == owner ==>
      steps[i].quota == Some(q)
  }

  /** Replacing one row changes a count of rows by what that row contributes. */
  lemma CountMoves(a: set<string>, b: set<string>, id: string)
    requires a - {id} == b - {id}
    ensures |a| + (if id in b then 1 else 0) == |b| + (if id in a then 1 else 0)
  {
    assert |a - {id}| == |a| - if id in a then 1 else 0;
    assert |b - {id}| == |b| - if id in b then 1 else 0;
  }

  lemma RowMoves(s: System, step: Step, owner: string)
    requires Inv(s)
    ensures var s', id := Next(s, step), Target(s, step);
      && CountActive(s'.t, owner) + (if id in ActiveIds(s.t, owner) then 1 else 0)
         == CountActive(s.t, owner) + (if id in ActiveIds(s'.t, owner) then 1 else 0)
      && |Revivable(s', owner)| + (if id in Revivable(s, owner) then 1 else 0)
         == |Revivable(s, owner)| + (if id in Revivable(s', owner) then 1 else 0)
  {
    hide Next, Inv, Allowed, RowChange;
    var s', id := Next(s, step), Target(s, step);
    OneRowMoves(s, step);
    TicketsMove(s, step);
    assert ActiveIds(s.t, owner) - {id} == ActiveIds(s'.t, owner) - {id};
    forall k | k != id && k in s.t.rows ensures Owned(s, k, owner) == Owned(s', k, owner) {
    }
    assert Revivable(s, owner) - {id} == Revivable(s', owner) - {id};
    CountMoves(ActiveIds(s'.t, owner), ActiveIds(s.t, owner), id);
    CountMoves(Revivable(s', owner), Revivable(s, owner), id);
  }

  /** With one ticket for each operation, a row's owner by its operation is the ticket's. */
  lemma OwnedIff(s: System, k: Environment, owner: string)
    requires TicketsInv(s) && k in s.tickets && k.id in s.t.rows && k.operation == s.t.rows[k.id].active
    ensures Owned(s, k.id, owner) <==> k.owner == owner
  {
  }

  ghost predicate WithinQuota(s: System, owner: string, q: nat, e: nat) {
    |Revivable(s, owner)| <= e && CountActive(s.t, owner) + |Revivable(s, owner)| <= q + e
  }

  ghost function Excess(s: System, step: Step, owner: string): nat {
    if HitsOpenOperation(s.t, step, owner) || Shifts(s, step, owner) then 1 else 0
  }

  /** What the addressed row contributes after a step, against what it contributed before. */
  ghost predicate Contribution(s: System, step: Step, s': System, owner: string) {
    var id := Target(s, step);
    && (id in Revivable(s', owner) ==> id in Revivable(s, owner) || Excess(s, step, owner) == 1)
    && (id in ActiveIds(s'.t, owner) ==>
        || id in ActiveIds(s.t, owner) || id in Revivable(s, owner) || Excess(s, step, owner) == 1
        || (step.DoReserve? && step.inst.owner == owner
            && (step.quota.Some? ==> CountActive(s.t, owner) < step.quota.value)))
  }

  lemma ClaimContributes(s: System, step: Step, owner: string)
    requires Inv(s) && Inv(Next(s, step)) && (step.DoReserve? || step.DoBegin?)
    ensures Contribution(s, step, Next(s, step), owner)
  {
    hide Reserve, BeginOperation, CountActive, OpsInv, NamesInv, TicketsInv, HandsInv;
    if Allowed(s, step) {
      if step.DoReserve? {
        if Reserve(s.t, step.inst, step.quota).1.Reserved? {
          ReserveShape(s.t, step.inst, step.quota);
          OwnedIff(Next(s, step), Reserve(s.t, step.inst, step.quota).1.inst, owner);
        } else {
          ReserveFailureChangesNothing(s.t, step.inst, step.quota);
        }
      } else {
        BeginShape(s.t, step.id, step.kind, step.expected, step.transitional);
        if CanBegin(s.t, step.id, step.expected) {
          OwnedIff(Next(s, step), ToEnvironment(Next(s, step).t, step.id), owner);
        }
      }
    }
  }

  lemma CompletionContributes(s: System, step: Step, owner: string)
    requires Inv(s) && step.DoComplete?
    ensures Contribution(s, step, Next(s, step), owner)
  {
    hide CompleteOperation, OpsInv, NamesInv, TicketsInv, HandsInv, CountActive;
    if Allowed(s, step) {
      CompleteShape(s.t, Finished(step.ticket, step.finish), step.finish.succeeded);
      if Current(s.t, step.ticket) {
        OwnedIff(s, step.ticket, owner);
      }
    }
  }

  lemma OtherContributes(s: System, step: Step, owner: string)
    requires Inv(s) && !(step.DoReserve? || step.DoBegin? || step.DoComplete?)
    ensures Contribution(s, step, Next(s, step), owner)
  {
    hide Inv, Upsert, Delete, CountActive, Reserve, BeginOperation, CompleteOperation;
    OneRowMoves(s, step);
    var s', id := Next(s, step), Target(s, step);
    assert s'.tickets == s.tickets;
    if id in s.t.rows && s'.t.rows[id].active == s.t.rows[id].active {
      assert Owned(s, id, owner) == Owned(s', id, owner);
    }
  }

  lemma Contributes(s: System, step: Step, owner: string)
    requires Inv(s)
    ensures Contribution(s, step, Next(s, step), owner)
  {
    hide Inv, Next, Contribution;
    StepKeeps(s, step);
    if step.DoReserve? || step.DoBegin? {
      ClaimContributes(s, step, owner);
    } else if step.DoComplete? {
      CompletionContributes(s, step, owner);
    } else {
      OtherContributes(s, step, owner);
    }
  }

  lemma QuotaStep(s: System, step: Step, owner: string, q: nat, e: nat)
    requires Inv(s) && WithinQuota(s, owner, q, e)
    requires step.DoReserve? && step.inst.owner == owner ==> step.quota == Some(q)
    ensures WithinQuota(Next(s, step), owner, q, e + Excess(s, step, owner))
  {
    hide Next, Inv, Excess, CountActive, ActiveIds;
    RowMoves(s, step, owner);
    Contributes(s, step, owner);
    Apart(s, Target(s, step), owner);
    Apart(Next(s, step), Target(s, step), owner);
  }

  lemma Apart(s: System, id: string, owner: string)
    ensures !(id in ActiveIds(s.t, owner) && id in Revivable(s, owner))
  {
  }

  lemma {:induction false} QuotaHolds(steps: seq<Step>, owner: string, q: nat)
    requires ReservesUnder(steps, owner, q)
    ensures WithinQuota(Run(INIT, steps), owner, q,
                        OutstandingDeletes(INIT, steps, owner) + UnfencedShifts(INIT, steps, owner))
  {
    if steps != [] {
      var prefix := steps[..|steps| - 1];
      QuotaHolds(prefix, owner, q);
      RunKeeps(INIT, prefix);
      QuotaStep(Run(INIT, prefix), steps[|steps| - 1], owner, q,
                OutstandingDeletes(INIT, prefix, owner) + UnfencedShifts(INIT, prefix, owner));
    }
  }

  /** In every interleaving an owner's active environments exceed the quota by at most the
      deletes that hit an environment with an operation in flight and the unfenced writes that
      bring a row back or take one over. */
  lemma QuotaBound(steps: seq<Step>, owner: string, q: nat)
    requires ReservesUnder(steps, owner, q)
    ensures CountActive(Run(INIT, steps).t, owner)
      <= q + OutstandingDeletes(INIT, steps, owner) + UnfencedShifts(INIT, steps, owner)
  {
    QuotaHolds(steps, owner, q);
  }

  // ---- the namespace ----

  /** No label answers for two environments, and no environment's label is the id of another
      that was reserved and not deleted since. */
  lemma OneNamespace(steps: seq<Step>, name: string)
    requires name in Run(INIT, steps).t.exposures
    ensures var s := Run(INIT, steps);
      && name in s.t.leases && s.t.leases[name] == s.t.exposures[name].env
      && (name in s.kept ==> s.t.exposures[name].env == name)
  {
    RunKeeps(INIT, steps);
  }

  // ---- finality of deletion ----

  /** Some call under way holds a record of this environment to write back. */
  ghost predicate Holding(s: System, id: string) {
    exists c :: c in s.hands && s.hands[c].inst.id == id
  }

  ghost predicate DestroyedAtRest(s: System, id: string) {
    id in s.t.rows && s.t.rows[id].status.Destroyed? && s.t.rows[id].active.None? && !Holding(s, id)
  }

  ghost predicate NeverReserves(steps: seq<Step>, id: string) {
    forall i :: 0 <= i < |steps| ==> !(steps[i].DoReserve? && steps[i].inst.id == id)
  }

  lemma RestingStep(s: System, step: Step, id: string)
    requires Inv(s) && DestroyedAtRest(s, id) && !(step.DoReserve? && step.inst.id == id)
    ensures DestroyedAtRest(Next(s, step), id)
  {
    hide Inv, Reserve, BeginOperation, CompleteOperation, Upsert, Delete;
    OneRowMoves(s, step);
    var s' := Next(s, step);
    if step.DoReserve? && Reserve(s.t, step.inst, step.quota).1.Reserved? && Allowed(s, step) {
      ReserveShape(s.t, step.inst, step.quota);
    }
    forall c | c in s'.hands ensures s'.hands[c].inst.id != id {
    }
  }

  lemma {:induction false} DestroyedAtRestIsFinal(s: System, steps: seq<Step>, id: string)
    requires Inv(s) && DestroyedAtRest(s, id) && NeverReserves(steps, id)
    ensures DestroyedAtRest(Run(s, steps), id)
  {
    if steps != [] {
      var prefix, last := steps[..|steps| - 1], steps[|steps| - 1];
      DestroyedAtRestIsFinal(s, prefix, id);
      RunKeeps(s, prefix);
      RestingStep(Run(s, prefix), last, id);
    }
  }

  ghost predicate StaysDestroyed(s: System, id: string) {
    forall steps :: NeverReserves(steps, id) ==>
      id in Run(s, steps).t.rows && Run(s, steps).t.rows[id].status.Destroyed?
  }

  /** The interrupted worker completes. */
  lemma Completion(s: System, id: string) returns (step: Step)
    requires Inv(s) && id in s.t.rows && s.t.rows[id].active.Some?
    ensures step.DoComplete?
    ensures id in Next(s, step).t.rows && !Next(s, step).t.rows[id].status.Destroyed?
  {
    hide CompleteOperation, NamesInv, HandsInv, OpenIsActive, Exclusive, Supplied;
    assert Held(s, id);
    var k :| k in s.tickets && k.id == id && k.operation == s.t.rows[id].active
             && k.generation == Some(s.t.rows[id].generation);
    step := DoComplete(k, READY);
    CompleteShape(s.t, Finished(k, READY), true);
  }

  /** A call writes back the record it holds. */
  lemma WriteBack(s: System, id: string) returns (step: Step)
    requires HandsInv(s) && id in s.t.rows && s.t.rows[id].active.None? && Holding(s, id)
    ensures step.DoRewrite?
    ensures id in Next(s, step).t.rows && !Next(s, step).t.rows[id].status.Destroyed?
  {
    hide Upsert;
    var c :| c in s.hands && s.hands[c].inst.id == id;
    var edit := Edit(None, None, "");
    step := DoRewrite(c, edit);
    UpsertShape(s.t, Rewritten(s.hands[c], edit));
  }

  lemma HandsKept(s: System)
    requires Inv(s)
    ensures HandsInv(s)
  {
  }

  /** Deletion is final until the name is reserved again exactly when no operation is outstanding
      on it and no call holds a record of it: `delete` leaves the fence open to the worker it
      interrupted, and nothing fences a record read before. */
  lemma DeletionIsFinalIff(before: seq<Step>, id: string)
    requires id in Run(INIT, before).t.rows && Run(INIT, before).t.rows[id].status.Destroyed?
    ensures var s := Run(INIT, before);
      StaysDestroyed(s, id) <==> s.t.rows[id].active.None? && !Holding(s, id)
  {
    hide Inv, Next;
    var s := Run(INIT, before);
    RunKeeps(INIT, before);
    if s.t.rows[id].active.None? && !Holding(s, id) {
      forall steps | NeverReserves(steps, id)
        ensures id in Run(s, steps).t.rows && Run(s, steps).t.rows[id].status.Destroyed?
      {
        DestroyedAtRestIsFinal(s, steps, id);
      }
    } else {
      var step: Step;
      if s.t.rows[id].active.Some? {
        step := Completion(s, id);
      } else {
        assert HandsInv(s) by { HandsKept(s); }
        step := WriteBack(s, id);
      }
      var steps := [step];
      assert steps[..0] == [];
      assert Run(s, steps) == Next(s, step);
      assert NeverReserves(steps, id);
    }
  }

  // ---- who owns a row ----

  /** An unfenced write gives a row another owner. */
  ghost predicate Overwrites(s: System, step: Step) {
    step.DoRewrite? && Allowed(s, step)
    && var inst := s.hands[step.call].inst;
      inst.id in s.t.rows && s.t.rows[inst.id].owner != inst.owner
  }

  /** A row belongs to whoever its generation was handed out for. */
  ghost predicate OwnersAgree(s: System) {
    forall k :: k in s.tickets && k.id in s.t.rows && Some(s.t.rows[k.id].generation) == k.generation ==>
      s.t.rows[k.id].owner == k.owner
  }

  lemma OwnersStep(s: System, step: Step)
    requires Inv(s) && OwnersAgree(s) && !Overwrites(s, step)
    ensures OwnersAgree(Next(s, step))
  {
    hide Reserve, BeginOperation, CompleteOperation, Upsert, NamesInv, CountActive, OpsInv;
    match step
    case DoReserve(_, inst, quota) =>
      if Allowed(s, step) {
        if Reserve(s.t, inst, quota).1.Reserved? {
          ReserveShape(s.t, inst, quota);
        } else {
          ReserveFailureChangesNothing(s.t, inst, quota);
        }
      }
    case DoComplete(other, finish) =>
      if Allowed(s, step) {
        CompleteShape(s.t, Finished(other, finish), finish.succeeded);
      }
    case DoBegin(id, kind, expected, transitional) => BeginShape(s.t, id, kind, expected, transitional);
    case DoRewrite(call, edit) =>
      if Allowed(s, step) {
        UpsertShape(s.t, Rewritten(s.hands[call], edit));
      }
    case _ =>
  }

  /** In every interleaving a row belongs to whoever its generation was handed out for, unless
      an unfenced write gave it another owner. */
  lemma {:induction false} OwnersKept(steps: seq<Step>)
    ensures (forall i :: 0 <= i < |steps| ==> !Overwrites(Run(INIT, steps[..i]), steps[i]))
      ==> OwnersAgree(Run(INIT, steps))
  {
    hide Inv, Next, OwnersAgree, Overwrites;
    if steps == [] {
      assert OwnersAgree(INIT) by { NobodyOwns(); }
    } else if forall i :: 0 <= i < |steps| ==> !Overwrites(Run(INIT, steps[..i]), steps[i]) {
      var n := |steps| - 1;
      var prefix := steps[..n];
      forall i | 0 <= i < n ensures !Overwrites(Run(INIT, prefix[..i]), prefix[i]) {
        assert prefix[..i] == steps[..i];
      }
      OwnersKept(prefix);
      RunKeeps(INIT, prefix);
      OwnersStep(Run(INIT, prefix), steps[n]);
    }
  }

  lemma NobodyOwns()
    ensures OwnersAgree(INIT)
  {
  }
}
