/** The durable lifecycle store as a value: its tables, and one function per database
    transaction. `StateStore.DjangoStateStore` runs these transactions in place; the
    theorems about interleavings (`Fence`) and about the control plane are about them. */
module Tables {
  import opened Wrappers
  import opened Model

  datatype Kind = Provision | Start | Stop

  datatype OpState = Queued | Running | Succeeded | Failed

  datatype Operation = Operation(env: string, generation: nat, kind: Kind, state: OpState)

  predicate Unfinished(op: Operation) {
    op.state.Queued? || op.state.Running?
  }

  /** A row of the environment table. `destroyedAt` is only whether the timestamp is set:
      `delete` sets it and a fresh create of the name clears it. */
  datatype Row = Row(
    key: ArgsKey,
    backend: string,
    owner: string,
    status: Status,
    ip: Option<string>,
    url: Option<string>,
    error: string,
    createdAt: int,
    expiresAt: Option<int>,
    destroyedAt: bool,
    generation: nat,
    active: Option<nat>)

  datatype ExposureRow = ExposureRow(env: string, exposure: Exposure)

  /** `supply` hands out generations and operation ids: UUIDs never repeat. Leases and
      exposures are keyed by label, as their unique constraints demand. */
  datatype Tables = Tables(
    rows: map<string, Row>,
    ops: map<nat, Operation>,
    leases: map<string, string>,
    exposures: map<string, ExposureRow>,
    grants: set<(string, string)>,
    supply: nat)

  const EMPTY := Tables(map[], map[], map[], map[], {}, 0)

  datatype ReserveOutcome = Reserved(inst: Environment) | NameTaken | QuotaExceeded

  // ---- reading ----

  function GrantsOf(t: Tables, id: string): set<string> {
    set g | g in t.grants && g.0 == id :: g.1
  }

  function ExposuresOf(t: Tables, id: string): map<string, Exposure> {
    map n | n in t.exposures && t.exposures[n].env == id :: t.exposures[n].exposure
  }

  function ToEnvironment(t: Tables, id: string): Environment
    requires id in t.rows
  {
    var r := t.rows[id];
    Environment(id, r.key, r.backend, r.owner, r.status, r.ip, r.url, r.error, r.createdAt, r.expiresAt,
                GrantsOf(t, id), ExposuresOf(t, id), Some(r.generation), r.active)
  }

  function Get(t: Tables, id: string): Option<Environment> {
    if id in t.rows then Some(ToEnvironment(t, id)) else None
  }

  function ActiveIds(t: Tables, owner: string): set<string> {
    set id | id in t.rows && t.rows[id].owner == owner && !Dead(t.rows[id].status)
  }

  function CountActive(t: Tables, owner: string): nat {
    |ActiveIds(t, owner)|
  }

  /** The live exposure holding a label: labels of destroyed environments are free. */
  function FindExposure(t: Tables, name: string): Option<string> {
    if name in t.exposures && t.exposures[name].env in t.rows
       && !t.rows[t.exposures[name].env].status.Destroyed?
    then Some(t.exposures[name].env) else None
  }

  function Expired(t: Tables, now: int): set<string> {
    set id | id in t.rows && !t.rows[id].status.Destroyed?
             && t.rows[id].expiresAt.Some? && t.rows[id].expiresAt.value <= now
  }

  /** `order` is the order in which a query lists what it finds. */
  predicate Lists(order: seq<string>, found: set<string>) {
    (forall i, j :: 0 <= i < j < |order| ==> order[i] != order[j]) && (set id | id in order) == found
  }

  /** The rows `find` ranks: same template, arguments and owner, not destroyed. */
  predicate Matches(t: Tables, key: ArgsKey, owner: string, id: string) {
    && id in t.rows
    && t.rows[id].key == key
    && t.rows[id].owner == owner
    && !t.rows[id].status.Destroyed?
  }

  // ---- writing ----

  function DropEnv(t: Tables, id: string): Tables {
    t.(grants := (set g | g in t.grants && g.0 != id),
       exposures := (map n | n in t.exposures && t.exposures[n].env != id :: t.exposures[n]))
  }

  function DropLeases(t: Tables, id: string): Tables {
    t.(leases := map n | n in t.leases && t.leases[n] != id :: t.leases[n])
  }

  /** Copy a domain record over a row, leaving what the record does not carry. */
  function Write(r: Row, inst: Environment): Row {
    r.(key := inst.key, backend := inst.backend, owner := inst.owner, status := inst.status, ip := inst.ip,
       url := inst.url, error := inst.error, createdAt := inst.createdAt, expiresAt := inst.expiresAt)
  }

  predicate CreatesRow(t: Tables, inst: Environment) {
    inst.id !in t.rows || (Dead(t.rows[inst.id].status) && inst.status.Creating?)
  }

  function NewRow(inst: Environment, generation: nat): Row {
    Row(inst.key, inst.backend, inst.owner, inst.status, inst.ip, inst.url, inst.error, inst.createdAt,
        inst.expiresAt, false, generation, None)
  }

  function Upsert(t: Tables, inst: Environment): Tables {
    if CreatesRow(t, inst) then
      var t1 := if inst.id in t.rows then DropEnv(t, inst.id) else t;
      t1.(rows := t1.rows[inst.id := NewRow(inst, t1.supply)], supply := t1.supply + 1)
    else
      t.(rows := t.rows[inst.id := Write(t.rows[inst.id], inst)])
  }

  /** Open an operation on a row and point the row at it. */
  function OpenOperation(t: Tables, id: string, kind: Kind): Tables
    requires id in t.rows
  {
    var r := t.rows[id];
    t.(rows := t.rows[id := r.(active := Some(t.supply))],
       ops := t.ops[t.supply := Operation(id, r.generation, kind, Queued)],
       supply := t.supply + 1)
  }

  function Reserve(t: Tables, inst: Environment, quota: Option<nat>): (Tables, ReserveOutcome) {
    if quota.Some? && CountActive(t, inst.owner) >= quota.value then (t, QuotaExceeded)
    else if inst.id in t.rows && !Dead(t.rows[inst.id].status) then (t, NameTaken)
    else
      var t1 := if inst.id in t.rows then DropLeases(t, inst.id) else t;
      var t2 := OpenOperation(Upsert(t1, inst), inst.id, Provision);
      if inst.id in t2.leases then (t, NameTaken)
      else
        var t3 := t2.(leases := t2.leases[inst.id := inst.id]);
        (t3, Reserved(inst.(generation := Some(t3.rows[inst.id].generation), operation := t3.rows[inst.id].active)))
  }

  predicate CanBegin(t: Tables, id: string, expected: set<Status>) {
    id in t.rows && t.rows[id].active.None? && t.rows[id].status in expected
  }

  function BeginOperation(t: Tables, id: string, kind: Kind, expected: set<Status>, transitional: Status)
    : (Tables, Option<Environment>)
  {
    if !CanBegin(t, id, expected) then (t, None)
    else
      var t1 := OpenOperation(t.(rows := t.rows[id := t.rows[id].(status := transitional)]), id, kind);
      (t1, Some(ToEnvironment(t1, id)))
  }

  /** The fence: the record still names its row's generation and unfinished active operation. */
  predicate Current(t: Tables, inst: Environment) {
    && inst.operation.Some? && inst.generation.Some?
    && inst.id in t.rows
    && t.rows[inst.id].generation == inst.generation.value
    && t.rows[inst.id].active == inst.operation
    && inst.operation.value in t.ops
    && t.ops[inst.operation.value].env == inst.id
    && t.ops[inst.operation.value].generation == inst.generation.value
    && Unfinished(t.ops[inst.operation.value])
  }

  function CompleteOperation(t: Tables, inst: Environment, succeeded: bool): (Tables, Environment, bool) {
    if !Current(t, inst) then (t, inst, false)
    else
      var t1 := Upsert(t, inst);
      var op := inst.operation.value;
      var t2 := t1.(ops := t1.ops[op := t1.ops[op].(state := if succeeded then Succeeded else Failed)],
                    rows := t1.rows[inst.id := t1.rows[inst.id].(active := None)]);
      (t2, inst.(operation := None), true)
  }

  function Delete(t: Tables, id: string): Tables {
    if id !in t.rows then t
    else
      var t1 := DropLeases(DropEnv(t, id), id);
      t1.(rows := t1.rows[id := t1.rows[id].(status := Destroyed, destroyedAt := true)])
  }

  datatype ExposeOutcome = Exposed | Conflict | NoRow

  /** Lease the label and write the exposure in one transaction. The second conflict is the
      unique constraint on exposure labels, which the lease makes unreachable. */
  function SetExposure(t: Tables, id: string, name: string, exposure: Exposure): (Tables, ExposeOutcome) {
    if id !in t.rows then (t, NoRow)
    else if name in t.leases && t.leases[name] != id then (t, Conflict)
    else if name in t.exposures && t.exposures[name].env != id then (t, Conflict)
    else (t.(leases := t.leases[name := id], exposures := t.exposures[name := ExposureRow(id, exposure)]), Exposed)
  }

  datatype RemoveOutcome = Removed | NotExposed | NoSuchRow

  /** The environment's own id stays leased even without a route. */
  function RemoveExposure(t: Tables, id: string, name: string): (Tables, RemoveOutcome) {
    if id !in t.rows then (t, NoSuchRow)
    else if name !in t.exposures || t.exposures[name].env != id then (t, NotExposed)
    else
      var t1 := t.(exposures := t.exposures - {name});
      (if name != id && name in t.leases && t.leases[name] == id then t1.(leases := t.leases - {name}) else t1, Removed)
  }

  function Grant(t: Tables, id: string, principal: string): Tables {
    if id in t.rows then t.(grants := t.grants + {(id, principal)}) else t
  }

  function Revoke(t: Tables, id: string, principal: string): (Tables, bool) {
    (t.(grants := t.grants - {(id, principal)}), (id, principal) in t.grants)
  }
}
