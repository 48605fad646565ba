/** The Django state store (store.py), one method per database transaction. Each is proved to
    do to the tables exactly what its function in `Tables` says. */
module StateStore {
  import opened Wrappers
  import opened Model
  import opened Strings
  import opened Tables
  import T = Tables

  // ---- the newest match ----

  /** First in `order_by("-created_at")`; of equal timestamps the least id. */
  predicate NewerFirst(t: Tables, a: string, b: string)
    requires a in t.rows && b in t.rows
  {
    t.rows[a].createdAt > t.rows[b].createdAt || (t.rows[a].createdAt == t.rows[b].createdAt && Le(a, b))
  }

  ghost predicate IsNewest(t: Tables, key: ArgsKey, owner: string, id: string) {
    Matches(t, key, owner, id) && forall other :: Matches(t, key, owner, other) ==> NewerFirst(t, id, other)
  }

  ghost function Latest(t: Tables, key: ArgsKey, owner: string): Option<Environment> {
    if id :| IsNewest(t, key, owner, id) then Some(ToEnvironment(t, id)) else None
  }

  lemma NewestIsUnique(t: Tables, key: ArgsKey, owner: string, a: string, b: string)
    requires IsNewest(t, key, owner, a) && IsNewest(t, key, owner, b)
    ensures a == b
  {
    assert NewerFirst(t, a, b) && NewerFirst(t, b, a);
    LeAntisymmetric(a, b);
  }

  lemma LatestIs(t: Tables, key: ArgsKey, owner: string, id: string)
    requires IsNewest(t, key, owner, id)
    ensures Latest(t, key, owner) == Some(ToEnvironment(t, id))
  {
    var other :| IsNewest(t, key, owner, other) && Latest(t, key, owner) == Some(ToEnvironment(t, other));
    NewestIsUnique(t, key, owner, id, other);
  }

  /** `find` comes back empty only when nothing matches. */
  lemma LatestMisses(t: Tables, key: ArgsKey, owner: string)
    ensures Latest(t, key, owner).None? <==> forall id :: !Matches(t, key, owner, id)
  {
    var found := set id | id in t.rows && Matches(t, key, owner, id);
    if id :| Matches(t, key, owner, id) {
      assert id in found;
      var m := Newest(t, found);
      assert IsNewest(t, key, owner, m);
    }
  }

  /** Rows have a first one. */
  lemma {:induction false} Newest(t: Tables, ids: set<string>) returns (m: string)
    requires ids != {} && ids <= t.rows.Keys
    ensures m in ids && forall k :: k in ids ==> NewerFirst(t, m, k)
  {
    var x :| x in ids;
    LeTotal(x, x);
    if ids == {x} {
      return x;
    }
    var n := Newest(t, ids - {x});
    LeTotal(x, n);
    m := if NewerFirst(t, x, n) then x else n;
    forall k | k in ids ensures NewerFirst(t, m, k) {
      if k != x {
        FirstIsTransitive(t, m, n, k);
      }
    }
  }

  lemma FirstIsTransitive(t: Tables, a: string, b: string, c: string)
    requires a in t.rows && b in t.rows && c in t.rows && NewerFirst(t, a, b) && NewerFirst(t, b, c)
    ensures NewerFirst(t, a, c)
  {
    if Le(a, b) && Le(b, c) {
      LeTransitive(a, b, c);
    }
  }

  lemma NoneCounted(t: Tables, owner: string)
    ensures T.ActiveIds(t, owner) - t.rows.Keys == {}
  {
  }

  lemma OneCounted(t: Tables, owner: string, rest: set<string>, id: string)
    requires id in rest && id in t.rows
    ensures |T.ActiveIds(t, owner) - (rest - {id})| == |T.ActiveIds(t, owner) - rest|
      + if t.rows[id].owner == owner && !Dead(t.rows[id].status) then 1 else 0
  {
    var active := id in T.ActiveIds(t, owner);
    assert T.ActiveIds(t, owner) - (rest - {id}) == (T.ActiveIds(t, owner) - rest) + if active then {id} else {};
  }

  lemma UpsertHasRow(t: Tables, inst: Environment)
    ensures inst.id in T.Upsert(t, inst).rows
  {
  }

  // ---- the store ----

  class DjangoStateStore {
    var rows: map<string, Row>
    var operations: map<nat, Operation>
    var leases: map<string, string>
    var exposures: map<string, ExposureRow>
    var grants: set<(string, string)>
    var supply: nat

    function View(): Tables
      reads this
    {
      Tables(rows, operations, leases, exposures, grants, supply)
    }

    constructor ()
      ensures View() == EMPTY
    {
      rows, operations, leases, exposures, grants, supply := map[], map[], map[], map[], {}, 0;
    }

    /** What an aborted transaction leaves. */
    method Rollback(savepoint: Tables)
      modifies this
      ensures View() == savepoint
    {
      rows, operations, leases := savepoint.rows, savepoint.ops, savepoint.leases;
      exposures, grants, supply := savepoint.exposures, savepoint.grants, savepoint.supply;
    }

    /** A UUID: never handed out before. */
    method NewId() returns (id: nat)
      modifies this`supply
      ensures id == old(supply) && supply == id + 1
    {
      id := supply;
      supply := supply + 1;
    }

    method Upsert(inst: Environment)
      modifies this
      ensures View() == T.Upsert(old(View()), inst)
    {
      var creating := inst.id !in rows || (Dead(rows[inst.id].status) && inst.status.Creating?);
      if creating {
        if inst.id in rows {
          grants := set g | g in grants && g.0 != inst.id;
          exposures := map n | n in exposures && exposures[n].env != inst.id :: exposures[n];
        }
        var generation := NewId();
        rows := rows[inst.id := NewRow(inst, generation)];
      } else {
        rows := rows[inst.id := Write(rows[inst.id], inst)];
      }
    }

    method DropLeases(id: string)
      modifies this
      ensures View() == T.DropLeases(old(View()), id)
    {
      leases := map n | n in leases && leases[n] != id :: leases[n];
    }

    method CountActive(owner: string) returns (n: nat)
      ensures n == T.CountActive(View(), owner)
    {
      hide T.ActiveIds;
      n := 0;
      NoneCounted(View(), owner);
      var rest := rows.Keys;
      while rest != {}
        invariant rest <= rows.Keys
        invariant n == |T.ActiveIds(View(), owner) - rest|
        decreases rest
      {
        var id :| id in rest;
        OneCounted(View(), owner, rest, id);
        rest := rest - {id};
        if rows[id].owner == owner && !Dead(rows[id].status) {
          n := n + 1;
        }
      }
      assert T.ActiveIds(View(), owner) - {} == T.ActiveIds(View(), owner);
    }

    /** The row is written and the lease taken together, or the transaction rolls back. */
    method Reserve(inst: Environment, quota: Option<nat>) returns (r: ReserveOutcome)
      modifies this
      ensures (View(), r) == T.Reserve(old(View()), inst, quota)
    {
      hide T.Upsert, T.DropLeases, T.CountActive;
      var savepoint := View();
      if quota.Some? {
        var active := CountActive(inst.owner);
        if active >= quota.value {
          return QuotaExceeded;
        }
      }
      if inst.id in rows {
        if !Dead(rows[inst.id].status) {
          return NameTaken;
        }
        DropLeases(inst.id);
      }
      UpsertHasRow(View(), inst);
      Upsert(inst);
      var row := rows[inst.id];
      var op := NewId();
      operations := operations[op := Operation(inst.id, row.generation, Provision, Queued)];
      rows := rows[inst.id := row.(active := Some(op))];
      if inst.id in leases {
        Rollback(savepoint);
        return NameTaken;
      }
      leases := leases[inst.id := inst.id];
      return Reserved(inst.(generation := Some(row.generation), operation := Some(op)));
    }

    method BeginOperation(id: string, kind: Kind, expected: set<Status>, transitional: Status)
      returns (r: Option<Environment>)
      modifies this
      ensures (View(), r) == T.BeginOperation(old(View()), id, kind, expected, transitional)
    {
      if id !in rows || rows[id].active.Some? {
        return None;
      }
      if rows[id].status !in expected {
        return None;
      }
      var op := NewId();
      operations := operations[op := Operation(id, rows[id].generation, kind, Queued)];
      rows := rows[id := rows[id].(status := transitional, active := Some(op))];
      ghost var begun := T.BeginOperation(old(View()), id, kind, expected, transitional).0;
      assert rows == begun.rows;
      return Some(ToEnvironment(View(), id));
    }

    method CompleteOperation(inst: Environment, succeeded: bool) returns (r: Environment, done: bool)
      modifies this
      ensures (View(), r, done) == T.CompleteOperation(old(View()), inst, succeeded)
    {
      if inst.operation.None? || inst.generation.None? {
        return inst, false;
      }
      if inst.id !in rows || rows[inst.id].generation != inst.generation.value
         || rows[inst.id].active != inst.operation
      {
        return inst, false;
      }
      var op := inst.operation.value;
      if op !in operations || operations[op].env != inst.id || operations[op].generation != inst.generation.value
         || !Unfinished(operations[op])
      {
        return inst, false;
      }
      Upsert(inst);
      operations := operations[op := operations[op].(state := if succeeded then Succeeded else Failed)];
      rows := rows[inst.id := rows[inst.id].(active := None)];
      return inst.(operation := None), true;
    }

    method Get(id: string) returns (r: Option<Environment>)
      ensures r == T.Get(View(), id)
    {
      r := if id in rows then Some(ToEnvironment(View(), id)) else None;
    }

    /** The newest environment of this owner that runs this template with these arguments. */
    method Find(key: ArgsKey, owner: string) returns (r: Option<Environment>)
      ensures r == Latest(View(), key, owner)
    {
      var found: Option<string> := None;
      var rest := rows.Keys;
      while rest != {}
        invariant rest <= rows.Keys
        invariant found.None? ==> forall k :: Matches(View(), key, owner, k) ==> k in rest
        invariant found.Some? ==> Matches(View(), key, owner, found.value)
        invariant found.Some? ==>
          forall k :: Matches(View(), key, owner, k) && k !in rest ==> NewerFirst(View(), found.value, k)
        decreases rest
      {
        var id :| id in rest;
        rest := rest - {id};
        if Matches(View(), key, owner, id) {
          LeTotal(id, id);
          if found.None? {
            found := Some(id);
          } else {
            LeTotal(id, found.value);
            if NewerFirst(View(), id, found.value) {
              forall k | Matches(View(), key, owner, k) && k !in rest ensures NewerFirst(View(), id, k) {
                if k != id {
                  FirstIsTransitive(View(), id, found.value, k);
                }
              }
              found := Some(id);
            }
          }
        }
      }
      if found.None? {
        LatestMisses(View(), key, owner);
        return None;
      }
      LatestIs(View(), key, owner, found.value);
      return Some(ToEnvironment(View(), found.value));
    }

    /** The rows past their expiry, each once, in whatever order the database lists them. */
    method Expired(now: int) returns (ids: seq<string>)
      ensures Lists(ids, T.Expired(View(), now))
    {
      ids := [];
      var rest := rows.Keys;
      while rest != {}
        invariant rest <= rows.Keys
        invariant Lists(ids, T.Expired(View(), now) - rest)
        decreases rest
      {
        var id :| id in rest;
        rest := rest - {id};
        if !rows[id].status.Destroyed? && rows[id].expiresAt.Some? && rows[id].expiresAt.value <= now {
          assert id !in ids by { assert id in ids ==> id in (set k | k in ids); }
          assert (set k | k in ids + [id]) == (set k | k in ids) + {id};
          ids := ids + [id];
        }
      }
      assert T.Expired(View(), now) - {} == T.Expired(View(), now);
    }

    method Grant(id: string, principal: string)
      modifies this
      ensures View() == T.Grant(old(View()), id, principal)
    {
      if id in rows {
        grants := grants + {(id, principal)};
      }
    }

    method Revoke(id: string, principal: string) returns (deleted: bool)
      modifies this
      ensures (View(), deleted) == T.Revoke(old(View()), id, principal)
    {
      deleted := (id, principal) in grants;
      grants := grants - {(id, principal)};
    }

    method FindExposure(name: string) returns (r: Option<string>)
      ensures r == T.FindExposure(View(), name)
    {
      if name in exposures && exposures[name].env in rows && !rows[exposures[name].env].status.Destroyed? {
        return Some(exposures[name].env);
      }
      return None;
    }

    method SetExposure(id: string, name: string, exposure: Exposure) returns (r: ExposeOutcome)
      modifies this
      ensures (View(), r) == T.SetExposure(old(View()), id, name, exposure)
    {
      var savepoint := View();
      if id !in rows {
        return NoRow;
      }
      if name !in leases {
        leases := leases[name := id];
      }
      if leases[name] != id {
        Rollback(savepoint);
        return Conflict;
      }
      if name in exposures && exposures[name].env != id {
        Rollback(savepoint);
        return Conflict;
      }
      exposures := exposures[name := ExposureRow(id, exposure)];
      assert leases == savepoint.leases[name := id];
      return Exposed;
    }

    method RemoveExposure(id: string, name: string) returns (r: RemoveOutcome)
      modifies this
      ensures (View(), r) == T.RemoveExposure(old(View()), id, name)
    {
      if id !in rows {
        return NoSuchRow;
      }
      if name !in exposures || exposures[name].env != id {
        return NotExposed;
      }
      exposures := exposures - {name};
      if name != id && name in leases && leases[name] == id {
        leases := leases - {name};
      }
      return Removed;
    }

    method Delete(id: string)
      modifies this
      ensures View() == T.Delete(old(View()), id)
    {
      if id in rows {
        grants := set g | g in grants && g.0 != id;
        exposures := map n | n in exposures && exposures[n].env != id :: exposures[n];
        DropLeases(id);
        rows := rows[id := rows[id].(status := Destroyed, destroyedAt := true)];
      }
    }
  }
}
