/** The quota bound of `Fence` is tight: every quota, every number of deletions in flight and every
    number of unfenced writes have a run that reaches their sum. */
module Quota {
  import opened Wrappers
  import opened Model
  import opened Tables
  import opened Fence

  /** As many names as one likes. */
  function Name(n: nat): string { seq(n + 1, _ => 'a') }

  function Fresh(owner: string, n: nat): Environment {
    Environment(Name(n), ArgsKey("", map[]), "", owner, Creating, None, None, "", 0, None, {}, map[], None, None)
  }

  /** The `n`th name is reserved by one call and read by another. */
  function Reserver(n: nat): nat { 2 * n }
  function Reader(n: nat): nat { 2 * n + 1 }

  /** A call holds the ready record of the `n`th name, destroyed at rest since. */
  ghost predicate Waiting(s: System, owner: string, n: nat) {
    && Reader(n) in s.hands && s.hands[Reader(n)].Exposing?
    && s.hands[Reader(n)].inst.id == Name(n) && s.hands[Reader(n)].inst.owner == owner
    && s.hands[Reader(n)].inst.status.Ready?
    && Name(n) in s.t.rows && s.t.rows[Name(n)].status.Destroyed? && s.t.rows[Name(n)].active.None?
  }

  /** Names from the `names`th on are unused; `active` rows of the owner count, `revivable` ones
      have an operation open, and calls wait with the names from `first` to `last`. */
  datatype Stage = Stage(names: nat, active: nat, revivable: nat, first: nat, last: nat)

  ghost predicate AllWaiting(s: System, owner: string, first: nat, last: nat) {
    forall n :: first <= n < last ==> Waiting(s, owner, n)
  }

  ghost predicate Unused(s: System, names: nat) {
    && (forall id :: id in s.t.rows ==> |id| <= names)
    && (forall l :: l in s.t.leases ==> s.t.leases[l] == l)
    && (forall c :: c in s.hands ==> c < Reserver(names))
  }

  ghost predicate Staged(s: System, owner: string, g: Stage) {
    && Inv(s) && Unused(s, g.names) && AllWaiting(s, owner, g.first, g.last)
    && CountActive(s.t, owner) == g.active && |Revivable(s, owner)| == g.revivable
  }

  // ---- what one step does to a stage ----

  lemma StillWaiting(s: System, step: Step, owner: string, first: nat, last: nat)
    requires Inv(s) && AllWaiting(s, owner, first, last) && !step.DoEnd?
    requires forall n :: first <= n < last ==> Target(s, step) != Name(n)
    ensures AllWaiting(Next(s, step), owner, first, last)
  {
    hide Inv, Reserve, BeginOperation, CompleteOperation, Upsert, Delete, SetExposure, RemoveExposure, CountActive;
    OneRowMoves(s, step);
    forall n | first <= n < last ensures Waiting(Next(s, step), owner, n) {
      assert Waiting(s, owner, n);
    }
  }

  /** A step that takes no new name and leaves the waiting calls alone. */
  lemma Stays(s: System, step: Step, owner: string, g: Stage, first: nat)
    requires Staged(s, owner, g) && g.first <= first && !step.DoReserve? && !step.DoEnd?
    requires !step.DoExpose? && (step.DoRead? ==> step.call < Reserver(g.names))
    requires forall n :: first <= n < g.last ==> Target(s, step) != Name(n)
    ensures var s' := Next(s, step);
      Inv(s') && Unused(s', g.names) && AllWaiting(s', owner, first, g.last)
  {
    hide Inv, AllWaiting, CountActive;
    StepKeeps(s, step);
    assert AllWaiting(s, owner, first, g.last) by { FewerWaiting(s, owner, g.first, first, g.last); }
    StillWaiting(s, step, owner, first, g.last);
    UnusedStays(s, step, g.names);
  }

  lemma FewerWaiting(s: System, owner: string, first: nat, first': nat, last: nat)
    requires AllWaiting(s, owner, first, last) && first <= first'
    ensures AllWaiting(s, owner, first', last)
  {
  }

  lemma UnusedStays(s: System, step: Step, names: nat)
    requires Inv(s) && Unused(s, names) && !step.DoReserve? && !step.DoEnd? && !step.DoExpose?
    requires step.DoRead? ==> step.call < Reserver(names)
    ensures Unused(Next(s, step), names)
  {
    hide Inv, BeginOperation, CompleteOperation, Upsert, CountActive;
    OneRowMoves(s, step);
    LeasesStay(s, step);
  }

  lemma LeasesStay(s: System, step: Step)
    requires Inv(s) && !step.DoReserve? && !step.DoExpose?
    ensures forall l :: l in Next(s, step).t.leases ==> l in s.t.leases && Next(s, step).t.leases[l] == s.t.leases[l]
  {
    hide BeginOperation, CompleteOperation, Upsert, OpsInv, NamesInv, TicketsInv;
    match step
    case DoBegin(id, kind, expected, transitional) => BeginShape(s.t, id, kind, expected, transitional);
    case DoComplete(k, finish) =>
      if Allowed(s, step) {
        CompleteShape(s.t, Finished(k, finish), finish.succeeded);
      }
    case DoRewrite(call, edit) =>
      if Allowed(s, step) {
        UpsertShape(s.t, Rewritten(s.hands[call], edit));
      }
    case _ =>
  }

  lemma Reserving(s: System, owner: string, q: nat, g: Stage) returns (k: Environment)
    requires Staged(s, owner, g) && g.active < q
    ensures var s' := Next(s, DoReserve(Reserver(g.names), Fresh(owner, g.names), Some(q)));
      && Staged(s', owner, g.(names := g.names + 1, active := g.active + 1))
      && Reader(g.names) !in s'.hands
      && k in s'.tickets && Current(s'.t, k) && k.id == Name(g.names) && k.owner == owner
      && s'.t.rows[k.id].owner == owner && s'.t.rows[k.id].status.Creating?
  {
    hide Inv, AllWaiting, CountActive, ActiveIds, Revivable, Reserve;
    var inst, step := Fresh(owner, g.names), DoReserve(Reserver(g.names), Fresh(owner, g.names), Some(q));
    FreshName(s, g.names);
    Reservable(s.t, inst, q);
    ReserveShape(s.t, inst, Some(q));
    StepKeeps(s, step);
    WaitingNames(s, owner, g);
    StillWaiting(s, step, owner, g.first, g.last);
    RowMoves(s, step, owner);
    k := Reserve(s.t, inst, Some(q)).1.inst;
    NewlyCounted(s, Next(s, step), inst.id, owner);
  }

  lemma FreshName(s: System, names: nat)
    requires Inv(s) && Unused(s, names)
    ensures |Name(names)| == names + 1 && Name(names) !in s.t.rows && Name(names) !in s.t.leases
  {
  }

  lemma WaitingNames(s: System, owner: string, g: Stage)
    requires Unused(s, g.names) && AllWaiting(s, owner, g.first, g.last)
    ensures forall n :: g.first <= n < g.last ==> Name(g.names) != Name(n)
  {
    forall n | g.first <= n < g.last ensures Name(g.names) != Name(n) {
      assert Waiting(s, owner, n);
      assert |Name(g.names)| == g.names + 1;
    }
  }

  lemma NewlyCounted(s: System, s': System, id: string, owner: string)
    requires id !in s.t.rows && id in s'.t.rows
    requires s'.t.rows[id].owner == owner && !Dead(s'.t.rows[id].status)
    ensures id !in ActiveIds(s.t, owner) && id !in Revivable(s, owner)
    ensures id in ActiveIds(s'.t, owner) && id !in Revivable(s', owner)
  {
  }

  lemma Reservable(t: Tables, inst: Environment, q: nat)
    requires inst.id !in t.rows && inst.id !in t.leases && CountActive(t, inst.owner) < q
    ensures Reserve(t, inst, Some(q)).1.Reserved?
  {
    hide CountActive;
  }

  /** Complete an operation whose row counts: it still does. */
  lemma Settling(s: System, owner: string, g: Stage, k: Environment)
    requires Staged(s, owner, g) && k in s.tickets && Current(s.t, k) && k.owner == owner
    requires s.t.rows[k.id].owner == owner && !Dead(s.t.rows[k.id].status)
    ensures var s' := Next(s, DoComplete(k, READY));
      && Staged(s', owner, g)
      && k.id in s'.t.rows && s'.t.rows[k.id].owner == owner
      && s'.t.rows[k.id].status.Ready? && s'.t.rows[k.id].active.None?
  {
    hide Inv, CountActive, CompleteOperation;
    var step := DoComplete(k, READY);
    OpenNames(s, owner, g, k.id);
    Stays(s, step, owner, g, g.first);
    RowMoves(s, step, owner);
    CompleteShape(s.t, Finished(k, READY), true);
  }

  /** A row with an operation open is nobody's to wait with. */
  lemma OpenNames(s: System, owner: string, g: Stage, id: string)
    requires AllWaiting(s, owner, g.first, g.last) && id in s.t.rows && s.t.rows[id].active.Some?
    ensures forall n :: g.first <= n < g.last ==> id != Name(n)
  {
    forall n | g.first <= n < g.last ensures id != Name(n) {
      assert Waiting(s, owner, n);
    }
  }

  /** Read a ready row to publish it, then delete it at rest: the call waits with its record. */
  lemma Stashing(s: System, owner: string, g: Stage)
    requires Staged(s, owner, g) && g.names == g.last + 1 && g.first <= g.last && Reader(g.last) !in s.hands
    requires Name(g.last) in s.t.rows && s.t.rows[Name(g.last)].owner == owner
    requires s.t.rows[Name(g.last)].status.Ready? && s.t.rows[Name(g.last)].active.None?
    ensures var s1 := Next(s, DoRead(Reader(g.last), Name(g.last), false));
      && !HitsOpenOperation(s1.t, DoDelete(Name(g.last)), owner)
      && g.active > 0
      && Staged(Next(s1, DoDelete(Name(g.last))), owner, g.(active := g.active - 1, last := g.last + 1))
  {
    hide Inv, CountActive, AllWaiting;
    var id := Name(g.last);
    var read, delete := DoRead(Reader(g.last), id, false), DoDelete(id);
    var s1 := Next(s, read);
    OtherNames(g);
    Stays(s, read, owner, g, g.first);
    RowMoves(s, read, owner);
    var s2 := Next(s1, delete);
    Stays(s1, delete, owner, g, g.first);
    RowMoves(s1, delete, owner);
    DeleteShape(s1.t, id);
    assert AllWaiting(s2, owner, g.first, g.last + 1) by {
      assert Waiting(s2, owner, g.last);
      OneMoreWaiting(s2, owner, g.first, g.last);
    }
    assert id in ActiveIds(s1.t, owner);
    assert CountActive(s1.t, owner) > 0 by { Nonempty(s1.t, owner, id); }
  }

  lemma OneMoreWaiting(s: System, owner: string, first: nat, last: nat)
    requires AllWaiting(s, owner, first, last) && Waiting(s, owner, last)
    ensures AllWaiting(s, owner, first, last + 1)
  {
  }

  lemma Nonempty(t: Tables, owner: string, id: string)
    requires id in ActiveIds(t, owner)
    ensures CountActive(t, owner) > 0
  {
  }

  lemma OtherNames(g: Stage)
    ensures forall n :: g.first <= n < g.last ==> Name(g.last) != Name(n)
  {
    forall n | g.first <= n < g.last ensures Name(g.last) != Name(n) {
      assert |Name(g.last)| == g.last + 1 && |Name(n)| == n + 1;
    }
  }

  /** Delete a row that counts while its operation is open. */
  lemma Deleting(s: System, owner: string, g: Stage, k: Environment)
    requires Staged(s, owner, g) && k in s.tickets && Current(s.t, k) && k.owner == owner
    requires s.t.rows[k.id].owner == owner && !Dead(s.t.rows[k.id].status)
    ensures HitsOpenOperation(s.t, DoDelete(k.id), owner)
    ensures g.active > 0
      && Staged(Next(s, DoDelete(k.id)), owner, g.(active := g.active - 1, revivable := g.revivable + 1))
  {
    hide Inv, CountActive;
    var step, s' := DoDelete(k.id), Next(s, DoDelete(k.id));
    OpenNames(s, owner, g, k.id);
    Stays(s, step, owner, g, g.first);
    RowMoves(s, step, owner);
    DeleteShape(s.t, k.id);
    Nonempty(s.t, owner, k.id);
    assert Owned(s', k.id, owner);
  }

  /** The worker that a delete interrupted completes. */
  lemma Reviving(s: System, owner: string, g: Stage) returns (step: Step)
    requires Staged(s, owner, g) && g.revivable > 0
    ensures step.DoComplete?
    ensures Staged(Next(s, step), owner, g.(active := g.active + 1, revivable := g.revivable - 1))
  {
    hide Inv, CountActive, CompleteOperation;
    assert Revivable(s, owner) != {};
    var id :| id in Revivable(s, owner);
    var k := Interrupted(s, owner, id);
    step := DoComplete(k, READY);
    OpenNames(s, owner, g, k.id);
    Stays(s, step, owner, g, g.first);
    RowMoves(s, step, owner);
    CompleteShape(s.t, Finished(k, READY), true);
  }

  lemma Interrupted(s: System, owner: string, id: string) returns (k: Environment)
    requires Inv(s) && id in Revivable(s, owner)
    ensures k in s.tickets && k.id == id && k.owner == owner && Current(s.t, k)
  {
    hide NamesInv, HandsInv, OpenIsActive, Exclusive;
    k :| k in s.tickets && k.id == id && k.operation == s.t.rows[id].active && k.owner == owner;
    assert Held(s, id);
  }

  /** A waiting call writes its record back. */
  lemma Returning(s: System, owner: string, g: Stage)
    requires Staged(s, owner, g) && g.first < g.last
    ensures Shifts(s, DoRewrite(Reader(g.first), Edit(None, None, "")), owner)
    ensures Staged(Next(s, DoRewrite(Reader(g.first), Edit(None, None, ""))), owner,
                   g.(active := g.active + 1, first := g.first + 1))
  {
    hide Inv, CountActive, Upsert;
    var step := DoRewrite(Reader(g.first), Edit(None, None, ""));
    assert Waiting(s, owner, g.first);
    LaterNames(g);
    Stays(s, step, owner, g, g.first + 1);
    RowMoves(s, step, owner);
    UpsertShape(s.t, Rewritten(s.hands[Reader(g.first)], step.edit));
  }

  lemma LaterNames(g: Stage)
    ensures forall n :: g.first + 1 <= n < g.last ==> Name(g.first) != Name(n)
  {
    forall n | g.first + 1 <= n < g.last ensures Name(g.first) != Name(n) {
      assert |Name(g.first)| == g.first + 1 && |Name(n)| == n + 1;
    }
  }

  // ---- runs ----

  ghost predicate Reaches(steps: seq<Step>, owner: string, q: nat, g: Stage, deletes: nat, shifts: nat) {
    && ReservesUnder(steps, owner, q) && Staged(Run(INIT, steps), owner, g)
    && OutstandingDeletes(INIT, steps, owner) == deletes && UnfencedShifts(INIT, steps, owner) == shifts
  }

  lemma OneMore(steps: seq<Step>, step: Step, owner: string, q: nat)
    requires ReservesUnder(steps, owner, q) && (step.DoReserve? && step.inst.owner == owner ==> step.quota == Some(q))
    ensures ReservesUnder(steps + [step], owner, q)
    ensures Run(INIT, steps + [step]) == Next(Run(INIT, steps), step)
    ensures OutstandingDeletes(INIT, steps + [step], owner) == OutstandingDeletes(INIT, steps, owner)
      + if step.DoDelete? && HitsOpenOperation(Run(INIT, steps).t, step, owner) then 1 else 0
    ensures UnfencedShifts(INIT, steps + [step], owner) == UnfencedShifts(INIT, steps, owner)
      + if step.DoRewrite? && Shifts(Run(INIT, steps), step, owner) then 1 else 0
  {
    hide Next;
    RunSnoc(steps, step);
    assert (steps + [step])[..|steps + [step]| - 1] == steps;
  }

  lemma Nothing(owner: string, q: nat)
    ensures Reaches([], owner, q, Stage(0, 0, 0, 0, 0), 0, 0)
  {
    assert ActiveIds(INIT.t, owner) == {} && Revivable(INIT, owner) == {};
  }

  /** Reserve, complete, read and delete a name, `u` times. */
  lemma {:induction false} Stash(owner: string, q: nat, u: nat) returns (steps: seq<Step>)
    requires q >= 1
    ensures Reaches(steps, owner, q, Stage(u, 0, 0, 0, u), 0, 0)
  {
    hide Next, Run, Staged, HitsOpenOperation, OutstandingDeletes, Shifts, UnfencedShifts, ReservesUnder;
    if u == 0 {
      steps := [];
      Nothing(owner, q);
    } else {
      var n := u - 1;
      var before := Stash(owner, q, n);
      var s := Run(INIT, before);
      var reserve := DoReserve(Reserver(n), Fresh(owner, n), Some(q));
      var k := Reserving(s, owner, q, Stage(n, 0, 0, 0, n));
      var s1 := Next(s, reserve);
      Settling(s1, owner, Stage(u, 1, 0, 0, n), k);
      var s2 := Next(s1, DoComplete(k, READY));
      StillUnread(s1, DoComplete(k, READY));
      Stashing(s2, owner, Stage(u, 1, 0, 0, n));
      OneMore(before, reserve, owner, q);
      OneMore(before + [reserve], DoComplete(k, READY), owner, q);
      OneMore(before + [reserve] + [DoComplete(k, READY)], DoRead(Reader(n), Name(n), false), owner, q);
      OneMore(before + [reserve] + [DoComplete(k, READY)] + [DoRead(Reader(n), Name(n), false)], DoDelete(Name(n)),
              owner, q);
      steps := before + [reserve] + [DoComplete(k, READY)] + [DoRead(Reader(n), Name(n), false)] + [DoDelete(Name(n))];
    }
  }

  lemma StillUnread(s: System, step: Step)
    requires step.DoComplete?
    ensures Next(s, step).hands == s.hands
  {
  }

  /** Reserve a name and delete it in flight, `d` times. */
  lemma {:induction false} Prepare(owner: string, q: nat, u: nat, d: nat) returns (steps: seq<Step>)
    requires q >= 1
    ensures Reaches(steps, owner, q, Stage(u + d, 0, d, 0, u), d, 0)
  {
    hide Next, Run, Staged, HitsOpenOperation, OutstandingDeletes, Shifts, UnfencedShifts, ReservesUnder;
    if d == 0 {
      steps := Stash(owner, q, u);
    } else {
      var before := Prepare(owner, q, u, d - 1);
      var s, n := Run(INIT, before), u + d - 1;
      var reserve := DoReserve(Reserver(n), Fresh(owner, n), Some(q));
      var k := Reserving(s, owner, q, Stage(n, 0, d - 1, 0, u));
      Deleting(Next(s, reserve), owner, Stage(n + 1, 1, d - 1, 0, u), k);
      OneMore(before, reserve, owner, q);
      OneMore(before + [reserve], DoDelete(k.id), owner, q);
      steps := before + [reserve] + [DoDelete(k.id)];
    }
  }

  /** Fill the quota. */
  lemma {:induction false} Occupy(owner: string, q: nat, u: nat, d: nat, a: nat) returns (steps: seq<Step>)
    requires q >= 1 && a <= q
    ensures Reaches(steps, owner, q, Stage(u + d + a, a, d, 0, u), d, 0)
  {
    hide Next, Run, Staged, HitsOpenOperation, OutstandingDeletes, Shifts, UnfencedShifts, ReservesUnder;
    if a == 0 {
      steps := Prepare(owner, q, u, d);
    } else {
      var before := Occupy(owner, q, u, d, a - 1);
      var n := u + d + a - 1;
      var step := DoReserve(Reserver(n), Fresh(owner, n), Some(q));
      var _ := Reserving(Run(INIT, before), owner, q, Stage(n, a - 1, d, 0, u));
      OneMore(before, step, owner, q);
      steps := before + [step];
    }
  }

  /** Let the interrupted workers complete. */
  lemma {:induction false} Revive(owner: string, q: nat, u: nat, d: nat, r: nat) returns (steps: seq<Step>)
    requires q >= 1 && r <= d
    ensures Reaches(steps, owner, q, Stage(u + d + q, q + r, d - r, 0, u), d, 0)
  {
    hide Next, Run, Staged, HitsOpenOperation, OutstandingDeletes, Shifts, UnfencedShifts, ReservesUnder;
    if r == 0 {
      steps := Occupy(owner, q, u, d, q);
    } else {
      var before := Revive(owner, q, u, d, r - 1);
      var step := Reviving(Run(INIT, before), owner, Stage(u + d + q, q + r - 1, d - r + 1, 0, u));
      OneMore(before, step, owner, q);
      steps := before + [step];
    }
  }

  /** Let the waiting calls write their records back. */
  lemma {:induction false} Return(owner: string, q: nat, u: nat, d: nat, w: nat) returns (steps: seq<Step>)
    requires q >= 1 && w <= u
    ensures Reaches(steps, owner, q, Stage(u + d + q, q + d + w, 0, w, u), d, w)
  {
    hide Next, Run, Staged, HitsOpenOperation, OutstandingDeletes, Shifts, UnfencedShifts, ReservesUnder;
    if w == 0 {
      steps := Revive(owner, q, u, d, d);
    } else {
      var before := Return(owner, q, u, d, w - 1);
      var step := DoRewrite(Reader(w - 1), Edit(None, None, ""));
      Returning(Run(INIT, before), owner, Stage(u + d + q, q + d + w - 1, 0, w - 1, u));
      OneMore(before, step, owner, q);
      steps := before + [step];
    }
  }

  /** For every quota of at least one, some run that reserves under it, deletes `d` environments in
      flight and lets `u` unfenced writes bring a row back leaves exactly their sum active. */
  lemma QuotaIsTight(owner: string, q: nat, d: nat, u: nat) returns (steps: seq<Step>)
    requires q >= 1
    ensures ReservesUnder(steps, owner, q)
    ensures OutstandingDeletes(INIT, steps, owner) == d && UnfencedShifts(INIT, steps, owner) == u
    ensures CountActive(Run(INIT, steps).t, owner) == q + d + u
  {
    hide Run, OutstandingDeletes, UnfencedShifts, ReservesUnder;
    steps := Return(owner, q, u, d, u);
  }
}
