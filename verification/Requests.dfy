/** What an `up` does with a request, told from the request and the rows: what it refuses, hands back
    or reserves, under which quota, and what it leaves; and what runs of calls make of the quota. */
module Requests {
  import opened Wrappers
  import opened Model
  import opened Tables
  import opened Config
  import opened Control
  import opened Courses
  import opened Frames
  import opened Outcomes
  import Access
  import Backing
  import Fence
  import Naming
  import Params
  import StateStore
  import Strings
  import Ttl

  // ---- the course of a request ----

  /** Whom the environment is for: the actor, or whoever the request names. */
  function For(actor: Principal, req: UpRequest): string {
    if req.onBehalfOf == "" then actor.id else req.onBehalfOf
  }

  /** The owner's environments of a template and arguments, unless destroyed. */
  function Alike(t: Tables, template: string, args: map<string, string>, owner: string): set<string> {
    set k | k in t.rows && t.rows[k].key.template == template && t.rows[k].key.args == args
            && t.rows[k].owner == owner && t.rows[k].status != Destroyed
  }

  /** The last of them to be created, the least id among equals. */
  ghost predicate LastCreated(t: Tables, found: set<string>, k: string) {
    && k in found && k in t.rows
    && forall m :: m in found && m in t.rows && m != k ==>
         t.rows[m].createdAt < t.rows[k].createdAt
         || (t.rows[m].createdAt == t.rows[k].createdAt && Strings.Le(k, m))
  }

  /** A named environment: taken if its label is, made if no live row has it, and otherwise handed back
      to an admin, its owner or a grantee who asks for reuse. */
  lemma NamedCourse(cfg: Settings, t: Tables, actor: Principal, req: UpRequest)
    requires req.name.Some?
    ensures var course, owner := CourseOf(cfg, t, actor, req), For(actor, req);
      var args, id := Params.Resolve(req.template.params, req.args), Naming.ValidateName(req.name.value);
      if owner != actor.id && !actor.admin then course == Refuse(PermissionDenied)
      else if args == None then course == Refuse(BadArguments)
      else if id == None then course == Refuse(InvalidName)
      else if !Free(cfg, t, id.value, id.value) then course == Refuse(NameConflict)
      else if id.value !in t.rows || t.rows[id.value].status == Destroyed || t.rows[id.value].status == Errored then
        course == Make(owner, ArgsKey(req.template.name, args.value), id)
      else if !req.reuse then course == Refuse(NameConflict)
      else if !actor.admin && t.rows[id.value].owner != actor.id && (id.value, actor.id) !in t.grants then
        course == Refuse(PermissionDenied)
      else course == HandBack(ToEnvironment(t, id.value))
  {
    hide LabelFree, Free, Params.Resolve, ExposuresOf, Naming.ValidateName, StateStore.Latest;
    var id := Naming.ValidateName(req.name.value);
    if id.Some? {
      FreeIff(cfg, t, id.value, id.value);
    }
  }

  /** An unnamed one: made, unless reuse is asked for and the last alike is not in error. */
  lemma UnnamedCourse(cfg: Settings, t: Tables, actor: Principal, req: UpRequest)
    requires req.name.None?
    ensures var course, owner := CourseOf(cfg, t, actor, req), For(actor, req);
      var args := Params.Resolve(req.template.params, req.args);
      if owner != actor.id && !actor.admin then course == Refuse(PermissionDenied)
      else if args == None then course == Refuse(BadArguments)
      else
        var made := Make(owner, ArgsKey(req.template.name, args.value), None);
        var found := Alike(t, req.template.name, args.value, owner);
        if !req.reuse || found == {} then course == made
        else
          exists k :: LastCreated(t, found, k)
                      && course == if t.rows[k].status == Errored then made else HandBack(ToEnvironment(t, k))
  {
    hide LabelFree, Params.Resolve, GrantsOf, ExposuresOf, Naming.ValidateName, StateStore.Latest, LastCreated;
    var owner, args := For(actor, req), Params.Resolve(req.template.params, req.args);
    if args.Some? {
      var key := ArgsKey(req.template.name, args.value);
      StateStore.LatestMisses(t, key, owner);
      var found := Alike(t, req.template.name, args.value, owner);
      assert forall k :: k in found <==> Matches(t, key, owner, k);
      if found != {} {
        var k := LatestIsLast(t, key, owner, found);
      }
    }
  }

  lemma LatestIsLast(t: Tables, key: ArgsKey, owner: string, found: set<string>) returns (k: string)
    requires found != {} && forall k :: k in found <==> Matches(t, key, owner, k)
    ensures LastCreated(t, found, k) && StateStore.Latest(t, key, owner) == Some(ToEnvironment(t, k))
  {
    hide ToEnvironment;
    var x :| x in found;
    StateStore.LatestMisses(t, key, owner);
    k :| StateStore.IsNewest(t, key, owner, k) && StateStore.Latest(t, key, owner) == Some(ToEnvironment(t, k));
    assert Matches(t, key, owner, k);
    forall m | m in found && m in t.rows && m != k
      ensures t.rows[m].createdAt < t.rows[k].createdAt
        || (t.rows[m].createdAt == t.rows[k].createdAt && Strings.Le(k, m))
    {
      assert Matches(t, key, owner, m);
    }
  }

  // ---- handing back and making ----

  /** Handing back: a stopped environment at rest is resumed, one whose teardown failed is refused, and
      any other is returned as it is. */
  lemma ReuseIs(cfg: Settings, w: World, id: string, template: TemplateConfig, ans: Answers)
    requires id in w.t.rows
    ensures Reuse(cfg, w, ToEnvironment(w.t, id), template, ans) ==
      if w.t.rows[id].status == DestroyFailed then (w, Raised(CawlFailure))
      else if w.t.rows[id].status != Stopped then (w, Returned(ToEnvironment(w.t, id)))
      else if w.t.rows[id].active.Some? then (w, Raised(CawlFailure))
      else BeginAndResume(cfg, w, id, template, ans)
  {
    hide BeginOperation, Resume, GrantsOf, ExposuresOf;
    Fence.BeginShape(w.t, id, Kind.Start, {Stopped}, Starting);
  }

  /** The row that a reservation writes for a request. */
  function NewRowFor(cfg: Settings, t: Tables, actor: Principal, req: UpRequest, args: map<string, string>,
                     expiry: Option<int>): Row
  {
    Row(ArgsKey(req.template.name, args), if req.backend == "" then cfg.defaultBackend else req.backend,
        For(actor, req), Creating, None, None, "", req.now, expiry, false, t.supply, Some(t.supply + 1))
  }

  /** The name a reservation may take: the one asked for, or one of ten generated. */
  ghost predicate NameFor(req: UpRequest, name: string) {
    if req.name.Some? then Naming.ValidateName(req.name.value) == Some(name)
    else exists n: nat :: n < 10 && name == Naming.NewEnvironmentId(req.template.name, req.tokens(n))
  }

  /** A record reserved: its name leased, its row of a new generation, under one open operation. */
  ghost predicate HasReserved(t: Tables, t1: Tables, inst: Environment, row: Row) {
    && inst.id in t1.rows && t1.rows == t.rows[inst.id := row] && Write(row, inst) == row
    && Current(t1, inst) && inst.operation == Some(t.supply + 1)
    && inst.ip == None && inst.url == None && inst.error == ""
    && t1.ops == t.ops[t.supply + 1 := Operation(inst.id, t.supply, Provision, Queued)]
    && inst.id in t1.leases && t1.leases[inst.id] == inst.id
    && forall n :: n in t1.leases && n != inst.id ==> n in t.leases && t1.leases[n] == t.leases[n]
  }

  lemma ReservationIs(cfg: Settings, t: Tables, actor: Principal, req: UpRequest)
    returns (args: map<string, string>, ttl: Option<nat>)
    requires Reservation(cfg, t, actor, req).Some?
    ensures Params.Resolve(req.template.params, req.args) == Some(args) && Registered(cfg, req.backend)
    ensures Ttl.ParseTtl(if req.ttl == None then req.template.ttl else req.ttl) == Ok(ttl)
    ensures var (t1, inst) := Reservation(cfg, t, actor, req).value;
      && NameFor(req, inst.id) && inst.key.args == args
      && HasReserved(t, t1, inst, NewRowFor(cfg, t, actor, req, args, Ttl.Expiry(req.now, ttl, req.maxTtl)))
  {
    hide CourseOf, Claim, Reserve, Params.Resolve, Ttl.ParseTtl, Ttl.Expiry, Naming.NewEnvironmentId, HasReserved;
    var Make(owner, key, id) := CourseOf(cfg, t, actor, req);
    MadeFor(cfg, t, actor, req);
    MadeOf(cfg, t, actor, req);
    MadeNamed(cfg, t, actor, req);
    args, ttl := key.args, Ttl.ParseTtl(TtlSpec(req)).value;
    var name, quota := ReservedIs(cfg, t, owner, key, req, id);
    var candidate := Candidate(cfg, owner, key, req, ttl, name);
    ReservedRow(t, candidate, quota);
    assert NewRow(candidate, t.supply).(active := Some(t.supply + 1))
      == NewRowFor(cfg, t, actor, req, args, Ttl.Expiry(req.now, ttl, req.maxTtl));
  }

  lemma ReservedRow(t: Tables, inst: Environment, quota: Option<nat>)
    requires inst.status.Creating? && inst.ip == None && inst.url == None && inst.error == ""
    requires Reserve(t, inst, quota).1.Reserved?
    ensures var (t1, r) := Reserve(t, inst, quota);
      HasReserved(t, t1, r.inst, NewRow(inst, t.supply).(active := Some(t.supply + 1))) && r.inst.key == inst.key
  {
    hide Reserve;
    Fence.ReserveShape(t, inst, quota);
  }

  /** An `up` that reserves fails on its spec, or provisions what it reserved. */
  lemma UpMakes(cfg: Settings, w: World, actor: Principal, req: UpRequest, ans: Answers)
    requires Reservation(cfg, w.t, actor, req).Some?
    ensures var (t1, inst) := Reservation(cfg, w.t, actor, req).value;
      Up(cfg, w, actor, req, ans) ==
        if ans.spec && HookRenders(req.template, inst.key.args) then
          ProvisionIt(cfg, w.(t := t1), inst, req.template.expose, ans)
        else (w.(t := t1), Raised(SpecFailed))
  {
    hide CourseOf, Reserves, ProvisionIt, Params.Resolve, HookRenders, SpecBuilds, HasReserved, NameFor;
    var args, _ := ReservationIs(cfg, w.t, actor, req);
    var Make(owner, key, id) := CourseOf(cfg, w.t, actor, req);
    var inst := Reservation(cfg, w.t, actor, req).value.1;
    MadeOf(cfg, w.t, actor, req);
    SpecIff(req.template, inst, ans);
    CreateIs(cfg, w, owner, key, req, id, ans);
    BuildsIff(req, inst, ans);
  }

  lemma MadeNamed(cfg: Settings, t: Tables, actor: Principal, req: UpRequest)
    requires CourseOf(cfg, t, actor, req).Make?
    ensures var id := CourseOf(cfg, t, actor, req).id;
      if req.name.Some? then id.Some? && id == Naming.ValidateName(req.name.value) else id.None?
  {
    hide LabelFree, Params.Resolve, GrantsOf, ExposuresOf, Naming.ValidateName, StateStore.Latest, CanView;
  }

  // ---- reserving, and the quota ----

  /** The owner's environments that are neither destroyed nor in error. */
  function Counted(t: Tables, owner: string): set<string> {
    set id | id in t.rows && t.rows[id].owner == owner && t.rows[id].status != Destroyed && t.rows[id].status != Errored
  }

  /** The request's quota, or the deployment's. */
  function QuotaOf(cfg: Settings, req: UpRequest): Option<nat> {
    if req.quota == None then cfg.defaultQuota else req.quota
  }

  predicate UsedUp(cfg: Settings, t: Tables, actor: Principal, req: UpRequest) {
    match QuotaOf(cfg, req)
    case None => false
    case Some(q) => |Counted(t, For(actor, req))| >= q
  }

  /** A live row has the name, or it is leased and not just by a dead row to itself. */
  predicate Taken(t: Tables, name: string) {
    var dead := name in t.rows && (t.rows[name].status == Destroyed || t.rows[name].status == Errored);
    (name in t.rows && !dead) || (name in t.leases && !(dead && t.leases[name] == name))
  }

  /** A reservation is refused over the quota, or for a name taken, and otherwise made. */
  lemma ReserveIs(t: Tables, inst: Environment, quota: Option<nat>)
    ensures var outcome := Reserve(t, inst, quota).1;
      if quota.Some? && |Counted(t, inst.owner)| >= quota.value then outcome.QuotaExceeded?
      else if Taken(t, inst.id) then outcome.NameTaken?
      else outcome.Reserved?
  {
    assert Counted(t, inst.owner) == ActiveIds(t, inst.owner);
  }

  /** The pinned name is free, or one of the ten generated ones. */
  ghost predicate NameFree(t: Tables, req: UpRequest, id: Option<string>) {
    if id.Some? then !Taken(t, id.value)
    else exists n: nat :: n < 10 && !Taken(t, Naming.NewEnvironmentId(req.template.name, req.tokens(n)))
  }

  lemma ClaimIs(cfg: Settings, t: Tables, actor: Principal, key: ArgsKey, req: UpRequest, ttl: Option<nat>,
                id: Option<string>)
    ensures var outcome := Claim(cfg, t, For(actor, req), key, req, ttl, id).1;
      if UsedUp(cfg, t, actor, req) then outcome.QuotaExceeded?
      else if NameFree(t, req, id) then outcome.Reserved?
      else outcome.NameTaken?
  {
    hide Reserve, ReserveAny, Ttl.Expiry, Counted, Taken, Naming.NewEnvironmentId;
    var owner, quota := For(actor, req), QuotaOf(cfg, req);
    if id.Some? {
      ReserveIs(t, Candidate(cfg, owner, key, req, ttl, id.value), quota);
    } else {
      AnyIs(t, Candidate(cfg, owner, key, req, ttl, ""), req, quota, 0);
    }
  }

  /** The tries from the `n`th on. */
  lemma {:induction false} AnyIs(t: Tables, inst: Environment, req: UpRequest, quota: Option<nat>, n: nat)
    requires n < 10
    ensures var outcome := ReserveAny(t, inst, req, quota, n).1;
      if quota.Some? && |Counted(t, inst.owner)| >= quota.value then outcome.QuotaExceeded?
      else if exists m: nat :: n <= m < 10 && !Taken(t, Naming.NewEnvironmentId(req.template.name, req.tokens(m))) then
        outcome.Reserved?
      else outcome.NameTaken?
    decreases 10 - n
  {
    hide Naming.NewEnvironmentId, Reserve, Counted, Taken;
    ReserveIs(t, inst.(id := Naming.NewEnvironmentId(req.template.name, req.tokens(n))), quota);
    if n < 9 {
      AnyIs(t, inst, req, quota, n + 1);
    } else {
      assert ReserveAny(t, inst, req, quota, 10).1.NameTaken?;
    }
  }

  /** Asked to make an environment, an `up` reserves exactly when lifetime and backend are accepted,
      the owner has quota left and a name is free, and otherwise is refused for the first of these
      that is not so, changing nothing. */
  lemma MakeIs(cfg: Settings, w: World, actor: Principal, req: UpRequest, ans: Answers)
    requires CourseOf(cfg, w.t, actor, req).Make?
    ensures var (w', outcome) := Up(cfg, w, actor, req, ans);
      var id := CourseOf(cfg, w.t, actor, req).id;
      var refused :=
        if Ttl.ParseTtl(if req.ttl == None then req.template.ttl else req.ttl).Raise? then Some(BadLifetime)
        else if !Registered(cfg, req.backend) then Some(CawlFailure)
        else if UsedUp(cfg, w.t, actor, req) then Some(QuotaExhausted)
        else if !NameFree(w.t, req, id) then Some(if req.name.Some? then NameConflict else CawlFailure)
        else None;
      && (Reservation(cfg, w.t, actor, req).Some? <==> refused.None?)
      && (refused.Some? ==> w' == w && outcome == Raised(refused.value))
  {
    hide CourseOf, ProvisionIt, SpecBuilds, Ttl.ParseTtl, Claim, UsedUp, NameFree;
    var Make(owner, key, id) := CourseOf(cfg, w.t, actor, req);
    MadeFor(cfg, w.t, actor, req);
    MadeNamed(cfg, w.t, actor, req);
    var ttl := Ttl.ParseTtl(TtlSpec(req));
    if ttl.Ok? {
      ClaimIs(cfg, w.t, actor, key, req, ttl.value, id);
    }
  }

  /** An `up` is refused for its quota exactly when it would make an environment, its lifetime and
      backend are accepted, and the owner has used the quota up; then nothing changes. */
  lemma QuotaExhaustedIff(cfg: Settings, w: World, actor: Principal, req: UpRequest, ans: Answers)
    ensures var (w', outcome) := Up(cfg, w, actor, req, ans);
      && (outcome == Raised(QuotaExhausted) <==>
          && CourseOf(cfg, w.t, actor, req).Make?
          && Ttl.ParseTtl(if req.ttl == None then req.template.ttl else req.ttl).Ok?
          && Registered(cfg, req.backend) && UsedUp(cfg, w.t, actor, req))
      && (outcome == Raised(QuotaExhausted) ==> w' == w)
  {
    hide CourseOf, Reuse, Reserves, Create, ProvisionIt, Ttl.ParseTtl, UsedUp, NameFree, HookRenders;
    match CourseOf(cfg, w.t, actor, req)
    case Refuse(e) => RefusedOtherwise(cfg, w.t, actor, req);
    case HandBack(inst) => NoQuotaToReuse(cfg, w, inst, req.template, ans);
    case Make(owner, key, id) =>
      MakeIs(cfg, w, actor, req, ans);
      if Reservation(cfg, w.t, actor, req).Some? {
        var (t1, inst) := Reservation(cfg, w.t, actor, req).value;
        UpMakes(cfg, w, actor, req, ans);
        NoQuotaToProvision(cfg, w.(t := t1), inst, req.template.expose, ans);
      }
  }

  lemma RefusedOtherwise(cfg: Settings, t: Tables, actor: Principal, req: UpRequest)
    ensures CourseOf(cfg, t, actor, req) != Refuse(QuotaExhausted)
  {
    hide LabelFree, Params.Resolve, GrantsOf, ExposuresOf, Naming.ValidateName, StateStore.Latest, CanView;
  }

  lemma MadeFor(cfg: Settings, t: Tables, actor: Principal, req: UpRequest)
    requires CourseOf(cfg, t, actor, req).Make?
    ensures CourseOf(cfg, t, actor, req).owner == For(actor, req)
  {
    hide LabelFree, Params.Resolve, GrantsOf, ExposuresOf, Naming.ValidateName, StateStore.Latest, CanView;
  }

  lemma NoQuotaToReuse(cfg: Settings, w: World, inst: Environment, template: TemplateConfig, ans: Answers)
    ensures Reuse(cfg, w, inst, template, ans).1 != Raised(QuotaExhausted)
  {
  }

  lemma NoQuotaToProvision(cfg: Settings, w: World, inst: Environment, expose: Expose, ans: Answers)
    ensures ProvisionIt(cfg, w, inst, expose, ans).1 != Raised(QuotaExhausted)
  {
  }

  // ---- the quota over runs of calls ----

  /** Some environment of the owner that was in error now counts again: its teardown failed. */
  ghost predicate Revives(t: Tables, t': Tables, owner: string) {
    exists k :: && k in t.rows && t.rows[k].owner == owner && t.rows[k].status == Errored
                && k in t'.rows && t'.rows[k].status == DestroyFailed && t'.rows[k].generation == t.rows[k].generation
  }

  /** A row's owner and whether it counts. */
  predicate Counts(t: Tables, owner: string, k: string) {
    k in t.rows && t.rows[k].owner == owner && t.rows[k].status != Destroyed && t.rows[k].status != Errored
  }

  /** A call that adds to what an owner has is an `up` for them with quota left, or the failing
      teardown of one that was in error. */
  ghost predicate MayAdd(cfg: Settings, w: World, w': World, r: Request, owner: string) {
    || Revives(w.t, w'.t, owner)
    || (r.call.CallUp? && For(r.actor, r.call.req) == owner && !UsedUp(cfg, w.t, r.actor, r.call.req))
  }

  lemma UpAdds(cfg: Settings, w: World, actor: Principal, req: UpRequest, ans: Answers, owner: string, k: string)
    requires Counts(Up(cfg, w, actor, req, ans).0.t, owner, k) && !Counts(w.t, owner, k)
    ensures For(actor, req) == owner && !UsedUp(cfg, w.t, actor, req)
  {
    hide CourseOf, Reserves, Reuse, Create, ProvisionIt, UsedUp, NameFree, HookRenders, HasReserved, Ttl.ParseTtl;
    match CourseOf(cfg, w.t, actor, req)
    case Refuse(e) =>
    case HandBack(inst) =>
      HandedBack(cfg, w.t, actor, req);
      ResumeAdds(cfg, w, inst.id, req.template, ans, owner, k);
    case Make(_, _, _) =>
      MakeIs(cfg, w, actor, req, ans);
      if Reservation(cfg, w.t, actor, req).Some? {
        ProvisionAdds(cfg, w, actor, req, ans, owner, k);
      }
  }

  lemma ResumeAdds(cfg: Settings, w: World, id: string, template: TemplateConfig, ans: Answers, owner: string,
                   k: string)
    requires id in w.t.rows && Counts(Reuse(cfg, w, ToEnvironment(w.t, id), template, ans).0.t, owner, k)
    ensures Counts(w.t, owner, k)
  {
    hide BeginAndResume, HookRenders, OneOperation, GrantsOf, ExposuresOf, Reuse;
    ReuseIs(cfg, w, id, template, ans);
    if w.t.rows[id].status == Stopped && w.t.rows[id].active == None {
      ResumeOutcome(cfg, w, id, template, ans);
    }
  }

  lemma ProvisionAdds(cfg: Settings, w: World, actor: Principal, req: UpRequest, ans: Answers, owner: string, k: string)
    requires Reservation(cfg, w.t, actor, req).Some?
    requires Counts(Up(cfg, w, actor, req, ans).0.t, owner, k) && !Counts(w.t, owner, k)
    ensures For(actor, req) == owner
  {
    hide Reservation, Up, ProvisionIt, HookRenders, DefaultsFree, FrontDoor, NameFor, Ttl.ParseTtl, Ttl.Expiry, Current;
    var args, ttl := ReservationIs(cfg, w.t, actor, req);
    var (t1, inst) := Reservation(cfg, w.t, actor, req).value;
    UpMakes(cfg, w, actor, req, ans);
    ProvisionOutcome(cfg, w.(t := t1), inst, req.template.expose, ans);
    assert k == inst.id;
  }

  /** Changing one row adds at most that one to what an owner has. */
  lemma OneAdds(t: Tables, t': Tables, owner: string, id: string)
    requires forall k :: k != id ==> (k in t'.rows <==> k in t.rows) && (k in t.rows ==> t'.rows[k] == t.rows[k])
    ensures |Counted(t', owner)| <=
      |Counted(t, owner)| + if Counts(t', owner, id) && !Counts(t, owner, id) then 1 else 0
  {
    assert Counted(t, owner) - {id} == Counted(t', owner) - {id};
    Fence.CountMoves(Counted(t', owner), Counted(t, owner), id);
  }

  /** One environment torn down from its own record. */
  lemma TeardownAdds(cfg: Settings, w: World, inst: Environment, ans: Answers, owner: string)
    requires inst.id in w.t.rows && w.t.rows[inst.id].owner == inst.owner && w.t.rows[inst.id].status != Destroyed
    ensures var (w', outcome) := Teardown(cfg, w, inst, ans);
      && (forall k :: k != inst.id ==>
           (k in w'.t.rows <==> k in w.t.rows) && (k in w.t.rows ==> w'.t.rows[k] == w.t.rows[k]))
      && |Counted(w'.t, owner)| <= |Counted(w.t, owner)| + (if Revives(w.t, w'.t, owner) then 1 else 0)
      && (outcome.Done? ==> |Counted(w'.t, owner)| <= |Counted(w.t, owner)|)
  {
    hide Counted;
    var w' := Teardown(cfg, w, inst, ans).0;
    OneAdds(w.t, w'.t, owner, inst.id);
  }

  lemma {:induction false} TeardownAllAdds(cfg: Settings, w: World, insts: seq<Environment>, answers: nat -> Answers,
                                           i: nat, owner: string)
    requires forall a, b :: 0 <= a < b < |insts| ==> insts[a].id != insts[b].id
    requires forall j :: i <= j < |insts| ==>
      && insts[j].id in w.t.rows
      && w.t.rows[insts[j].id].owner == insts[j].owner && w.t.rows[insts[j].id].status != Destroyed
    ensures var w' := TeardownAll(cfg, w, insts, answers, i).0;
      |Counted(w'.t, owner)| <= |Counted(w.t, owner)| + if Revives(w.t, w'.t, owner) then 1 else 0
    decreases |insts| - i
  {
    hide Teardown, Counted;
    if i < |insts| {
      var (w1, outcome) := Teardown(cfg, w, insts[i], answers(i));
      TeardownAdds(cfg, w, insts[i], answers(i), owner);
      TeardownEnds(cfg, w, insts[i], answers(i));
      if outcome.Done? {
        TeardownAllAdds(cfg, w1, insts, answers, i + 1, owner);
        var w' := TeardownAll(cfg, w1, insts, answers, i + 1).0;
        if Revives(w1.t, w'.t, owner) {
          var k :| && k in w1.t.rows && w1.t.rows[k].owner == owner && w1.t.rows[k].status == Errored
                   && k in w'.t.rows && w'.t.rows[k].status == DestroyFailed
                   && w'.t.rows[k].generation == w1.t.rows[k].generation;
          assert k != insts[i].id;
          assert Revives(w.t, w'.t, owner);
        }
      }
    }
  }

  lemma OtherCallsAdd(cfg: Settings, w: World, r: Request, owner: string, k: string)
    requires !r.call.CallUp? && !r.call.CallReap?
    requires Counts(Step(cfg, w, r).0.t, owner, k) && !Counts(w.t, owner, k)
    ensures Revives(w.t, Step(cfg, w, r).0.t, owner)
  {
    hide StopIt, StartIt, DestroyIt, ExposeIt, UnexposeIt, ShareIt, UnshareIt, BeginAndResume, Teardown;
    hide OneOperation, HookRenders, FrontDoor, Labels, Free, Unheld, CleanAccess, Naming.ValidateExposureLabel;
    match r.call
    case CallStop(id, ans) =>
      StopRefused(cfg, w, r.actor, id, ans);
      if Step(cfg, w, r).0 != w {
        StopOutcome(cfg, w, r.actor, id, ans);
      }
    case CallStart(id, template, ans) =>
      StartIs(cfg, w, r.actor, id, template, ans);
      if id in w.t.rows && w.t.rows[id].status == Stopped && w.t.rows[id].active == None {
        ResumeOutcome(cfg, w, id, template, ans);
      }
    case CallDestroy(id, ans) =>
      DestroyIs(cfg, w, r.actor, id, ans);
      if id in w.t.rows {
        TeardownOutcome(cfg, w, id, ans);
      }
    case CallExpose(id, port, wanted, access, ans) => ExposeIs(cfg, w, r.actor, id, port, wanted, access, ans);
    case CallUnexpose(id, name, ans) => UnexposeIs(cfg, w, r.actor, id, name, ans);
    case CallShare(id, principal) => ShareIs(w, r.actor, id, principal);
    case CallUnshare(id, principal) => UnshareIs(w, r.actor, id, principal);
  }

  lemma StepAdds(cfg: Settings, w: World, r: Request, owner: string)
    requires OpsSupplied(w.t)
    ensures var w' := Step(cfg, w, r).0;
      |Counted(w'.t, owner)| <= |Counted(w.t, owner)| + if MayAdd(cfg, w, w', r, owner) then 1 else 0
  {
    hide Counted, Revives, UsedUp, Up, StopIt, StartIt, DestroyIt, ExposeIt, UnexposeIt, ShareIt, UnshareIt;
    hide TeardownAll, OpOf, Leases, ExposureOf, Granted, GrantsOf, ExposuresOf, Counts, Access.MayMove;
    var w' := Step(cfg, w, r).0;
    if r.call.CallReap? {
      var CallReap(now, order, answers) := r.call;
      if r.actor.admin && Lists(order, Expired(w.t, now)) {
        assert forall i :: 0 <= i < |order| ==> order[i] in Expired(w.t, now);
        TeardownAllAdds(cfg, w, Records(w.t, order), answers, 0, owner);
      }
    } else {
      var id := Access.StepTouches(cfg, w, r);
      forall k | k != id
        ensures (k in w'.t.rows <==> k in w.t.rows) && (k in w.t.rows ==> w'.t.rows[k] == w.t.rows[k])
      {
        assert Kept(w, w', k);
        assert RowOf(w.t, k) == RowOf(w'.t, k);
      }
      OneAdds(w.t, w'.t, owner, id);
      if Counts(w'.t, owner, id) && !Counts(w.t, owner, id) {
        if r.call.CallUp? {
          UpAdds(cfg, w, r.actor, r.call.req, r.call.ans, owner, id);
        } else {
          OtherCallsAdd(cfg, w, r, owner, id);
        }
      }
    }
  }

  /** How many calls of a run let the failing teardown of an errored environment count again. */
  ghost function Revivals(cfg: Settings, requests: seq<Request>, owner: string): nat {
    if requests == [] then 0
    else
      var prefix := requests[..|requests| - 1];
      Revivals(cfg, prefix, owner)
      + if Revives(Run(cfg, START, prefix).t, Run(cfg, START, requests).t, owner) then 1 else 0
  }

  /** Every `up` for the owner goes under this quota, its own or the deployment's. */
  ghost predicate UpsUnder(cfg: Settings, requests: seq<Request>, owner: string, q: nat) {
    forall i :: 0 <= i < |requests| && requests[i].call.CallUp? && For(requests[i].actor, requests[i].call.req) == owner
      ==> QuotaOf(cfg, requests[i].call.req) == Some(q)
  }

  /** In every sequential run whose `up`s for an owner go under a quota, the owner's environments exceed
      it by at most the number of calls that brought one back from error by failing to tear it down. */
  lemma {:induction false} CallsUnderQuota(cfg: Settings, requests: seq<Request>, owner: string, q: nat)
    requires UpsUnder(cfg, requests, owner, q)
    ensures |Counted(Run(cfg, START, requests).t, owner)| <= q + Revivals(cfg, requests, owner)
  {
    hide Counted, Step, Revives;
    if requests == [] {
      assert Counted(START.t, owner) == {} by { NothingCounted(owner); }
    } else {
      var prefix, last := requests[..|requests| - 1], requests[|requests| - 1];
      assert forall i :: 0 <= i < |prefix| ==> prefix[i] == requests[i];
      CallsUnderQuota(cfg, prefix, owner, q);
      Access.RunSupplies(cfg, prefix);
      StepAdds(cfg, Run(cfg, START, prefix), last, owner);
    }
  }

  lemma NothingCounted(owner: string)
    ensures Counted(START.t, owner) == {}
  {
  }

  /** Only a destroy or a reaper pass does that. */
  lemma RevivedByTeardown(cfg: Settings, requests: seq<Request>, r: Request, owner: string)
    ensures var w := Run(cfg, START, requests);
      Revives(w.t, Step(cfg, w, r).0.t, owner) ==> r.call.CallDestroy? || r.call.CallReap?
  {
    hide Run, Up, StopIt, StartIt, ExposeIt, UnexposeIt, ShareIt, UnshareIt, Backing.Lost;
    var w := Run(cfg, START, requests);
    Backing.RunBacked(cfg, requests);
    if Revives(w.t, Step(cfg, w, r).0.t, owner) {
      var t' := Step(cfg, w, r).0.t;
      var k :| && k in w.t.rows && w.t.rows[k].owner == owner && w.t.rows[k].status == Errored
               && k in t'.rows && t'.rows[k].status == DestroyFailed && t'.rows[k].generation == w.t.rows[k].generation;
      assert Backing.Backed(cfg, w, Backing.Lost(cfg, requests), k);
      match r.call
      case CallUp(req, ans) => UpRenews(cfg, w, r.actor, req, ans, k);
      case CallStop(id, ans) => StopRevivesNone(cfg, w, r.actor, id, ans, k);
      case CallStart(id, template, ans) => StartRevivesNone(cfg, w, r.actor, id, template, ans, k);
      case CallExpose(id, port, wanted, access, ans) =>
        ExposeKeepsStatus(cfg, w, r.actor, id, port, wanted, access, ans, k);
      case CallUnexpose(id, name, ans) => UnexposeKeepsStatus(cfg, w, r.actor, id, name, ans, k);
      case CallShare(id, principal) => ShareIs(w, r.actor, id, principal);
      case CallUnshare(id, principal) => UnshareIs(w, r.actor, id, principal);
      case _ =>
    }
  }

  lemma UpRenews(cfg: Settings, w: World, actor: Principal, req: UpRequest, ans: Answers, k: string)
    requires k in w.t.rows && w.t.rows[k].status == Errored && w.t.rows[k].generation < w.t.supply
    ensures var t' := Up(cfg, w, actor, req, ans).0.t;
      k in t'.rows && (t'.rows[k] == w.t.rows[k] || t'.rows[k].generation == w.t.supply)
  {
    hide CourseOf, Reserves, Reuse, Create, ProvisionIt, NameFree, HookRenders, Ttl.ParseTtl, Ttl.Expiry, OneOperation;
    hide DefaultsFree, FrontDoor, Current, BeginAndResume;
    match CourseOf(cfg, w.t, actor, req)
    case Refuse(e) =>
    case HandBack(inst) =>
      HandedBack(cfg, w.t, actor, req);
      ReuseIs(cfg, w, inst.id, req.template, ans);
      if w.t.rows[inst.id].status == Stopped && w.t.rows[inst.id].active == None {
        ResumeOutcome(cfg, w, inst.id, req.template, ans);
      }
    case Make(_, _, _) =>
      MakeIs(cfg, w, actor, req, ans);
      if Reservation(cfg, w.t, actor, req).Some? {
        UpMakesNew(cfg, w, actor, req, ans, k);
      }
  }

  lemma UpMakesNew(cfg: Settings, w: World, actor: Principal, req: UpRequest, ans: Answers, k: string)
    requires Reservation(cfg, w.t, actor, req).Some? && k in w.t.rows
    ensures var t' := Up(cfg, w, actor, req, ans).0.t;
      k in t'.rows && (t'.rows[k] == w.t.rows[k] || t'.rows[k].generation == w.t.supply)
  {
    hide Reservation, Up, ProvisionIt, HookRenders, DefaultsFree, FrontDoor, NameFor, Ttl.ParseTtl, Ttl.Expiry, Current;
    var args, ttl := ReservationIs(cfg, w.t, actor, req);
    var (t1, inst) := Reservation(cfg, w.t, actor, req).value;
    UpMakes(cfg, w, actor, req, ans);
    ProvisionOutcome(cfg, w.(t := t1), inst, req.template.expose, ans);
  }

  lemma StopRevivesNone(cfg: Settings, w: World, actor: Principal, id: string, ans: Answers, k: string)
    requires k in w.t.rows && w.t.rows[k].status == Errored
    ensures var t' := StopIt(cfg, w, actor, id, ans).0.t; k in t'.rows && t'.rows[k] == w.t.rows[k]
  {
    hide StopIt, OneOperation;
    StopRefused(cfg, w, actor, id, ans);
    if StopIt(cfg, w, actor, id, ans).0 != w {
      StopOutcome(cfg, w, actor, id, ans);
    }
  }

  lemma StartRevivesNone(cfg: Settings, w: World, actor: Principal, id: string, template: TemplateConfig, ans: Answers,
                         k: string)
    requires k in w.t.rows && w.t.rows[k].status == Errored
    ensures var t' := StartIt(cfg, w, actor, id, template, ans).0.t; k in t'.rows && t'.rows[k] == w.t.rows[k]
  {
    hide StartIt, BeginAndResume, OneOperation, HookRenders;
    StartIs(cfg, w, actor, id, template, ans);
    if id in w.t.rows && w.t.rows[id].status == Stopped && w.t.rows[id].active == None {
      ResumeOutcome(cfg, w, id, template, ans);
    }
  }

  lemma ExposeKeepsStatus(cfg: Settings, w: World, actor: Principal, id: string, port: int, wanted: Option<string>,
                          access: seq<string>, ans: Answers, k: string)
    requires k in w.t.rows
    ensures var t' := ExposeIt(cfg, w, actor, id, port, wanted, access, ans).0.t;
      k in t'.rows && t'.rows[k].status == w.t.rows[k].status
  {
    hide ExposeIt, FrontDoor, Free, Unheld, CleanAccess, Naming.ValidateExposureLabel;
    ExposeIs(cfg, w, actor, id, port, wanted, access, ans);
  }

  lemma UnexposeKeepsStatus(cfg: Settings, w: World, actor: Principal, id: string, name: string, ans: Answers,
                            k: string)
    requires k in w.t.rows
    ensures var t' := UnexposeIt(cfg, w, actor, id, name, ans).0.t;
      k in t'.rows && t'.rows[k].status == w.t.rows[k].status
  {
    hide UnexposeIt, FrontDoor;
    UnexposeIs(cfg, w, actor, id, name, ans);
  }
}
