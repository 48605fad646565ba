/** Runs from the empty deployment that reach what `Lifecycle` and `Backing` except: an operation
    left open between calls, and a ready environment without its instance. */
module Witnesses {
  import opened Wrappers
  import opened Model
  import opened Tables
  import opened Params
  import opened Config
  import opened Control
  import opened Courses
  import Backing
  import Fence
  import Hooks
  import Lifecycle
  import Naming
  import Outcomes
  import Requests
  import StateStore
  import Ttl

  const DEPLOYMENT := Settings("example.com", "auth.example.com", {"vm"}, "vm", None)

  const ALICE := Principal("alice", false)

  /** An optional parameter without a default. */
  const BRANCH := Param("b", None, false, [], _ => true)

  const RAW_BRANCH := ("b", Spec(None, false, [], _ => true))

  /** A template that declares it, with a provision hook. */
  function TemplateOf(hook: string): TemplateConfig {
    TemplateConfig("t", [BRANCH], "", hook, Ports([], map[]), None)
  }

  function Document(hook: string): RawTemplate {
    RawTemplate(Some("t"), Some([RAW_BRANCH]), Some(map["provision" := hook]), Some([]), Some({}), None)
  }

  /** `up` without arguments, name or lifetime. */
  function PlainUp(hook: string): UpRequest {
    UpRequest(TemplateOf(hook), map[], None, None, false, "", None, None, "", 0, n => "")
  }

  /** Everything outside works but, when said so, the file system. */
  function Outside(published: bool): Answers {
    Answers(true, Some(Some("10.0.0.1")), Some(Some("10.0.0.1")), true, true, true, true, published, published, "")
  }

  function Calls(hook: string, published: bool): seq<Request> {
    [Request(ALICE, CallUp(PlainUp(hook), Outside(published)))]
  }

  // ---- the one call ----

  lemma PlainResolves(hook: string)
    ensures Resolve(PlainUp(hook).template.params, PlainUp(hook).args) == Some(map[])
  {
    assert [BRANCH][..0] == [];
    assert Fill([], map[]) == Some(map[]);
  }

  lemma PlainReserves(hook: string) returns (t1: Tables, inst: Environment)
    ensures Reservation(DEPLOYMENT, EMPTY, ALICE, PlainUp(hook)) == Some((t1, inst))
    ensures CourseOf(DEPLOYMENT, EMPTY, ALICE, PlainUp(hook)) == Make("alice", ArgsKey("t", map[]), None)
    ensures inst.generation == Some(0) && inst.operation == Some(1) && inst.backend == "vm"
    ensures Current(t1, inst) && t1.rows[inst.id].status.Creating? && t1.rows[inst.id].active == Some(1)
  {
    hide Hooks.Render, StateStore.Latest, Resolve, Ttl.Expiry, Reserve, Naming.NewEnvironmentId, Current;
    PlainResolves(hook);
    var req, key := PlainUp(hook), ArgsKey("t", map[]);
    var candidate := Candidate(DEPLOYMENT, "alice", key, req, None, "");
    t1, inst := FirstReserves(candidate.(id := Naming.NewEnvironmentId("t", "")));
    assert ReserveAny(EMPTY, candidate, req, None, 0) == (t1, Reserved(inst));
  }

  lemma FirstReserves(first: Environment) returns (t1: Tables, inst: Environment)
    requires first.status.Creating?
    ensures Reserve(EMPTY, first, None) == (t1, Reserved(inst))
    ensures inst.generation == Some(0) && inst.operation == Some(1) && inst.backend == first.backend
    ensures Current(t1, inst) && t1.rows[inst.id].status.Creating? && t1.rows[inst.id].active == Some(1)
  {
    Fence.ReserveShape(EMPTY, first, None);
    t1 := Reserve(EMPTY, first, None).0;
    inst := Reserve(EMPTY, first, None).1.inst;
  }

  lemma OneCall(hook: string, published: bool)
    ensures Run(DEPLOYMENT, START, Calls(hook, published))
      == Up(DEPLOYMENT, START, ALICE, PlainUp(hook), Outside(published)).0
  {
    hide Up;
    assert Calls(hook, published)[..0] == [];
    assert Run(DEPLOYMENT, START, []) == START;
  }

  // ---- a ready environment without its instance ----

  lemma EmptyHookBuilds()
    ensures !Unbuildable(PlainUp(""), Outside(false))
  {
    Hooks.BlankHasNoPlaceholders("");
  }

  ghost predicate ReadyAndGone(w: World, id: string) {
    id in w.t.rows && w.t.rows[id].status.Ready? && w.t.rows[id].backend == "vm" && ("vm", id) !in w.alive
  }

  lemma InstanceLost(w: World, inst: Environment)
    requires Current(w.t, inst) && inst.backend == "vm"
    ensures ReadyAndGone(ProvisionIt(DEPLOYMENT, w, inst, PlainUp("").template.expose, Outside(false)).0, inst.id)
  {
    hide ProvisionIt, Current;
    var expose, ans := PlainUp("").template.expose, Outside(false);
    assert ExposeDefaults(DEPLOYMENT, w.t, inst.id, expose, 0).1;
    Backing.ProvisionBacks(DEPLOYMENT, w, inst, expose, ans);
  }

  lemma GoneIsLost(requests: seq<Request>, id: string)
    requires ReadyAndGone(Run(DEPLOYMENT, START, requests), id)
    ensures Run(DEPLOYMENT, START, requests).t.rows[id].generation in Backing.Lost(DEPLOYMENT, requests)
  {
    hide Run, Backing.Lost;
    Backing.RowsWithoutInstance(DEPLOYMENT, requests, id);
  }

  /** One `up` whose route file cannot be written ends with a ready environment whose instance is
      gone. */
  lemma ReadyWithoutInstance() returns (id: string)
    ensures var w := Run(DEPLOYMENT, START, Calls("", false));
      && id in w.t.rows && w.t.rows[id].status.Ready? && w.t.rows[id].backend == "vm" && ("vm", id) !in w.alive
      && w.t.rows[id].generation in Backing.Lost(DEPLOYMENT, Calls("", false))
  {
    hide Run, Up, Reservation, Unbuildable, ProvisionIt, Backing.Lost, Current, Calls, Outside, PlainUp;
    var t1, inst := PlainReserves("");
    id := inst.id;
    OneCall("", false);
    EmptyHookBuilds();
    MadeUp(PlainUp(""), Outside(false), t1, inst);
    InstanceLost(START.(t := t1), inst);
    GoneIsLost(Calls("", false), id);
  }

  /** An `up` that reserves and can build its spec provisions what it reserved. */
  lemma MadeUp(req: UpRequest, ans: Answers, t1: Tables, inst: Environment)
    ensures Reservation(DEPLOYMENT, EMPTY, ALICE, req) == Some((t1, inst)) ==>
      Up(DEPLOYMENT, START, ALICE, req, ans).0
        == if Unbuildable(req, ans) then START.(t := t1)
           else ProvisionIt(DEPLOYMENT, START.(t := t1), inst, req.template.expose, ans).0
  {
    hide CourseOf, Create, Reserves, Unbuildable, ProvisionIt, Resolve;
    match CourseOf(DEPLOYMENT, EMPTY, ALICE, req)
    case Make(owner, key, id) =>
      MadeOf(DEPLOYMENT, EMPTY, ALICE, req);
      CreateIs(DEPLOYMENT, START, owner, key, req, id, ans);
    case _ =>
  }

  // ---- an operation left open ----

  const HOOK := "{{b}}"

  lemma HookNamesBranch()
    ensures Hooks.Placeholders(HOOK) == {"b"}
  {
    assert HOOK[2..3] == "b";
    assert Hooks.PlaceholderAt(HOOK, 0, 2, 3, 5);
    var segs := [Hooks.Hole("b", HOOK)];
    assert Hooks.Stands(HOOK, 0, segs[0]) by { assert HOOK[0..5] == HOOK; }
    assert Hooks.Decomposes(HOOK, 5, segs[1..]);
    Hooks.ScanIff(HOOK, segs);
  }

  /** The parser accepts a template whose hook names an optional parameter without default. */
  lemma HookIsAccepted()
    ensures Lifecycle.Accepted(TemplateOf(HOOK))
  {
    hide Hooks.Placeholders;
    HookNamesBranch();
    Hooks.BlankHasNoPlaceholders("");
    var raw := Document(HOOK);
    assert GoodParam(RAW_BRANCH);
    assert raw.params.value[0].0 in Declared(raw.params.value);
    assert WellFormed(raw);
    assert Describes(TemplateOf(HOOK), raw);
  }

  /** One `up` of it without that argument, on a deployment where everything works, ends with an
      operation open that no later call closes. */
  lemma OperationLeftOpen() returns (id: string)
    ensures Lifecycle.Accepted(TemplateOf(HOOK))
    ensures var t := Run(DEPLOYMENT, START, Calls(HOOK, true)).t;
      && id in t.rows && t.rows[id].status.Creating? && t.rows[id].active == Some(1)
      && 1 in t.ops && Unfinished(t.ops[1]) && 1 in Lifecycle.Abandoned(DEPLOYMENT, Calls(HOOK, true))
  {
    hide Run, Up, Reservation, ProvisionIt, Unbuildable, Lifecycle.Accepted, Calls, Outside, PlainUp;
    hide Lifecycle.Abandoned;
    HookIsAccepted();
    HookCannotRender();
    var t1, inst := PlainReserves(HOOK);
    id := inst.id;
    OneCall(HOOK, true);
    MadeUp(PlainUp(HOOK), Outside(true), t1, inst);
    Lifecycle.ClosedAtRest(DEPLOYMENT, Calls(HOOK, true));
  }

  lemma HookCannotRender()
    ensures Unbuildable(PlainUp(HOOK), Outside(true))
  {
    hide Hooks.Placeholders, Resolve;
    HookNamesBranch();
    PlainResolves(HOOK);
    assert "b" in Hooks.Placeholders(HOOK) && "b" !in BUILTINS;
  }

  // ---- over the quota ----

  /** `up` under a quota of one, with the given random suffix. */
  function CappedUp(token: string): UpRequest {
    PlainUp("").(quota := Some(1), tokens := n => token)
  }

  function IdOf(token: string): string { Naming.NewEnvironmentId("t", token) }

  ghost predicate Has(w: World, token: string, status: Status) {
    IdOf(token) in w.t.rows && w.t.rows[IdOf(token)].owner == "alice" && w.t.rows[IdOf(token)].status == status
    && w.t.rows[IdOf(token)].backend == "vm"
  }

  lemma CappedReserves(w: World, token: string)
    requires IdOf(token) !in w.t.rows && IdOf(token) !in w.t.leases && Requests.Counted(w.t, "alice") == {}
    ensures Reservation(DEPLOYMENT, w.t, ALICE, CappedUp(token)).Some?
    ensures Reservation(DEPLOYMENT, w.t, ALICE, CappedUp(token)).value.1.id == IdOf(token)
  {
    hide Reserves, CourseOf, Naming.NewEnvironmentId, Requests.Counted, Requests.HasReserved;
    var req := CappedUp(token);
    PlainResolves("");
    Requests.UnnamedCourse(DEPLOYMENT, w.t, ALICE, req);
    assert Naming.NewEnvironmentId(req.template.name, req.tokens(0)) == IdOf(token);
    assert Requests.NameFree(w.t, req, None);
    Requests.MakeIs(DEPLOYMENT, w, ALICE, req, Outside(true));
    var args, ttl := Requests.ReservationIs(DEPLOYMENT, w.t, ALICE, req);
  }

  const CREATE_FAILS := Outside(true).(create := None)

  const DESTROY_FAILS := Outside(true).(destroy := false)

  /** One that the runtime cannot create ends in error, and counts no more. */
  lemma FirstFails(token: string)
    ensures var w' := Up(DEPLOYMENT, START, ALICE, CappedUp(token), CREATE_FAILS).0;
      && w'.t.rows.Keys == {IdOf(token)} && Has(w', token, Errored) && w'.t.leases.Keys == {IdOf(token)}
  {
    hide Reservation, Up, ProvisionIt, Naming.NewEnvironmentId, Outcomes.HookRenders, Current, Abort, Requests.NameFor;
    hide Ttl.ParseTtl, Ttl.Expiry, Resolve;
    assert Requests.Counted(START.t, "alice") == {};
    CappedReserves(START, token);
    var req := CappedUp(token);
    var args, ttl := Requests.ReservationIs(DEPLOYMENT, START.t, ALICE, req);
    var (t1, inst) := Reservation(DEPLOYMENT, START.t, ALICE, req).value;
    BlankRenders(args);
    Requests.UpMakes(DEPLOYMENT, START, ALICE, req, CREATE_FAILS);
    Outcomes.ProvisionOutcome(DEPLOYMENT, START.(t := t1), inst, req.template.expose, CREATE_FAILS);
    CreateRefused(START.(t := t1), inst, req.template.expose);
  }

  lemma BlankRenders(args: map<string, string>)
    ensures Outcomes.HookRenders(PlainUp("").template, args)
  {
    Hooks.BlankHasNoPlaceholders("");
  }

  lemma CreateRefused(w: World, inst: Environment, expose: Expose)
    requires Current(w.t, inst)
    ensures ProvisionIt(DEPLOYMENT, w, inst, expose, CREATE_FAILS).0.t.leases == w.t.leases
  {
    hide Abort;
    var w1 := w.(overwrote := w.overwrote || exists a :: a in w.alive && a.1 == inst.id);
    Outcomes.AbortIs(w1, inst, inst.backend, false, CREATE_FAILS);
  }

  /** The next is brought up under the quota. */
  lemma NextWorks(w: World, failed: string, token: string)
    requires w.t.rows.Keys == {IdOf(failed)} && Has(w, failed, Errored) && w.t.leases.Keys == {IdOf(failed)}
    requires IdOf(token) != IdOf(failed)
    ensures var w' := Up(DEPLOYMENT, w, ALICE, CappedUp(token), Outside(true)).0;
      && w'.t.rows.Keys == {IdOf(failed), IdOf(token)} && Has(w', failed, Errored) && Has(w', token, Ready)
      && w'.t.rows[IdOf(failed)] == w.t.rows[IdOf(failed)]
  {
    hide Reservation, Up, ProvisionIt, Naming.NewEnvironmentId, Outcomes.HookRenders, Current, Requests.NameFor;
    hide Ttl.ParseTtl, Ttl.Expiry, Resolve;
    assert Requests.Counted(w.t, "alice") == {};
    CappedReserves(w, token);
    var req := CappedUp(token);
    var args, ttl := Requests.ReservationIs(DEPLOYMENT, w.t, ALICE, req);
    var (t1, inst) := Reservation(DEPLOYMENT, w.t, ALICE, req).value;
    BlankRenders(args);
    Requests.UpMakes(DEPLOYMENT, w, ALICE, req, Outside(true));
    Outcomes.ProvisionOutcome(DEPLOYMENT, w.(t := t1), inst, req.template.expose, Outside(true));
  }

  /** Tearing the failed one down fails as well: it counts again, beside the other. */
  lemma DestroyRevives(w: World, failed: string, token: string)
    requires w.t.rows.Keys == {IdOf(failed), IdOf(token)} && Has(w, failed, Errored) && Has(w, token, Ready)
    requires IdOf(token) != IdOf(failed)
    ensures var w' := DestroyIt(DEPLOYMENT, w, ALICE, IdOf(failed), DESTROY_FAILS).0;
      && Requests.Counted(w'.t, "alice") == {IdOf(failed), IdOf(token)}
      && Requests.Revives(w.t, w'.t, "alice")
  {
    hide DestroyIt, Teardown, Naming.NewEnvironmentId;
    Outcomes.DestroyIs(DEPLOYMENT, w, ALICE, IdOf(failed), DESTROY_FAILS);
    Outcomes.TeardownOutcome(DEPLOYMENT, w, IdOf(failed), DESTROY_FAILS);
    var w' := DestroyIt(DEPLOYMENT, w, ALICE, IdOf(failed), DESTROY_FAILS).0;
    assert w'.t.rows[IdOf(failed)].status == DestroyFailed;
  }

  function OverQuota(): seq<Request> {
    [Request(ALICE, CallUp(CappedUp("a"), CREATE_FAILS)), Request(ALICE, CallUp(CappedUp("b"), Outside(true))),
     Request(ALICE, CallDestroy(IdOf("a"), DESTROY_FAILS))]
  }

  /** Three calls under a quota of one leave two environments that count, one of them revived: the
      bound of `Requests.CallsUnderQuota` is reached. */
  lemma OverTheQuota()
    ensures var w := Run(DEPLOYMENT, START, OverQuota());
      && Requests.UpsUnder(DEPLOYMENT, OverQuota(), "alice", 1)
      && |Requests.Counted(w.t, "alice")| == 2 && Requests.Revivals(DEPLOYMENT, OverQuota(), "alice") == 1
  {
    hide Run, Up, DestroyIt, Naming.NewEnvironmentId, Requests.Counted, Requests.Revives, Requests.Revivals;
    assert IdOf("a") != IdOf("b") by { TwoIds(); }
    var w1, w2, w := OverQuotaRuns();
    FirstFails("a");
    NextWorks(w1, "a", "b");
    DestroyRevives(w2, "a", "b");
    NoneRevived(START.t, w1.t);
    NoneRevived(w1.t, w2.t);
  }

  lemma OverQuotaRuns() returns (w1: World, w2: World, w: World)
    ensures w1 == Up(DEPLOYMENT, START, ALICE, CappedUp("a"), CREATE_FAILS).0
    ensures w2 == Up(DEPLOYMENT, w1, ALICE, CappedUp("b"), Outside(true)).0
    ensures w == DestroyIt(DEPLOYMENT, w2, ALICE, IdOf("a"), DESTROY_FAILS).0
    ensures w == Run(DEPLOYMENT, START, OverQuota())
    ensures Requests.Revivals(DEPLOYMENT, OverQuota(), "alice") ==
      (if Requests.Revives(START.t, w1.t, "alice") then 1 else 0)
      + (if Requests.Revives(w1.t, w2.t, "alice") then 1 else 0)
      + if Requests.Revives(w2.t, w.t, "alice") then 1 else 0
  {
    hide Up, DestroyIt, Naming.NewEnvironmentId, Requests.Revives;
    var r := OverQuota();
    assert r[..2][..1] == r[..1] && r[..1][..0] == [] && r[..1][0] == r[0] && r[..2][1] == r[1];
    assert Run(DEPLOYMENT, START, r[..1][..0]) == START && Requests.Revivals(DEPLOYMENT, r[..1][..0], "alice") == 0;
    w1 := Run(DEPLOYMENT, START, r[..1]);
    w2 := Run(DEPLOYMENT, START, r[..2]);
    w := Run(DEPLOYMENT, START, r);
  }

  lemma TwoIds()
    ensures IdOf("a") != IdOf("b")
  {
    hide Naming.Sanitize;
    assert IdOf("a")[|IdOf("a")| - 1] == 'a' && IdOf("b")[|IdOf("b")| - 1] == 'b';
  }

  lemma NoneRevived(t: Tables, t': Tables)
    requires forall k :: k in t.rows && t.rows[k].status == Errored && k in t'.rows ==> t'.rows[k] == t.rows[k]
    ensures !Requests.Revives(t, t', "alice")
  {
  }
}
