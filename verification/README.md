# cawl, modelled and proved in Dafny

cawl's control plane hands out development environments: it reserves a name, creates an
instance on a runtime backend, publishes hostnames for its ports, and takes all of it down
again. This project models the parts whose correctness is hardest to see from reading one
function at a time, and proves what they keep.

| files | what they model |
|---|---|
| `Model`, `Tables`, `StateStore`, `Fence`, `Quota`, `FenceWitnesses` | The durable store: its tables and one function per database transaction; the store object that runs those transactions in place; any number of workers interleaving them, with the records that calls read and later write back; runs that use the quota bound up, and runs that reach what the fence does not cover. |
| `Ingress` | The Traefik route files as a view of an environment's exposures and address. |
| `Control`, `ControlPlane` | The control plane: what each call does to store, runtime and route files, given how everything outside answers; and the object that does it step by step. |
| `Outcomes`, `Requests` | What each call answers and leaves, told from the rows, the actor, the request and what the outside answers; the quota over runs of calls. |
| `Courses`, `Commits`, `Frames`, `Access`, `Lifecycle`, `Backing`, `Reuse`, `Effects`, `Witnesses` | What an `up` will do, told before it does it; what sequential runs of calls keep, whatever fails outside; runs that reach the exceptions. |
| `Egress`, `Hostnames`, `EgressProxy`, `EgressRuns` | The egress policy document and the hostnames it takes, its locked writer and its cached reader, alone and interleaved. |
| `Params`, `Hooks`, `Shell`, `Config`, `Ttl`, `Naming`, `Slugs`, `Strings` | The template language: arguments, placeholders, shell quoting against a shell lexer, template validation, lifetimes, ids and hostname labels. |
| `WebAuth`, `SignIn` | Viewer sign-in: magic-link tokens, hand-off codes and cookies, with requests interleaving, and the forward-auth decision. |

`dafny verify dfyconfig.toml` checks everything.

## How it is modelled

* The state that the source changes in place is a class (`DjangoStateStore`, `TraefikIngress`,
  `ControlPlane`, `JsonPolicyStore`, `SourcePolicyStore`, `ViewerLogin`). Every method that
  changes state is proved equal to a function on values, and the theorems are about runs of
  those functions.
* A transaction of the store is one atomic step. `transaction.atomic()`, row locks and unique
  constraints are taken to give that; the rollback of `reserve` and `set_exposure` is modelled.
* Generations and operation ids are UUIDs in the source. Here they come from a counter: they
  never repeat.
* Everything outside a call (runtime, SSH certificate, egress, file system) is its `Answers`:
  which calls raise, which addresses are reported, and the text of whatever error is recorded.
  Theorems quantify over all of them. The random suffixes of generated ids, the clock, and the
  order in which the reaper's query lists rows are arguments too.
* A route file that cannot be written or removed is left as it was, for the writer renames a
  complete file into place.
* `args_hash` is the pair it digests (template and resolved arguments), so it is injective.
* In `Fence` a worker keeps every record it was ever handed, and a call holds the record it read
  or reserved, which it may write back with `upsert`, until it does or ends: the writes of
  `_sync_exposures`, `_destroy` and the cleanup of `up`, which compare nothing. A write back is one
  step, its read another; the two statements of one `upsert` are taken as one step even where no
  transaction surrounds them, an assumption that the theorems need
  (`FenceWitnesses.CommitBetweenStatements`). In `Control` calls run one at a time.
* Signed values are the set of values the daemon has issued.

## Where the code and its own documentation differ

The model follows the code.

* `naming.py` 18-19 says expose keys are kept short so that the default label stays within 63
  characters. It does so exactly when key and id together are at most 61 characters
  (`Naming.DefaultLabelLegal`, `Naming.OverlongLabel`); a `web` key always does.
* Generated ids (`naming.py` 34-36) can start with a digit. Exactly then `validate_name` and
  `validate_exposure_label` refuse an id that the daemon itself produced
  (`Naming.GeneratedIdAccepted`, `Naming.DigitIdRefused`), and `expose` without a name, whose
  default is that id, raises an invalid name (`Effects.BareExposeRefused`).
* `egress.py` 65-66 says `unregister` removes all matching policies. With an address it removes
  that address, whoever has it, and leaves any other address of the environment
  (`Egress.UnregisterIs`).
* `params.py` 49-52 says values are printable ASCII. One trailing newline passes, because `$`
  matches before it, and supplied names are let through the same way: what is accepted is as
  documented exactly when it does not end in a newline (`Params.NewlinePasses`). Declared names are
  checked against no pattern, so `resolve` is idempotent only under the condition of
  `Params.ResolveIdempotentIff`, and a hook sees its values as shell variables only under that of
  `Hooks.HookSeesItsValues`.
* `ingress.py` 76 calls every router fail-closed, and 5-6 and 12-14 say that forward-auth guards
  each exposed host and that its `/.cawl/` path goes to the daemon. The router of that path has no
  forward-auth and names the service `cawl-daemon`. The environment `cawl` exposing `daemon`, both
  of which every check accepts, defines that service itself, and then the path leads to the
  environment without forward-auth (`Ingress.FailClosedIff`, `Ingress.DaemonShadowed`). The path's
  router is missing when the environment also exposes `<name>-cawl`, whose router takes the same
  key. In no other case does an exposed host fail to route the path to the daemon
  (`Ingress.HandoffRoutedIff`).
* Router names are distinct within one file, but the files of two environments can name a router
  alike (`Ingress.DocumentsShareIff`, `Ingress.KeysCollide`), and the names of the shared file can
  be taken as well (`Ingress.SharedNamesIff`).
* `webauth.py` 207 calls the hand-off code one-time. It is bound to its host and to 60 seconds,
  not to one use (`WebAuth.CodesAreNotSingleUse`).
* Deleting an environment ends neither the operation that may be in flight on it nor the calls
  that hold a record of it. A deletion is final until the name is reserved again exactly when no
  operation is outstanding and no call under way holds such a record (`Fence.DeletionIsFinalIff`).
  The quota holds up to the deletions that hit an operation in flight and the unfenced writes that
  make a row count, or stop one counting that has an operation in flight (`Fence.QuotaBound`),
  which is exact (`Quota.QuotaIsTight`). Even calls that run one at a time can exceed it: an
  environment in error does not count, and does again when its teardown fails
  (`Requests.CallsUnderQuota`, `Witnesses.OverTheQuota`).
* `store.py` 121-127 fences stale workers off a reclaimed name, and completions are fenced
  (`Fence.ReclaimedNameIsFenced`). The unfenced writes are not: a record read before the name was
  reclaimed overwrites the new holder's row, owner included
  (`FenceWitnesses.ReclaimedNameOverwritten`), and it can bring back a row that does not lease its
  own id, which another environment can then expose (`FenceWitnesses.LiveIdExposedByAnother`). The
  runtime is not fenced either: a `destroy` that comes late takes the instance and the row of
  whoever reclaimed the name (`FenceWitnesses.LateDestroyTakesTheReclaimed`).
* `up` builds its spec outside its `try`. When it has reserved a name and the spec cannot be
  built, which can be told before the call (`Courses.UpRaisesIff`), it leaves a `creating` row with
  an open operation. When calls run one at a time those are the only operations left open between
  them (`Lifecycle.ClosedAtRest`). With templates that the parser accepts it happens exactly when the
  deployment's part fails or the hook names an optional parameter that has no default and was not
  supplied (`Lifecycle.NothingAbandonedIff`); `Witnesses.OperationLeftOpen` is such a run.
* When publishing the routes fails after `up` has committed and the teardown that follows works, the
  row stays `ready` although the instance is gone. That is the only way to lose one
  (`Backing.ProvisionBacks`), so in every sequential run the ready or stopped rows without their instance are
  exactly those reserved by such an `up` (`Backing.RowsWithoutInstance`);
  `Witnesses.ReadyWithoutInstance` is such a run.

## Model

| member | source | states |
|---|---|---|
| Fence.ReserveShape | server/environments/store.py:48-91 | A reservation that succeeds is under the quota, writes a row of a new generation with one open operation over an absent or dead one, drops the leases, exposures and grants of the name's last holder and no other's, and leases the name. |
| Fence.ReserveFailureChangesNothing | server/environments/store.py:58-91 | Reserve takes row, operation and lease together or leaves the store as it was. |
| Fence.BeginShape | server/environments/store.py:93-119 | An operation begins exactly on a row without one and in an expected status; otherwise nothing changes. |
| Fence.CompleteShape | server/environments/store.py:121-160 | A completion changes the store exactly when its record holds the row's generation and unfinished active operation, and then only that row and that operation. |
| Fence.RunKeeps | server/environments/store.py:21-347 | Every interleaving of the store's transactions and of the unfenced writes of records read before keeps the invariants on operations, names, tickets and held records. |
| Fence.StaleForever | server/environments/store.py:121-160 | A record that the fence refuses is refused in every continuation. |
| Fence.ReclaimedNameIsFenced | server/environments/models.py:96-100 | After a name is reclaimed, no record handed out for it before can change anything by completing, whatever it writes and whatever happens in between. |
| Fence.OpenOperations | server/environments/models.py:109-133 | In every interleaving the unfinished operations of a row's current generation are its active operation or none. |
| Fence.NoOverlap | server/environments/store.py:93-119 | No two operations of one environment and generation are unfinished together. |
| Fence.OperationsFinishOnce | server/environments/store.py:137-148 | An operation record leaves the queue at most once and never changes again. |
| Fence.QuotaBound | server/environments/store.py:60-63 | With every reservation of an owner under quota q, the owner's active environments never exceed q plus the deletions that hit an environment with an operation in flight plus the unfenced writes that make a row count which did not, or stop one counting that has an operation in flight. |
| Quota.QuotaIsTight | server/environments/store.py:327-344 | The bound is exact: for every quota of at least one, every number of deletions in flight and every number of unfenced writes, some run leaves exactly their sum active. |
| Fence.OneNamespace | server/environments/models.py:136-145 | In every interleaving an exposed label is leased to the one environment exposing it, and is never the id of another that was reserved and not deleted since. |
| Fence.DestroyedAtRestIsFinal | server/environments/store.py:327-347 | A destroyed row without an operation, of which no call holds a record, stays so until its name is reserved. |
| Fence.DeletionIsFinalIff | server/environments/store.py:342-344 | A destroyed row stays destroyed until reserved again, in every continuation, exactly when no operation is outstanding on it and no call under way holds a record of it. |
| Fence.UpsertShape | server/environments/store.py:162-197 | An unfenced write replaces what the record carries and keeps generation and operation, or, for a creating record over a dead row, starts a generation at rest, drops the exposures and leases nothing. |
| Fence.OwnersKept | server/cawl_core/control.py:519-522 | In every interleaving a row belongs to whoever its generation was handed out for, unless an unfenced write gave it another owner. |
| FenceWitnesses.ReclaimedNameOverwritten | server/cawl_core/control.py:519-522 | A run in which a record read before a name was reclaimed overwrites the row of the new holder, whose operation stays open on it. |
| FenceWitnesses.LiveIdExposedByAnother | server/cawl_core/control.py:519-522 | A run in which such a write brings a row back without its lease, and another environment exposes its id. |
| FenceWitnesses.CommitBetweenStatements | server/environments/store.py:166-197 | When a completion commits between the fetch and the save of one unfenced upsert, the row is left under a finished operation, and no operation can begin or complete on it. |
| FenceWitnesses.LateDestroyTakesTheReclaimed | server/cawl_core/control.py:622-636 | A run in which the second of two overlapping destroys takes the instance, and then the row, of whoever reclaimed the name. |
| StateStore.LatestMisses | server/environments/store.py:211-217 | The search for a reusable environment comes back empty exactly when no row matches. |
| StateStore.LatestIs | server/environments/store.py:213-217 | What it finds is the newest matching row that is not destroyed. |
| StateStore.DjangoStateStore.Reserve | server/environments/store.py:48-91 | The transaction, rollback included, is the reservation the theorems are about. |
| StateStore.DjangoStateStore.BeginOperation | server/environments/store.py:93-119 | Refines beginning an operation. |
| StateStore.DjangoStateStore.CompleteOperation | server/environments/store.py:121-160 | Refines the fenced completion, clearing the record's operation only when it lands. |
| StateStore.DjangoStateStore.Upsert | server/environments/store.py:162-197 | Refines the write: a new row over a dead one for a creating record, the record's fields otherwise. |
| StateStore.DjangoStateStore.Find | server/environments/store.py:211-217 | The search, row by row in any order, returns the newest match. |
| StateStore.DjangoStateStore.SetExposure | server/environments/store.py:281-305 | Takes lease and exposure together, or neither on a conflict. |
| StateStore.DjangoStateStore.RemoveExposure | server/environments/store.py:307-320 | Removes the exposure and its lease, except the lease on the environment's own id. |
| StateStore.DjangoStateStore.Delete | server/environments/store.py:327-347 | Revokes grants, exposures and leases, leaving generation and active operation. |
| Ingress.TraefikIngress.RenderRoutes | server/cawl_core/ingress.py:66-93 | Filling the document in exposure by exposure gives the document defined without any order. |
| Ingress.TraefikIngress.Sync | server/cawl_core/ingress.py:51-61 | Leaves the rendering of the environment's exposures and address as its file, or no file when there is nothing to route. |
| Ingress.EveryRouterIsGated | server/cawl_core/ingress.py:69-92 | Every router demands forward-auth and leads to the environment's own service, or is the daemon's own path under the name of the daemon's service, which the file leaves undefined unless the environment shadows it. |
| Ingress.FailClosedIff | server/cawl_core/ingress.py:71-92 | A file leads some router without forward-auth to a service of its own exactly for the environment `cawl` exposing `daemon`. |
| Ingress.DaemonShadowed | server/cawl_core/ingress.py:79-92 | An id and a label that the validators accept, whose file does so. |
| Ingress.HostRoutedIff | server/cawl_core/ingress.py:70-92 | Exactly the exposed hosts are routed to the environment behind forward-auth, each to its own port; without it, on the daemon's path, none, unless the environment shadows the daemon. |
| Ingress.HandoffRoutedIff | server/cawl_core/ingress.py:79-87 | An exposed host routes its sign-in path to a service that the file leaves to the daemon exactly when the environment neither exposes the label with `-cawl` appended nor shadows the daemon. |
| Ingress.SameKeyIff | server/cawl_core/ingress.py:71-71 | The router keys of two environments are the same exactly when one id continues the other by a piece that, with a dash, starts the other's label. |
| Ingress.DocumentsShareIff | server/cawl_core/ingress.py:69-93 | Two environments' files share a router name exactly when such a pair of labels, hand-off labels included, is exposed. |
| Ingress.SharedNamesIff | server/cawl_core/ingress.py:95-134 | An environment's file takes the name of the daemon's service or of the auth host's router exactly when its id and a label split that name at a dash. |
| Ingress.KeysCollide | server/cawl_core/ingress.py:71-71 | Two valid ids and labels with one router key. |
| ControlPlane.ControlPlane.Up | server/cawl_core/control.py:217-353 | Step by step, does what the value model of the call says, whatever the outside answers. |
| ControlPlane.ControlPlane.Claim | server/cawl_core/control.py:290-304 | Reserves the pinned name, or the first free one of ten generated ids. |
| ControlPlane.ControlPlane.Provision | server/cawl_core/control.py:306-325 | Refines the provisioning of a reserved record up to its commit. |
| ControlPlane.ControlPlane.ExposeDefaults | server/cawl_core/control.py:317-320 | The loop over the template's default exposures stops at the first conflict, keeping those before it. |
| ControlPlane.ControlPlane.Publish | server/cawl_core/control.py:321-326 | Refines commit and publication, with the failure of either. |
| ControlPlane.ControlPlane.Abort | server/cawl_core/control.py:327-351 | Refines the failure branch: record the error, tear down only what this call created. |
| ControlPlane.ControlPlane.Resume | server/cawl_core/control.py:586-614 | Refines resuming, with every way to fail. |
| ControlPlane.ControlPlane.Stop | server/cawl_core/control.py:528-561 | Refines stopping, with every way to fail. |
| ControlPlane.ControlPlane.Start | server/cawl_core/control.py:563-584 | Refines starting. |
| ControlPlane.ControlPlane.Teardown | server/cawl_core/control.py:622-636 | Refines teardown, with every way to fail. |
| ControlPlane.ControlPlane.Reap | server/cawl_core/control.py:656-663 | The pass queries what has expired, in whatever order it is listed, and tears it down until the first failure. |
| ControlPlane.ControlPlane.Expose | server/cawl_core/control.py:486-525 | Refines exposing a port. |
| ControlPlane.ControlPlane.Unexpose | server/cawl_core/control.py:512-525 | Refines unexposing it. |
| ControlPlane.ControlPlane.Share | server/cawl_core/control.py:442-448 | Refines granting access. |
| ControlPlane.ControlPlane.Unshare | server/cawl_core/control.py:450-458 | Refines revoking it. |
| Commits.ResumeCommits | server/cawl_core/control.py:586-614 | However resuming fails, it commits one result of its operation, running exactly when backend, spec, runtime and certificate work, and publishes routes exactly when it returns. |
| Commits.StopCommits | server/cawl_core/control.py:540-561 | However stopping fails, it commits one result, stopped without address exactly when egress, backend and runtime work, or running as before; the route file goes exactly when the call returns. |
| Commits.PublishCommits | server/cawl_core/control.py:321-351 | However publishing ends, the row is ready unless routes and teardown both fail, the call raises exactly when the routes fail, and the instance goes exactly when the teardown that follows works. |
| Courses.CreateIs | server/cawl_core/control.py:259-326 | Making an environment is a refused claim that changes nothing, an abandoned reservation exactly when the spec cannot be built, or a provisioning. |
| Courses.UpRaisesIff | server/cawl_core/control.py:306-306 | `up` fails on its spec exactly when the request reserves a name and its spec cannot be built, both told before the call. |
| Courses.UnbuildableIff | server/cawl_core/control.py:192-215 | For an accepted template the spec cannot be built exactly when the deployment's part fails or the hook names an optional parameter that has no default and was not supplied. |
| Courses.HandedBack | server/cawl_core/control.py:159-182 | An `up` hands an environment back only on request for reuse, as its row is, to its owner or an admin or, asked by name, to whoever may view it. |
| Frames.ReserveAnyReserves | server/cawl_core/control.py:296-304 | Whatever ids were tried and refused before, the reservation that results is one reservation from the unchanged store. |
| Access.StepTouches | server/cawl_core/control.py:217-636 | Each call but the reaper's moves at most one environment, and a live one only for its owner, an admin, or a grantee resuming it by name. |
| Access.StrangersChangeNothing | server/cawl_core/auth.py:44-70 | In every run, a call by one who is no admin, owner or grantee of a live environment changes none of its row, operations, leases, exposures, grants, instances and route file. |
| Access.GranteesOnlyResume | server/cawl_core/control.py:176-181 | In every run, the only change a grantee's call makes to a live environment is to resume it from stopped, by `up` with its name and reuse. |
| Lifecycle.RunKeeps | server/cawl_core/control.py:217-663 | Every sequential run, with any call outside failing, keeps conservation of instances, closed operations and, while publishing works, the route view. |
| Lifecycle.NoOrphans | server/cawl_core/control.py:331-351 | An instance created and not since destroyed belongs to a row that is neither destroyed nor error and records its backend; create is never called over an instance alive. |
| Lifecycle.AliveNamesAreKept | server/cawl_core/control.py:629-636 | The name of an instance alive can be reserved by nobody. |
| Lifecycle.ClosedAtRest | server/cawl_core/control.py:306-351 | Between calls the unfinished operations are exactly those reserved by an `up` whose spec cannot be built, a condition on its request, store and answers, and every other row is at rest without an operation. |
| Lifecycle.SpecFailsIff | server/cawl_core/control.py:217-663 | A call of any kind fails on its spec exactly when it is such an `up`. |
| Lifecycle.NothingAbandonedIff | server/cawl_core/control.py:192-215 | With accepted templates, a run leaves no operation open exactly when none of its requests reserves a name while the deployment's part fails or the hook names an omitted optional parameter. |
| Witnesses.OperationLeftOpen | server/cawl_core/control.py:306-306 | One `up` of an accepted template, everything outside working, leaves a creating row with its operation open. |
| Backing.ProvisionBacks | server/cawl_core/control.py:306-351 | After provisioning a reserved record its row is not ready or stopped, or its instance is alive, except exactly when everything up to the commit worked, the routes did not, and the teardown did. |
| Backing.RowsWithoutInstance | server/cawl_core/control.py:327-351 | In every run, a ready or stopped environment lacks the instance it records exactly when its generation was reserved by such an `up`, told from the requests. |
| Witnesses.ReadyWithoutInstance | server/cawl_core/control.py:326-351 | One `up` from the empty deployment ends with such a row. |
| Lifecycle.RoutesAreAView | server/cawl_core/control.py:316-326 | In runs where ingress and egress do not fail, an environment has a route file exactly when it is ready with an address and an exposure, and the file is the rendering of both. |
| Reuse.StepDates | server/environments/store.py:195-195 | No call moves a creation time, and a row that is new carries the clock of the `up` that made it. |
| Reuse.RowsAreOlder | server/environments/store.py:213-216 | So every row is older than the clock of an `up` later than all before it. |
| Reuse.UpTwice | server/cawl_core/control.py:241-257 | With a clock that moves on, a reusing `up` that succeeds is the last to change anything: asking the same again returns the same environment and changes nothing, whatever the outside answers. |
| Effects.UpDelivers | server/cawl_core/control.py:271-326 | In every run, an `up` that makes an environment and returns delivers a name nobody held, ready at the reported address, alive under its backend, its id and every default exposure leased and in place, its lifetime as asked, its operation succeeded, with no grant and no other exposure. |
| Effects.ExposeDefaultsExposes | server/cawl_core/control.py:316-320 | Every default exposure is there on its port, and none the template does not declare is touched. |
| Effects.DestroyLeavesNothing | server/cawl_core/control.py:616-636 | A destroy that returns leaves no lease, exposure, grant, route file or instance under any backend. |
| Outcomes.StopOutcome | server/cawl_core/control.py:528-561 | Stopping a ready environment at rest, by its owner or an admin: it ends stopped without an address exactly when egress, backend and runtime work, and otherwise ready as before with the reason; the call returns exactly when the route file goes as well. |
| Outcomes.StopRefused | server/cawl_core/control.py:534-543 | Every other stop changes nothing: not found, not permitted, already stopped, or not running. |
| Outcomes.ResumeOutcome | server/cawl_core/control.py:586-614 | Resuming a stopped environment at rest: it ends ready at the reported address exactly when backend, spec, runtime and certificate work, and otherwise stopped with the reason; the call returns exactly when the routes are published as well. |
| Outcomes.StartIs | server/cawl_core/control.py:575-584 | A start is refused, returns a ready environment as it is, or resumes a stopped one at rest. |
| Outcomes.TeardownOutcome | server/cawl_core/control.py:622-636 | Tearing down: which of route file, instance and row go for each combination of failures, and when the row is left `destroy_failed`. |
| Outcomes.DestroyIs | server/cawl_core/control.py:616-620 | A destroy is refused, or tears down the environment as its row has it. |
| Outcomes.ReapSpares | server/cawl_core/control.py:656-663 | In every run, a reaper pass, returning or raising, leaves an environment alone whose lifetime is not over: row, operations, leases, exposures, grants, instances and route file; a pass by anyone but an admin does nothing. |
| Outcomes.ReapClears | server/cawl_core/control.py:656-663 | In every run, a pass that returns has destroyed everything whose lifetime was over. |
| Outcomes.ReapReturnsIff | server/cawl_core/control.py:656-663 | A pass by an admin returns exactly if every teardown in it works. |
| Outcomes.ExposeIs | server/cawl_core/control.py:486-525 | An expose is refused for the first thing that is wrong, or leases and exposes the label and publishes; the row's front door and the routes follow. |
| Outcomes.UnexposeIs | server/cawl_core/control.py:512-525 | An unexpose is refused, or takes the label and its lease, but for the environment's own id. |
| Outcomes.FrontDoorIs | server/cawl_core/control.py:465-471 | The primary URL is that of the environment's own id, or of its only label, or none. |
| Outcomes.FreeIff | server/cawl_core/control.py:473-484 | A label is free unless another environment that is not destroyed exposes it, another live one has it as its id, or it is the sign-in host's. |
| Outcomes.AccessIs | server/cawl_core/control.py:507-507 | The access list is the addresses given, stripped and lowered, blanks left out, each once. |
| Outcomes.ShareIs | server/cawl_core/control.py:442-448 | A share is refused, or adds exactly that grant. |
| Outcomes.UnshareIs | server/cawl_core/control.py:450-458 | An unshare is refused, or removes exactly that grant. |
| Outcomes.ProvisionOutcome | server/cawl_core/control.py:306-351 | For every combination of failures, the row, operation, instance and answer that provisioning a reserved record ends with. |
| Outcomes.PublishSuperseded | server/cawl_core/control.py:324-350 | A record superseded before its commit raises, its instance is torn down, and its row changes only when that fails too. |
| Outcomes.ResumeSuperseded | server/cawl_core/control.py:600-613 | Resuming a superseded record raises and changes nothing. |
| Requests.NamedCourse | server/cawl_core/control.py:159-182 | A named `up` is refused, makes the environment, or hands back the live one, to an admin, its owner or a grantee who asks for reuse. |
| Requests.UnnamedCourse | server/cawl_core/control.py:246-257 | An unnamed one makes an environment unless reuse is asked for and the last created alike is not in error. |
| Requests.ReuseIs | server/cawl_core/control.py:355-371 | Handing back resumes a stopped environment, refuses one whose teardown failed, and returns any other as it is. |
| Requests.MakeIs | server/cawl_core/control.py:259-304 | Asked to make an environment, `up` reserves exactly when lifetime and backend are accepted, quota is left and a name is free, and is otherwise refused for the first that is not so, changing nothing. |
| Requests.ReservationIs | server/cawl_core/control.py:275-304 | What is reserved: the pinned name or one of ten generated, a row for the request of a new generation, one open operation, the name leased. |
| Requests.UpMakes | server/cawl_core/control.py:306-326 | What is reserved fails on its spec or is provisioned, as told before the call. |
| Requests.QuotaExhaustedIff | server/cawl_core/control.py:259-303 | `up` is refused for its quota exactly when it would make an environment, lifetime and backend are accepted, and the owner's environments that are neither destroyed nor in error are as many as the request's quota, or the deployment's; then nothing changes. |
| Requests.CallsUnderQuota | server/environments/store.py:60-63 | In every sequential run whose `up`s for an owner go under a quota, the owner's environments exceed it by at most the calls that failed to tear down one in error. |
| Requests.RevivedByTeardown | server/cawl_core/control.py:629-635 | Only a destroy or a reaper pass is such a call. |
| Witnesses.OverTheQuota | server/cawl_core/control.py:629-635 | Three calls under a quota of one that reach the bound. |
| Effects.StopThenStart | server/cawl_core/control.py:528-614 | Stop, then start: the row is as it was but for the new address, exposures, leases and grants untouched, routes gone in between and back at the new address. |
| Effects.ExposeThenUnexpose | server/cawl_core/control.py:486-525 | Exposing a label that nobody else has, the environment's own id included, and unexposing it restores exposures, grants and leases, but for the lease on the environment's own id. |
| Effects.ShareThenUnshare | server/cawl_core/control.py:442-458 | A grant admits its principal; revoking it restores everything. |
| Egress.NormalizeIdempotent | server/cawl_core/egress.py:17-32 | A normalized hostname is its own normal form. |
| Egress.CleanHostsIs | server/cawl_core/egress.py:43-44 | Normalized host lists are without repetition and normalize to themselves. |
| Egress.SoundReadsBack | server/cawl_core/egress.py:91-109 | A document the writer leaves passes its own validation and reads back unchanged. |
| Egress.ApplyKeepsSound | server/cawl_core/egress.py:124-146 | Register and unregister keep at most one address for each environment. |
| Hostnames.NormalizeIs | server/cawl_core/egress.py:17-32 | A host normalizes to itself in lower case without final dots, exactly when that is 1 to 253 characters out of a-z, 0-9, dash and dot, each piece between dots of 1 to 63 without a dash at either end, and not four decimal octets. |
| Hostnames.CleanHostsAre | server/cawl_core/egress.py:43-44 | A host list is accepted exactly when each host is, as the hostnames they stand for, each once and in order of first mention. |
| Hostnames.ReadIs | server/cawl_core/egress.py:91-109 | A document reads exactly when every entry has an environment and accepted hosts, and reads as itself with those hosts. |
| Hostnames.RegisterIs | server/cawl_core/egress.py:124-135 | Registering works exactly when every host is accepted, and gives the environment exactly that address and those hosts; of the others only the address's last owner loses anything. |
| Egress.UnregisterIs | server/cawl_core/egress.py:137-146 | Unregistering with an address removes that address whoever has it, and leaves the environment registered exactly when it has another. |
| Egress.JsonPolicyStore.ReadFile | server/cawl_core/egress.py:91-109 | The validating loop accepts exactly the readable documents, with their hosts normalized. |
| Egress.JsonPolicyStore.Mutate | server/cawl_core/egress.py:124-146 | One locked read-modify-write writes what the mutation makes of the document, or changes nothing. |
| EgressProxy.SingleContains | server/cawl_core/egress_proxy.py:65-67 | A single-address network contains exactly its own address. |
| EgressProxy.Scan | server/cawl_core/egress_proxy.py:65-68 | The scan over the networks, in any order, is exact lookup of the address. |
| EgressProxy.ProjectIs | server/cawl_core/egress_proxy.py:45-53 | The proxy's map answers for an address what the document says of it. |
| EgressProxy.SourcePolicyStore.Reload | server/cawl_core/egress_proxy.py:34-57 | The cache becomes what was read, stamped with what was seen before reading, or stays as it was. |
| EgressProxy.SourcePolicyStore.HostsFor | server/cawl_core/egress_proxy.py:59-68 | Answers from the reloaded cache by exact lookup. |
| EgressRuns.WritersLinearize | server/cawl_core/egress.py:78-146 | With any number of writers interleaving, crashes included, the document is the fold of the committed mutations in their order, one address for each environment, and reads back unchanged. |
| EgressRuns.CommitsAreWriters | server/cawl_core/egress.py:79-89 | Only the holder of the lock commits, and it commits its own mutation. |
| EgressRuns.ReloadIs | server/cawl_core/egress_proxy.py:34-57 | A stat and the read after it, whatever comes between, replace a proxy's cache, under the time seen before reading, exactly when that time is new and the read succeeds. |
| EgressRuns.ReadersAreFresh | server/cawl_core/egress_proxy.py:34-68 | With distinct modification times, a proxy whose last reload did not fail to read answers from a version at least as new as the file was at its stat. A reload whose read failed is excluded. |
| EgressRuns.VersionsNeverGoBack | server/cawl_core/egress_proxy.py:54-57 | The versions one proxy answers from never go backwards, failed reads included. |
| EgressRuns.RepeatedStampGoesStale | server/cawl_core/egress_proxy.py:35-40 | In every run, a commit is missed by a proxy that looks next, as if it were up to date, exactly when it leaves the time the proxy's cache is stamped with. |
| EgressRuns.StaleAnswer | server/cawl_core/egress_proxy.py:34-68 | A run in which two registrations leave the same time, and a proxy answers nothing for an address that the document has. |
| Params.NewlinePasses | server/cawl_core/params.py:23-27 | What the patterns accept is exactly a documented value or name, or one with a newline appended; it is a documented one exactly when it does not end in a newline. |
| Params.ResolveIff | server/cawl_core/params.py:60-86 | Resolve returns the one map that satisfies every parameter's equation, or fails exactly when an argument is unknown or a parameter rejected. |
| Params.ResolveArgs | server/cawl_core/params.py:78-86 | The loop that fills the resolved arguments computes that map. |
| Params.ResolveIdempotentIff | server/cawl_core/params.py:67-76 | Resolving resolved arguments returns them exactly when there are not too many and their names are legal. |
| Params.ResolveIdempotent | server/cawl_core/params.py:60-86 | In particular for every template with at most MAX_ARGS legally named parameters. |
| Hooks.MatchIff | server/cawl_core/params.py:28-28 | The matcher finds at a position exactly the placeholder the pattern describes. |
| Hooks.ScanIff | server/cawl_core/params.py:100-131 | A script has exactly one leftmost decomposition into literals and placeholders, the scanner's. |
| Hooks.RenderIff | server/cawl_core/params.py:115-134 | A script that is not blank renders exactly when its placeholders are supplied, into the exports and its segments with each placeholder replaced once by the quoted value. |
| Hooks.RenderSorted | server/cawl_core/params.py:132-133 | Any ascending listing of the names gives the same exports. |
| Hooks.HookSeesItsValues | server/cawl_core/params.py:132-134 | A shell that runs what was rendered assigns exactly the values and reaches the body, exactly when every name is assignable and no value holds a NUL. |
| Hooks.BlankHasNoPlaceholders | server/cawl_core/params.py:122-123 | The blank scripts that render to nothing name no placeholder. |
| Shell.QuotedIsOneWord | server/cawl_core/params.py:129-129 | The quoted literal lexes as exactly one word equal to the value exactly when the value has no NUL (sections 2.2.2 and 2.2.3 of the POSIX.1-2017 Shell Command Language). |
| Shell.PreambleRebuilds | server/cawl_core/params.py:132-134 | Run as assignments, the exports rebuild exactly the value map, exactly when every key is a legal name and no value holds a NUL. |
| Config.ParseParams | server/cawl_core/config.py:58-83 | The parameter loop accepts exactly the mappings whose every entry is well formed. |
| Config.ParseExpose | server/cawl_core/config.py:113-124 | The exposure loop accepts exactly the mappings of valid keys to ports, a repeated key keeping its last port. |
| Config.CheckPlaceholders | server/cawl_core/config.py:86-93 | A hook passes exactly when it names declared parameters and builtins only. |
| Config.ParseTemplateConfig | server/cawl_core/config.py:96-145 | A document is accepted exactly when it is well formed, as the template it describes. |
| Config.ProvisionFailsIff | server/cawl_core/control.py:184-201 | For an accepted template and resolved arguments, rendering the hook fails exactly when it names a declared parameter that is optional, has no default and was not supplied. |
| Config.ProvisionNeverFails | server/cawl_core/config.py:110-111 | If every parameter the hook names is required or has a default, rendering never fails. |
| Ttl.ExpiryIs | server/cawl_core/control.py:261-269 | No environment outlives its caller's cap, and the ones without expiry are exactly those without cap and with no lifetime or zero of any unit. |
| Ttl.ParseTtlIs | server/cawl_core/naming.py:110-120 | The lifetimes accepted are exactly whole numbers of seconds, minutes, hours, days or weeks, as so many seconds, and the words for none. |
| Ttl.NumeralReadsBack | server/cawl_core/naming.py:120-120 | The digits are read in base ten. |
| Ttl.ExpiryValue | server/cawl_core/control.py:261-269 | An environment expires after its lifetime or its caller's cap, whichever ends first. |
| Naming.ValidateNameIs | server/cawl_core/naming.py:39-53 | A name is taken exactly if, stripped and lowered, it is 2 to 63 letters, digits and dashes with a letter first, no dash last and no two together; it is returned so, without the newline that `$` forgives. |
| Naming.ValidateExposeKeyIs | server/cawl_core/naming.py:56-66 | An expose key likewise, with 1 to 20 characters. |
| Naming.ValidateExposureLabelIs | server/cawl_core/naming.py:69-79 | A label likewise, with 2 to 63 characters, dashes together allowed but for a first `xn--`. |
| Naming.SanitizeIsSlug | server/cawl_core/naming.py:28-31 | A sanitized name is a nonempty slug of at most the length asked for, without dash at either end and without `--`. |
| Naming.SanitizeKeepsSlugs | server/cawl_core/naming.py:28-31 | A name that already is a slug is kept. |
| Slugs.SanitizeIs | server/cawl_core/naming.py:28-31 | A sanitized name is its runs of letters and digits joined by dashes, cut to the length without a dash left at the end, or `x` if there are none. |
| Naming.GeneratedIdShape | server/cawl_core/naming.py:34-36 | A generated id has at most 63 characters and no `--` for every template name, and has the shape of a name, and of an exposure label, exactly when the template's slug starts with a letter. |
| Naming.GeneratedIdAccepted | server/cawl_core/naming.py:39-79 | The validators take a generated id back, unchanged, exactly then. |
| Naming.DigitIdRefused | server/cawl_core/naming.py:34-36 | A generated id that starts with a digit, refused by both. |
| Effects.BareExposeRefused | server/cawl_core/control.py:500-503 | Exposing an environment under its own generated id raises an invalid name exactly when the id starts with a digit. |
| Naming.DefaultLabelsInjective | server/cawl_core/naming.py:82-88 | Default labels of two environments or two keys never collide, over all validated keys and validated or generated ids. |
| Naming.DefaultLabelLegal | server/cawl_core/naming.py:18-20 | A default label fits 63 octets (section 2.3.4 of RFC 1035) exactly when its key is `web`, which gives the id, or key and id have at most 61 characters; it is a label `expose` accepts exactly when, for `web`, the id starts with a letter, and otherwise it fits and the key is not `xn`. |
| Naming.OverlongLabel | server/cawl_core/naming.py:18-20 | An accepted id and an accepted key whose default label has 85 characters and is refused as a label. |
| Naming.HostRoundTrip | server/cawl_core/naming.py:91-107 | Reading a host back gives the label it was made from exactly when the base domain is nonempty, starts with no white space, and has no `:` or final dot. |
| Naming.HostForgiven | server/cawl_core/naming.py:100-100 | A host is read in lower case, without its final dot or its port. |
| WebAuth.MintedIsGranted | server/environments/webauth.py:256-271 | In every run a magic token was minted for an address that was authorized, at that time, for an exposure at the token's host. |
| WebAuth.ViewerLogin.LoginSubmit | server/environments/webauth.py:256-278 | A token is minted and mailed exactly when the address would be let in. |
| WebAuth.EachTokenOnce | server/environments/webauth.py:116-135 | Whatever interleaves, a magic token signs in at most one request, and only one that found it unexpired. |
| WebAuth.SessionsDescend | server/environments/webauth.py:171-185 | Every session cookie accepted for a host stands for an address signed in by a token minted for that very host while the address was authorized there, at most two session lifetimes and a hand-off ago, or for a Django login. |
| WebAuth.CodesAreNotSingleUse | server/environments/webauth.py:312-336 | A hand-off code buys a cookie at every visit to its host within its minute, and at none outside it. |
| WebAuth.ViewerLogin.ConsumeMagicToken | server/environments/webauth.py:116-135 | The address is returned exactly for a token unused, unexpired and minted for the expected host, and the token is burnt exactly when it is returned for a host. |
| WebAuth.ViewerLogin.Magic | server/environments/webauth.py:282-307 | A magic link hands off exactly when its token is good for its target's host; every other link changes nothing. |
| WebAuth.ViewerLogin.SsoPage | server/environments/webauth.py:240-253 | The sign-in page hands off for the cookie's own host or a Django login, and asks for an address otherwise. |
| WebAuth.ViewerLogin.CallbackPage | server/environments/webauth.py:311-336 | The cookie is set exactly for an issued code of this host at most 60 seconds old. |
| SignIn.ForwardAuthIs | server/environments/webauth.py:139-168 | Forward-auth knows no exposure exactly at a host whose label no creating, ready or stopped environment exposes, asks for a sign-in exactly without a cookie issued for the host within the session lifetime, and lets exactly those through who are listed, admins, the owner or grantees. |
| SignIn.SubmitIs | server/environments/webauth.py:257-278 | A token is minted exactly for an address, not blank, that would be let in at the target; otherwise nothing happens. |
| SignIn.LinkIs | server/environments/api.py:153-158 | Exposing mints a token for each address on the list, if the label's host reads back. |
| SignIn.MagicIs | server/environments/webauth.py:282-307 | A link followed through signs in exactly if its token is unused, unexpired and for the target's host, using it up and issuing one code and one cookie. |
| SignIn.SsoIs | server/environments/webauth.py:240-253 | The sign-in page hands off exactly a visitor known by the cookie for the target's host or by a Django login. |
| SignIn.CallbackIs | server/environments/webauth.py:312-336 | A session cookie is issued exactly for a code of this host at most sixty seconds old. |
| WebAuth.AllowedIsAuthorized | server/environments/webauth.py:139-168 | Whoever forward-auth lets through was signed in for that very host by a token minted while the address was authorized there, or by Django, and may view the environment, or is listed, as things stand now. |
| WebAuth.WithdrawnIsGone | server/environments/webauth.py:86-92 | Unexposing a label or destroying its environment shuts the host at once, whatever cookies exist. |
| WebAuth.RevokedIsOut | server/environments/webauth.py:95-100 | Revoking a grant shuts its holder out at once, unless they own the environment, are an admin or are listed. |

## Left out

- The Incus transport, image baking, `exec`, SSH access and certificates, the CLI, the API handlers, the admin and the deployment: an environment's instance is alive or not, and each call to it returns or raises.
- The egress policy document is not part of the control plane's world: `register` happens inside the runtime's `create` and `start`, and `unregister` is only whether it raises. The document has its own theorems.
- Event history, template version pinning, images, the `egress_policy` column and `ssh` targets: they decide nothing the theorems are about, but an `egress_policy` mismatch, which is one of the ways building a spec fails.
- `sync_ingress`: it renders every row that is not destroyed, so it does not keep the route view.
- `find` among equal creation times: the database may return any; the model returns the least id.
- The names of exposures and environments are ordered by code point; any order that puts a proper prefix first gives the same route document.
- Fence.RunKeeps: takes the two statements of an `upsert` outside a transaction as one step, because what another worker commits between them is overwritten whole, generation and operation included, which voids the invariants (`FenceWitnesses.CommitBetweenStatements`).
- Conservation of instances is proved for calls that run one at a time (`Lifecycle`, `Backing`): when calls overlap it fails, as `FenceWitnesses.LateDestroyTakesTheReclaimed` shows, and no exact condition is given.
- Error texts, and which exception of several reports a failure.
- YAML, JSON, URL and address parsing: the parsed values are the inputs. A parameter mapping is taken to have distinct keys after conversion to strings. Environment ids in policy documents are not empty.
- `Param.pattern` is an arbitrary predicate on the value.
- `str.lower` and `\d` beyond ASCII, except the Kelvin sign, which lowers into ASCII; lifetimes too large for a `timedelta`.
- That `login_submit` answers alike whether or not it mailed a link.
- `_valid_next` is its result, the host of the target or none.
