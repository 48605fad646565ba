/** The domain types of the control plane: statuses, environments, exposures, principals
    and the two-tier access policy. */
module Model {
  import opened Wrappers

  datatype Status =
    | Creating | Ready | Starting | Stopping | Destroying | Stopped
    | Errored | DestroyFailed | Destroyed

  /** A dead environment still owns its row, but no longer owns its name. */
  predicate Dead(s: Status) {
    s.Destroyed? || s.Errored?
  }

  datatype Exposure = Exposure(port: int, access: seq<string>)

  /** What `args_hash` digests. The digest itself is taken to be collision free. */
  datatype ArgsKey = ArgsKey(template: string, args: map<string, string>)

  /** The environment record that the control plane carries around. `generation` and
      `operation` are the fencing values; `None` is the empty string of the source. */
  datatype Environment = Environment(
    id: string,
    key: ArgsKey,
    backend: string,
    owner: string,
    status: Status,
    ip: Option<string>,
    url: Option<string>,
    error: string,
    createdAt: int,
    expiresAt: Option<int>,
    sharedWith: set<string>,
    exposures: map<string, Exposure>,
    generation: Option<nat>,
    operation: Option<nat>)

  datatype Principal = Principal(id: string, admin: bool)

  predicate IsOwner(actor: Principal, inst: Environment) {
    actor.admin || inst.owner == actor.id
  }

  predicate CanView(actor: Principal, inst: Environment) {
    actor.admin || IsOwner(actor, inst) || actor.id in inst.sharedWith
  }
}
