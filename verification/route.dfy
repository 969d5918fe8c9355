/** Strategy selection in AddMachineCommand.Run: manual provisioning, rejection,
    or a batch of identical machine requests. */
module AddMachineRoute {
  import opened Common
  import opened Errors
  import opened Instance
  import opened Params
  import opened AddMachineInit

  /** Where Run goes after looking at the placement. */
  datatype Route =
      /** Adopt an existing host over SSH. */
    | Manual(args: ProvisionArgs)
      /** Refuse before any API call. */
    | Reject(err: Error)
      /** A negative machine count: Go's make panics on the batch slice. */
    | Crash
      /** Send `count` copies of `request` to AddMachines. */
    | Batch(request: AddMachineParams, count: nat)

  /** The jobs every requested machine gets. */
  function Jobs(providerType: string): (jobs: seq<MachineJob>)
    ensures |jobs| >= 1 && jobs[0] == JobHostUnits
    ensures JobManageNetworking in jobs <==> providerType != Maas
    ensures forall i, j :: 0 <= i < j < |jobs| ==> jobs[i] != jobs[j]
  {
    if providerType != Maas then [JobHostUnits, JobManageNetworking] else [JobHostUnits]
  }

  /** Replaces the env-uuid pseudo-scope by the environment's UUID; any other
      placement, and the directive, are left alone. */
  function ResolveScope(placement: Option<Placement>, environmentUUID: string): (r: Option<Placement>)
    ensures placement.None? ==> r.None?
    ensures placement.Some? && placement.value.scope != EnvUUIDScope ==> r == placement
    ensures placement.Some? && placement.value.scope == EnvUUIDScope ==>
              r == Some(Placement(environmentUUID, placement.value.directive))
    // The pseudo-scope survives only when the UUID itself spells it.
    ensures r.Some? && r.value.scope == EnvUUIDScope ==> environmentUUID == EnvUUIDScope
  {
    match placement
    case None => None
    case Some(p) => if p.scope == EnvUUIDScope then Some(p.(scope := environmentUUID)) else placement
  }

  /** Resolving an already resolved placement changes nothing. */
  lemma ResolveScopeIdempotent(placement: Option<Placement>, environmentUUID: string)
    requires environmentUUID != EnvUUIDScope
    ensures ResolveScope(ResolveScope(placement, environmentUUID), environmentUUID)
              == ResolveScope(placement, environmentUUID)
  {
  }

  predicate IsSsh(placement: Option<Placement>) {
    placement.Some? && placement.value.scope == SshScope
  }

  /** Chooses the strategy for a validated command. */
  function RouteCommand(c: Command, config: Config, environmentUUID: string): (r: Route)
    ensures r.Manual? <==> IsSsh(c.placement)
    ensures r.Manual? ==>
              r.args == ProvisionArgs(c.placement.value.directive,
                                      UpdateBehavior(config.enableOSRefreshUpdate, config.enableOSUpgrade))
    // The machine-scope check sees the scope after env-uuid has been resolved.
    ensures r.Reject? <==>
              !IsSsh(c.placement)
              && ResolveScope(c.placement, environmentUUID).Some?
              && ResolveScope(c.placement, environmentUUID).value.scope == MachineScope
    ensures r.Reject? ==> r.err == MachineIdNotAllowed
    ensures r.Crash? <==> !r.Manual? && !r.Reject? && c.numMachines < 0
    ensures r.Batch? ==>
              && r.count == c.numMachines
              && r.request == AddMachineParams(c.series, c.constraints, Jobs(config.providerType),
                                               ResolveScope(c.placement, environmentUUID), "", "")
  {
    if IsSsh(c.placement) then
      Manual(ProvisionArgs(c.placement.value.directive,
                           UpdateBehavior(config.enableOSRefreshUpdate, config.enableOSUpgrade)))
    else
      var placement := ResolveScope(c.placement, environmentUUID);
      if placement.Some? && placement.value.scope == MachineScope then
        Reject(MachineIdNotAllowed)
      else if c.numMachines < 0 then
        Crash
      else
        Batch(AddMachineParams(c.series, c.constraints, Jobs(config.providerType), placement, "", ""),
              c.numMachines)
  }
}
