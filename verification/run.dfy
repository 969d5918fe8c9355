/** AddMachineCommand.Run: routing, submission with the 1.18 fallback, and the
    report of per-machine results, as a trace of effects and an exit. */
module AddMachineRun {
  import opened Instance
  import opened Params
  import opened AddMachineInit
  import opened AddMachineRoute
  import opened AddMachineSubmit
  import opened AddMachineResults

  /** A batch never fans one placement directive out over several machines. */
  predicate Undirected(batch: seq<AddMachineParams>) {
    |batch| <= 1 || forall i :: 0 <= i < |batch| ==>
      batch[i].placement.None? || batch[i].placement.value.directive == ""
  }

  /** Runs a validated command against the API client and the collaborators. */
  method Run(c: Command, config: Config, client: Client, provision: Provisioner,
             parseContainerType: ContainerTypeParser, isContainerMachine: ContainerMachineTest)
    returns (effects: seq<Effect>, exit: Exit)
    // Manual provisioning: one provisioner call with the directive as host,
    // a creation line only on success, and the provisioner's error verbatim.
    ensures var route := RouteCommand(c, config, client.environmentUUID);
            route.Manual? ==>
              var reply := provision(route.args);
              && (reply.err.None? ==>
                    effects == [ProvisionCall(route.args), Info("created machine " + reply.machineId)]
                    && exit == Success)
              && (reply.err.Some? ==> effects == [ProvisionCall(route.args)] && exit == Failed(reply.err.value))
    // Refusals and the negative-count panic happen before any call.
    ensures var route := RouteCommand(c, config, client.environmentUUID);
            route.Reject? ==> effects == [] && exit == Failed(route.err)
    ensures var route := RouteCommand(c, config, client.environmentUUID);
            route.Crash? ==> effects == [] && exit == Panicked
    // A batch: the API calls come first; a failed submission ends the run with
    // its error, otherwise the results are reported.
    ensures var route := RouteCommand(c, config, client.environmentUUID);
            route.Batch? ==>
              var s := SubmitBatch(route.request, route.count, client, parseContainerType);
              && |s.calls| <= |effects|
              && effects[..|s.calls|] == s.calls
              && (s.outcome.Err? ==> effects == s.calls && exit == Failed(s.outcome.error))
              && (s.outcome.Ok? ==> Aggregated(s.outcome.value, isContainerMachine, effects[|s.calls|..], exit))
    // Only an ssh placement reaches the manual provisioner.
    ensures !IsSsh(c.placement) ==> forall i :: 0 <= i < |effects| ==> !effects[i].ProvisionCall?
    // A command Init accepted never sends one directive for several machines.
    ensures Accepted(c) ==>
              forall i :: 0 <= i < |effects| && effects[i].AddMachinesCall? ==> Undirected(effects[i].batch)
  {
    var route := RouteCommand(c, config, client.environmentUUID);
    match route
    case Manual(args) =>
      var reply := provision(args);
      effects := [ProvisionCall(args)];
      if reply.err.None? {
        effects := effects + [Info("created machine " + reply.machineId)];
        exit := Success;
      } else {
        exit := Failed(reply.err.value);
      }
    case Reject(err) =>
      effects := [];
      exit := Failed(err);
    case Crash =>
      effects := [];
      exit := Panicked;
    case Batch(request, count) =>
      var s := SubmitBatch(request, count, client, parseContainerType);
      effects := s.calls;
      if s.outcome.Err? {
        exit := Failed(s.outcome.error);
      } else {
        var lines;
        lines, exit := Aggregate(s.outcome.value, isContainerMachine);
        effects := effects + lines;
        assert effects[|s.calls|..] == lines;
      }
      assert Accepted(c) ==> Undirected(Replicate(request, count));
  }
}
