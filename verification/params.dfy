/** Requests, results and collaborators of the add-machine command. */
module Params {
  import opened Common
  import opened Errors
  import opened Instance

  /** The provider type for which the networking job is withheld (provider.MAAS). */
  const Maas: string := "maas"

  /** Machine constraints: the container sub-constraint, and the rest carried verbatim. */
  datatype Constraints = Constraints(container: Option<string>, other: string)

  /** Machine jobs the command asks for. */
  datatype MachineJob = JobHostUnits | JobManageNetworking

  /** One machine request (params.AddMachineParams). The legacy shape sets
      `containerType` and `parentId` and leaves `placement` nil; "" is Go's zero value. */
  datatype AddMachineParams = AddMachineParams(
    series: string,
    constraints: Constraints,
    jobs: seq<MachineJob>,
    placement: Option<Placement>,
    containerType: string,
    parentId: string)

  /** The outcome for one requested machine: its id, or an error. */
  datatype AddMachinesResult = AddMachinesResult(machine: string, error: Option<Error>)

  /** What an AddMachines call returns: per-machine results, or a call-level error. */
  datatype Reply = Reply(results: seq<AddMachinesResult>, err: Option<Error>)

  /** The API client calls the command uses. */
  datatype Client = Client(
    addMachines: seq<AddMachineParams> -> Reply,
    addMachines1dot18: seq<AddMachineParams> -> Reply,
    environmentUUID: string)

  /** The environment configuration values the command reads. */
  datatype Config = Config(providerType: string, enableOSRefreshUpdate: bool, enableOSUpgrade: bool)

  /** Package update behaviour handed to the manual provisioner. */
  datatype UpdateBehavior = UpdateBehavior(enableOSRefreshUpdate: bool, enableOSUpgrade: bool)

  /** Arguments of manual.ProvisionMachine (client and standard streams not modelled). */
  datatype ProvisionArgs = ProvisionArgs(host: string, updateBehavior: UpdateBehavior)

  /** What manual.ProvisionMachine returns: the new machine's id, or an error. */
  datatype ProvisionReply = ProvisionReply(machineId: string, err: Option<Error>)

  /** manual.ProvisionMachine, whose SSH work is not part of this model. */
  type Provisioner = ProvisionArgs -> ProvisionReply

  /** Observable effects of Run, in order: collaborator calls and lines written. */
  datatype Effect =
    | ProvisionCall(args: ProvisionArgs)
    | AddMachinesCall(batch: seq<AddMachineParams>)
    | AddMachines1dot18Call(batch: seq<AddMachineParams>)
      /** ctx.Infof: one informational line. */
    | Info(line: string)
      /** fmt.Fprintf(ctx.Stderr, ...): text written to standard error. */
    | Stderr(text: string)

  /** How Run ends: nil error, an error, or a runtime panic. */
  datatype Exit = Success | Failed(err: Error) | Panicked
}
