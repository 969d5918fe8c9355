/** Placement directives and the collaborators that interpret them (package instance and names). */
module Instance {
  import opened Common

  /** A parsed `scope:directive` placement. */
  datatype Placement = Placement(scope: string, directive: string)

  /** Scope that selects manual provisioning over SSH; the directive is `[user@]host`. */
  const SshScope: string := "ssh"

  /** Pseudo-scope standing for the current environment, resolved when the command runs. */
  const EnvUUIDScope: string := "env-uuid"

  /** Scope the parser gives to a bare machine id (instance.MachineScope). */
  const MachineScope: string := "#"

  /** What instance.ParsePlacement reports: a placement (nil for none), the
      scope-missing sentinel, or another parse error with its message. */
  datatype ParseOutcome =
    | Parsed(placement: Option<Placement>)
    | ScopeMissing
    | Invalid(message: string)

  /** instance.ParsePlacement, whose grammar is not part of this model. */
  type PlacementParser = string -> ParseOutcome

  /** instance.ParseContainerType: the container type a scope names, if any. */
  type ContainerTypeParser = string -> Option<string>

  /** names.IsContainerMachine: whether a machine id names a container. */
  type ContainerMachineTest = string -> bool
}
