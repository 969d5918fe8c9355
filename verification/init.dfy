/** Argument validation of `juju add-machine` (AddMachineCommand.Init). */
module AddMachineInit {
  import opened Common
  import opened Errors
  import opened Instance
  import opened Params

  /** The command's flags and its parsed placement. */
  datatype Command = Command(
    series: string,
    constraints: Constraints,
    placement: Option<Placement>,
    numMachines: int)

  /** What Init returns: the strings handed to the placement parser, in order,
      and the validated command or the error. */
  datatype InitOutcome = InitOutcome(parsed: seq<string>, result: Result<Command, Error>)

  /** The invariant Init establishes: no container constraint, and no batch of
      more than one machine sharing a placement directive. */
  predicate Accepted(c: Command) {
    && c.constraints.container.None?
    && !(c.numMachines > 1 && c.placement.Some? && c.placement.value.directive != "")
  }

  /** cmd.ZeroOrOneArgs: the optional single positional argument. */
  function ZeroOrOneArgs(args: seq<string>): Result<string, Error> {
    if |args| == 0 then Ok("")
    else if |args| == 1 then Ok(args[0])
    else Err(UnrecognizedArgs(args[1..]))
  }

  /** The error a failed parse reports. */
  function ParseError(p: ParseOutcome): Error
    requires !p.Parsed?
  {
    if p.ScopeMissing? then PlacementScopeMissing else PlacementInvalid(p.message)
  }

  /** Validates the arguments and parses the placement. An argument without a
      scope is parsed a second time as a directive of the current environment. */
  function Init(c: Command, args: seq<string>, parse: PlacementParser): (r: InitOutcome)
    // A container constraint fails first, whatever the arguments, and nothing is parsed.
    ensures c.constraints.container.Some? ==>
              r == InitOutcome([], Err(ContainerConstraintNotAllowed(c.constraints.container.value)))
    ensures c.constraints.container.None? && |args| > 1 ==>
              r == InitOutcome([], Err(UnrecognizedArgs(args[1..])))
    // The argument (or "") is parsed once, and again with the env-uuid scope
    // exactly when the first parse reports the scope missing.
    ensures c.constraints.container.None? && |args| <= 1 ==>
              var arg := if |args| == 0 then "" else args[0];
              && 1 <= |r.parsed| <= 2
              && r.parsed[0] == arg
              && (|r.parsed| == 2 <==> parse(arg).ScopeMissing?)
              && (|r.parsed| == 2 ==> r.parsed[1] == EnvUUIDScope + ":" + arg)
    // The last parse decides: its error is returned unchanged ...
    ensures |r.parsed| > 0 && !parse(r.parsed[|r.parsed| - 1]).Parsed? ==>
              r.result == Err(ParseError(parse(r.parsed[|r.parsed| - 1])))
    // ... and its placement is kept, unless -n exceeds one with a directive.
    ensures |r.parsed| > 0 && parse(r.parsed[|r.parsed| - 1]).Parsed? ==>
              var p := parse(r.parsed[|r.parsed| - 1]).placement;
              && (r.result == Err(PlacementWithCount) <==>
                    c.numMachines > 1 && p.Some? && p.value.directive != "")
              && (r.result.Ok? <==> r.result != Err(PlacementWithCount))
              && (r.result.Ok? ==> r.result.value == c.(placement := p))
    ensures r.result.Ok? ==> Accepted(r.result.value)
  {
    if c.constraints.container.Some? then
      InitOutcome([], Err(ContainerConstraintNotAllowed(c.constraints.container.value)))
    else
      match ZeroOrOneArgs(args)
      case Err(e) => InitOutcome([], Err(e))
      case Ok(arg) =>
        var first := parse(arg);
        var retried := EnvUUIDScope + ":" + arg;
        var parsed := if first.ScopeMissing? then [arg, retried] else [arg];
        var final := if first.ScopeMissing? then parse(retried) else first;
        if !final.Parsed? then
          InitOutcome(parsed, Err(ParseError(final)))
        else if c.numMachines > 1 && final.placement.Some? && final.placement.value.directive != "" then
          InitOutcome(parsed, Err(PlacementWithCount))
        else
          InitOutcome(parsed, Ok(c.(placement := final.placement)))
  }

  /** An argument without a scope means the same as that argument under the
      env-uuid scope, as long as the prefixed form parses with a scope. */
  lemma ScopeDefault(c: Command, arg: string, parse: PlacementParser)
    requires parse(arg).ScopeMissing?
    requires !parse(EnvUUIDScope + ":" + arg).ScopeMissing?
    ensures Init(c, [arg], parse).result == Init(c, [EnvUUIDScope + ":" + arg], parse).result
  {
  }
}
