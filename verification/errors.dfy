/** The errors the add-machine command can return, and the messages they print. */
module Errors {
  import Text

  /** Code the API server attaches to a call it does not implement
      (the 1.18 servers answer AddMachinesWithPlacement with it). */
  const CodeNotImplemented: string := "not implemented"

  /** A closed set of error kinds; Go compares sentinels and codes, here they are tags. */
  datatype Error =
      /** `--constraints container=...` was given to add-machine. */
    | ContainerConstraintNotAllowed(container: string)
      /** More than one positional argument. */
    | UnrecognizedArgs(args: seq<string>)
      /** The placement parser's "scope missing" sentinel. */
    | PlacementScopeMissing
      /** Any other placement parse error, carried verbatim. */
    | PlacementInvalid(message: string)
      /** `-n` above one together with a placement directive. */
    | PlacementWithCount
      /** The placement names an existing machine. */
    | MachineIdNotAllowed
      /** An error reported by the API server, with its error code. */
    | Api(code: string, message: string)
      /** A failure of the manual (SSH) provisioner. */
    | Provisioning(message: string)
      /** errors.Trace: same message and cause, with a location attached. */
    | Traced(cause: Error)
      /** errors.New over the joined messages of several failures. */
    | Combined(message: string)

  /** The text the error prints (Go's Error() method, and its `%s` rendering). */
  function Message(e: Error): (r: string)
    // The command's own refusals print fixed texts.
    ensures e.ContainerConstraintNotAllowed? ==>
              r == "container constraint " + Text.Quote(e.container) + " not allowed when adding a machine"
    ensures e.PlacementWithCount? ==> r == "cannot use -n when specifying a placement directive"
    ensures e.MachineIdNotAllowed? ==> r == "machine-id cannot be specified when adding machines"
    // An error reported by the server prints its message verbatim, whatever its code.
    ensures e.Api? ==> r == e.message
  {
    match e
    case ContainerConstraintNotAllowed(c) =>
      "container constraint " + Text.Quote(c) + " not allowed when adding a machine"
    case UnrecognizedArgs(args) => "unrecognized args: " + Text.QuoteList(args)
    case PlacementScopeMissing => "placement scope missing"
    case PlacementInvalid(m) => m
    case PlacementWithCount => "cannot use -n when specifying a placement directive"
    case MachineIdNotAllowed => "machine-id cannot be specified when adding machines"
    case Api(_, m) => m
    case Provisioning(m) => m
    case Traced(inner) => Message(inner)
    case Combined(m) => m
  }

  /** The error underneath any number of Trace wrappers (errors.Cause). */
  function Cause(e: Error): (r: Error)
    ensures !r.Traced?
    ensures !e.Traced? ==> r == e
    ensures e.Traced? ==> r == Cause(e.cause)
  {
    if e.Traced? then Cause(e.cause) else e
  }

  /** Tracing an error, any number of times, leaves the message it prints unchanged. */
  lemma {:induction false} MessageOfCause(e: Error)
    ensures Message(e) == Message(Cause(e))
  {
    if e.Traced? {
      MessageOfCause(e.cause);
    }
  }

  /** params.IsCodeNotImplemented: the cause is an API error with the not-implemented code. */
  function IsCodeNotImplemented(e: Error): (b: bool)
    ensures e.Api? ==> (b <==> e.code == CodeNotImplemented)
    // Only a server error can be classified as not implemented.
    ensures b ==> Cause(e).Api?
  {
    Cause(e).Api? && Cause(e).code == CodeNotImplemented
  }

  /** Trace wrappers do not hide the not-implemented code. */
  lemma NotImplementedThroughTrace(e: Error)
    ensures IsCodeNotImplemented(Traced(e)) <==> IsCodeNotImplemented(e)
  {
  }
}
