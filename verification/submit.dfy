/** Submitting the batch, with the fallback to the 1.18 API for servers that
    do not implement placement-aware AddMachines. */
module AddMachineSubmit {
  import opened Common
  import opened Errors
  import opened Instance
  import opened Params

  /** `count` copies of one request (the make-and-fill loop). */
  function Replicate(request: AddMachineParams, count: nat): (batch: seq<AddMachineParams>)
    ensures |batch| == count
    ensures forall i :: 0 <= i < |batch| ==> batch[i] == request
  {
    if count == 0 then [] else Replicate(request, count - 1) + [request]
  }

  /** The request rewritten for the 1.18 API, or None when the placement is not
      a container type and the legacy API cannot express it. */
  function LegacyRequest(request: AddMachineParams, parseContainerType: ContainerTypeParser): (r: Option<AddMachineParams>)
    ensures request.placement.None? ==> r == Some(request)
    ensures request.placement.Some? ==>
              (r.Some? <==> parseContainerType(request.placement.value.scope).Some?)
    ensures request.placement.Some? && r.Some? ==>
              r.value == request.(containerType := parseContainerType(request.placement.value.scope).value,
                                  parentId := request.placement.value.directive,
                                  placement := None)
    // The legacy shape never carries a placement.
    ensures r.Some? ==> r.value.placement.None?
  {
    match request.placement
    case None => Some(request)
    case Some(p) =>
      match parseContainerType(p.scope)
      case None => None
      case Some(containerType) =>
        Some(request.(containerType := containerType, parentId := p.directive, placement := None))
  }

  /** The per-machine results of a reply, or its call-level error wrapped by errors.Trace. */
  function Completed(reply: Reply): Result<seq<AddMachinesResult>, Error> {
    if reply.err.Some? then Err(Traced(reply.err.value)) else Ok(reply.results)
  }

  /** The API calls made, in order, and what they produced. */
  datatype Submission = Submission(calls: seq<Effect>, outcome: Result<seq<AddMachinesResult>, Error>)

  predicate NotImplemented(reply: Reply) {
    reply.err.Some? && IsCodeNotImplemented(reply.err.value)
  }

  /** Sends the batch; on a not-implemented reply, retries once through the
      1.18 API with a single rewritten request, whatever `count` was. */
  function SubmitBatch(request: AddMachineParams, count: nat, client: Client,
                       parseContainerType: ContainerTypeParser): (s: Submission)
    ensures |s.calls| >= 1 && s.calls[0] == AddMachinesCall(Replicate(request, count))
    ensures var first := client.addMachines(Replicate(request, count));
            var legacy := LegacyRequest(request, parseContainerType);
            // The legacy call happens exactly when the server lacks placement
            // support and the request can be rewritten, and it carries one request.
            && (|s.calls| == 2 <==> NotImplemented(first) && legacy.Some?)
            && |s.calls| <= 2
            && (|s.calls| == 2 ==>
                  && s.calls[1] == AddMachines1dot18Call([legacy.value])
                  && s.outcome == Completed(client.addMachines1dot18([legacy.value])))
            // A placement the legacy API cannot express returns the original error, untraced.
            && (NotImplemented(first) && legacy.None? ==> s.outcome == Err(first.err.value))
            && (!NotImplemented(first) ==> s.outcome == Completed(first))
  {
    var batch := Replicate(request, count);
    var first := client.addMachines(batch);
    if !NotImplemented(first) then
      Submission([AddMachinesCall(batch)], Completed(first))
    else
      match LegacyRequest(request, parseContainerType)
      case None => Submission([AddMachinesCall(batch)], Err(first.err.value))
      case Some(legacy) =>
        Submission([AddMachinesCall(batch), AddMachines1dot18Call([legacy])],
                   Completed(client.addMachines1dot18([legacy])))
  }
}
