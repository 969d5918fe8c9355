# juju add-machine: a Dafny model of the command's decision logic

This project models the `juju add-machine` command of `cmd/juju/addmachine.go`:

- **Argument validation** (`AddMachineCommand.Init`):
  - rejection of a container constraint;
  - zero or one positional argument;
  - placement parsing, with the retry as an `env-uuid:` directive when the scope is missing;
  - the ban on `-n` above one together with a placement directive.
- **Provisioning orchestration** (`AddMachineCommand.Run`):
  - manual provisioning for an `ssh:` placement;
  - resolution of the `env-uuid` pseudo-scope;
  - refusal of a machine-id placement;
  - the job list, which depends on whether the provider is MAAS;
  - the batch of identical requests;
  - the fallback to the 1.18 API when the server does not implement placement-aware AddMachines;
  - the report of per-machine results as creation lines plus a failure summary and one error.

`Run` is a method that returns the trace of its effects and how it ended. The effects are the
provisioner call, the AddMachines calls and the lines written. Its collaborators are parameters:
- the API client (`AddMachines`, `AddMachines1dot18`, `EnvironmentUUID`);
- the environment configuration (provider type, OS update flags);
- the manual provisioner;
- `instance.ParsePlacement`;
- `instance.ParseContainerType`;
- `names.IsContainerMachine`.

Files:
- `common.dfy`: `Option` and `Result`.
- `text.dfy`: Go's `%q`, `strings.Join` and `%d`, with their content lemmas.
- `errors.dfy`: the error kinds, their messages, and `IsCodeNotImplemented`.
- `instance.dfy`: placements and the parser interfaces.
- `params.dfy`: the request, result, client and effect records.
- `init.dfy`: `Init`.
- `route.dfy`: strategy selection.
- `submit.dfy`: batch submission and the 1.18 fallback.
- `results.dfy`: result aggregation.
- `run.dfy`: `Run`.

Behaviour of the code worth noting:
- `Run` resolves the `env-uuid` pseudo-scope, and refuses a machine-id placement after that resolution.
- The container-type test of the 1.18 fallback uses the resolved scope.
- `Init` checks the container constraint and `-n`, before `Run` starts.
- `Init` accepts a machine count of zero or below:
  - A count of zero sends an empty batch.
  - A negative count makes Go's `make` panic when the batch slice is built. The model ends with `Exit.Panicked`.
- With no placement, the fallback still makes the 1.18 call, with the unchanged request.

## Model

| member | source | states |
|---|---|---|
| AddMachineInit.Init | cmd/juju/addmachine.go:116-136 | A container constraint fails with "container constraint ... not allowed" whatever the arguments, and nothing is parsed. More than one argument is refused. The argument is parsed once. It is re-parsed as `env-uuid:<arg>` exactly when the first parse reports the scope missing, and the last parse decides. A parse error is returned unchanged. The -n error happens iff count > 1, a placement exists and its directive is non-empty. On success only the placement of the command changes, and the result satisfies `Accepted`. |
| AddMachineInit.ScopeDefault | cmd/juju/addmachine.go:124-131 | An argument without a scope gives the same result as that argument prefixed with `env-uuid:`, when the prefixed form parses with a scope. |
| AddMachineRoute.Jobs | cmd/juju/addmachine.go:196-202 | The job list starts with JobHostUnits and has no duplicates. JobManageNetworking is included iff the provider type is not MAAS. |
| AddMachineRoute.ResolveScope | cmd/juju/addmachine.go:187-189 | Only an `env-uuid` scope is replaced, by the environment UUID. The directive and every other placement are unchanged. The pseudo-scope survives only if the UUID spells it. |
| AddMachineRoute.ResolveScopeIdempotent | cmd/juju/addmachine.go:187-189 | Resolving an already resolved placement changes nothing, when the UUID is not the pseudo-scope itself. |
| AddMachineRoute.RouteCommand | cmd/juju/addmachine.go:167-213 | Manual provisioning iff the scope is `ssh`, with the directive as host and the config's update flags. Refusal with "machine-id cannot be specified" iff the scope after env-uuid resolution is the machine scope. Panic when the count is negative. Otherwise a batch of `NumMachines` requests carrying the resolved placement, series, constraints and jobs. |
| AddMachineSubmit.Replicate | cmd/juju/addmachine.go:210-213 | The batch has exactly `count` entries, all equal to the request. |
| AddMachineSubmit.LegacyRequest | cmd/juju/addmachine.go:216-227 | Without a placement the request is unchanged. With one, a rewrite exists iff the scope parses as a container type. The rewrite sets ContainerType to that type and ParentId to the directive, and clears Placement. A legacy request never carries a placement. |
| AddMachineSubmit.SubmitBatch | cmd/juju/addmachine.go:215-236 | AddMachines is called first with the replicated batch. AddMachines1dot18 is called iff the reply is not-implemented and the request can be rewritten, and then with exactly one request whatever the count. A non-container placement returns the original error, untraced. Any other call error is returned traced. |
| AddMachineResults.Failures | cmd/juju/addmachine.go:238-243 | The collected errors are no more than the results, and none are collected iff every result succeeded. |
| AddMachineResults.Created | cmd/juju/addmachine.go:244-251 | Every creation line is an informational line. |
| AddMachineResults.CreatedCount | cmd/juju/addmachine.go:238-251 | Creation lines plus collected failures account for every result exactly once. |
| AddMachineResults.FailuresAppend | cmd/juju/addmachine.go:238-243 | Collecting errors over two lists in sequence gives the two collections in order. |
| AddMachineResults.CreatedAppend | cmd/juju/addmachine.go:239-251 | Announcing successes over two lists in sequence gives the two announcements in order. |
| AddMachineResults.Collect | cmd/juju/addmachine.go:238-251 | The loop's lines are the creation lines and its errors are the failures, both in submission order. Each line says "created container" or "created machine" as IsContainerMachine decides. |
| AddMachineResults.JoinMessages | cmd/juju/addmachine.go:258-262 | The combined message is the individual messages in order, joined by ", ". |
| AddMachineResults.Aggregate | cmd/juju/addmachine.go:238-264 | No failures: creation lines only and a nil error. One failure: "failed to create 1 machine" and that same error. n > 1 failures: "failed to create n machines" and one error whose message joins all the messages with ", " in order. |
| AddMachineRun.Run | cmd/juju/addmachine.go:153-265 | ssh: one provisioner call, a creation line only on success, and the provisioner's error verbatim, with no AddMachines call. Refusal and panic happen before any call. A batch is submitted first, then either its error ends the run or the results are aggregated. Only ssh reaches the provisioner. For a command Init accepted, no AddMachines batch of several machines carries a directive. |
| Errors.Message | cmd/juju/addmachine.go:118 | The refusals print their fixed texts: the quoted container constraint (line 118), the -n ban (line 133) and the machine-id refusal (line 193). A server error prints its message verbatim; that message is what line 260 renders with `%s`. |
| Errors.MessageOfCause | cmd/juju/addmachine.go:235 | Wrapping an error in any number of traces leaves its printed message that of the underlying cause. |
| Errors.Cause | cmd/juju/addmachine.go:216 | The cause is never a trace wrapper, and it is the error itself when that is not a trace. |
| Errors.IsCodeNotImplemented | cmd/juju/addmachine.go:216 | The not-implemented test holds of a server error iff its code is `not implemented`, and never of an error whose cause is not a server error. |
| Errors.NotImplementedThroughTrace | cmd/juju/addmachine.go:216 | Wrapping an error in a trace does not change whether it counts as not implemented. |
| Text.JoinPart | cmd/juju/addmachine.go:262 | Every message appears unchanged at its offset in the joined string. |
| Text.JoinSeparator | cmd/juju/addmachine.go:262 | Consecutive messages are separated by exactly the separator. |
| Text.JoinLength | cmd/juju/addmachine.go:262 | The joined string ends where the last message ends, with no trailing separator. |
| Text.Decimal | cmd/juju/addmachine.go:257 | The count is rendered as a non-empty string of decimal digits without a leading zero. |
| Text.DecimalRoundTrip | cmd/juju/addmachine.go:257 | Reading the rendered count back gives the count. |

## Left out

- Command scaffolding is not modelled: the `init()` doc templating, `Info` and `SetFlags`. The flag default of `-n` (1) only fixes the initial `numMachines`.
- I/O is not modelled:
  - creating and closing the API client;
  - loading the config store and environment config (addmachine.go:154-165), which arrive as a `Config` value;
  - `logger.Infof` for the 1.18 fallback;
  - the quiet mode of `ctx.Infof`.
- The stdin, stdout, stderr and API-client arguments of `manual.ProvisionMachine` are not modelled. Only the host and update behaviour are.
- `ForceDestroyMachines`, `ProvisioningScript` and `sshHostPrefix` are unused by the command and are not modelled.
- Some collaborators are abstract function parameters, because their code is not part of this model:
  - the grammar of `instance.ParsePlacement` and `instance.ParseContainerType`;
  - `names.IsContainerMachine`;
  - the SSH work of `manual.ProvisionMachine`.
- `cmd.ZeroOrOneArgs` is not part of this model; `AddMachineInit.ZeroOrOneArgs` gives its behaviour: no argument reads as "", one is returned, more are refused with the extra ones.
- Some constants come from packages that are not part of this model: the machine scope `#`, the MAAS provider type `maas`, the API code `not implemented`, and the scope-missing message. `IsCodeNotImplemented` is assumed to look through `errors.Trace` to the cause.
- Errors.Message: `%q` is rendered by surrounding quotes only; Go's escape sequences are not modelled.
- AddMachineParams carries only the fields the command sets. The other fields of `params.AddMachineParams` stay at their zero values and are not modelled.
- Go's integer width for `-n` is not modelled. The model looks only at the count's sign, at 1 and at 0.
- AddMachineRoute.RouteCommand: models only the negative-count panic of `make` at addmachine.go:210. `make` also panics, or exhausts memory, for a count too large to allocate; that limit is not modelled, and such a count routes to a batch.
- The repository's periodic background workers are out of scope: only the add-machine command is modelled.
