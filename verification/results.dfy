/** Folding the per-machine results of AddMachines into output lines and one error. */
module AddMachineResults {
  import opened Errors
  import opened Instance
  import opened Params
  import Text

  /** The errors of the failed results, in submission order. */
  function Failures(results: seq<AddMachinesResult>): (errs: seq<Error>)
    ensures |errs| <= |results|
    ensures |errs| == 0 <==> forall i :: 0 <= i < |results| ==> results[i].error.None?
  {
    if |results| == 0 then []
    else (if results[0].error.Some? then [results[0].error.value] else []) + Failures(results[1..])
  }

  /** The line announcing one created machine or container. */
  function CreationLine(machine: string, isContainerMachine: ContainerMachineTest): Effect {
    if isContainerMachine(machine) then Info("created container " + machine)
    else Info("created machine " + machine)
  }

  /** One announcement per successful result, in submission order. */
  function Created(results: seq<AddMachinesResult>, isContainerMachine: ContainerMachineTest): (lines: seq<Effect>)
    ensures forall i :: 0 <= i < |lines| ==> lines[i].Info?
  {
    if |results| == 0 then []
    else
      (if results[0].error.None? then [CreationLine(results[0].machine, isContainerMachine)] else [])
      + Created(results[1..], isContainerMachine)
  }

  /** Every result is either announced or reported as a failure, never both. */
  lemma {:induction false} CreatedCount(results: seq<AddMachinesResult>, isContainerMachine: ContainerMachineTest)
    ensures |Created(results, isContainerMachine)| + |Failures(results)| == |results|
  {
    if |results| > 0 {
      CreatedCount(results[1..], isContainerMachine);
    }
  }

  /** Collecting failures distributes over concatenation of result lists. */
  lemma {:induction false} FailuresAppend(a: seq<AddMachinesResult>, b: seq<AddMachinesResult>)
    ensures Failures(a + b) == Failures(a) + Failures(b)
  {
    if |a| == 0 {
      assert a + b == b;
    } else {
      var head := if a[0].error.Some? then [a[0].error.value] else [];
      assert (a + b)[0] == a[0];
      assert (a + b)[1..] == a[1..] + b;
      FailuresAppend(a[1..], b);
      calc {
        Failures(a + b);
        head + Failures(a[1..] + b);
        head + (Failures(a[1..]) + Failures(b));
        (head + Failures(a[1..])) + Failures(b);
      }
    }
  }

  /** Announcing successes distributes over concatenation of result lists. */
  lemma {:induction false} CreatedAppend(a: seq<AddMachinesResult>, b: seq<AddMachinesResult>,
                                         isContainerMachine: ContainerMachineTest)
    ensures Created(a + b, isContainerMachine) == Created(a, isContainerMachine) + Created(b, isContainerMachine)
  {
    if |a| == 0 {
      assert a + b == b;
    } else {
      var head := if a[0].error.None? then [CreationLine(a[0].machine, isContainerMachine)] else [];
      assert (a + b)[0] == a[0];
      assert (a + b)[1..] == a[1..] + b;
      CreatedAppend(a[1..], b, isContainerMachine);
      calc {
        Created(a + b, isContainerMachine);
        head + Created(a[1..] + b, isContainerMachine);
        head + (Created(a[1..], isContainerMachine) + Created(b, isContainerMachine));
        (head + Created(a[1..], isContainerMachine)) + Created(b, isContainerMachine);
      }
    }
  }

  /** One more result extends the failures and the announcements by that result's share. */
  lemma CollectStep(results: seq<AddMachinesResult>, i: nat, isContainerMachine: ContainerMachineTest)
    requires i < |results|
    ensures Failures(results[..i + 1]) ==
              Failures(results[..i]) + (if results[i].error.Some? then [results[i].error.value] else [])
    ensures Created(results[..i + 1], isContainerMachine) ==
              Created(results[..i], isContainerMachine)
              + (if results[i].error.None? then [CreationLine(results[i].machine, isContainerMachine)] else [])
  {
    var one := [results[i]];
    assert results[..i + 1] == results[..i] + one;
    FailuresAppend(results[..i], one);
    CreatedAppend(results[..i], one, isContainerMachine);
    assert one[1..] == [];
  }

  /** The printed message of each error. */
  function Messages(errs: seq<Error>): (msgs: seq<string>)
    ensures |msgs| == |errs|
  {
    seq(|errs|, i requires 0 <= i < |errs| => Message(errs[i]))
  }

  /** What the command reports for a list of per-machine results: the creation
      lines, then a failure summary on standard error when something failed;
      no error, the single error itself, or one error joining all messages. */
  predicate Aggregated(results: seq<AddMachinesResult>, isContainerMachine: ContainerMachineTest,
                       lines: seq<Effect>, exit: Exit)
  {
    var errs := Failures(results);
    var created := Created(results, isContainerMachine);
    && (|errs| == 0 ==> lines == created && exit == Success)
    && (|errs| == 1 ==>
          && lines == created + [Stderr("failed to create 1 machine\n")]
          && exit == Failed(errs[0]))
    && (|errs| > 1 ==>
          && lines == created + [Stderr("failed to create " + Text.Decimal(|errs|) + " machines\n")]
          && exit == Failed(Combined(Text.Join(Messages(errs), ", "))))
  }

  /** The result loop of Run: announce each success and collect each error, in order. */
  method Collect(results: seq<AddMachinesResult>, isContainerMachine: ContainerMachineTest)
    returns (lines: seq<Effect>, errs: seq<Error>)
    ensures lines == Created(results, isContainerMachine)
    ensures errs == Failures(results)
  {
    errs := [];
    lines := [];
    for i := 0 to |results|
      invariant errs == Failures(results[..i])
      invariant lines == Created(results[..i], isContainerMachine)
    {
      var result := results[i];
      CollectStep(results, i, isContainerMachine);
      if result.error.Some? {
        errs := errs + [result.error.value];
        continue;
      }
      lines := lines + [CreationLine(result.machine, isContainerMachine)];
    }
    assert results[..|results|] == results;
  }

  /** The messages of several errors, one after the other, separated by ", ". */
  method JoinMessages(errs: seq<Error>) returns (joined: string)
    ensures joined == Text.Join(Messages(errs), ", ")
  {
    var messages: seq<string> := [];
    for i := 0 to |errs|
      invariant |messages| == i
      invariant forall k :: 0 <= k < i ==> messages[k] == Message(errs[k])
    {
      messages := messages + [Message(errs[i])];
    }
    assert messages == Messages(errs);
    joined := Text.Join(messages, ", ");
  }

  /** The tail of Run: announce, collect, then summarise the failures. */
  method Aggregate(results: seq<AddMachinesResult>, isContainerMachine: ContainerMachineTest)
    returns (lines: seq<Effect>, exit: Exit)
    ensures Aggregated(results, isContainerMachine, lines, exit)
    ensures forall i :: 0 <= i < |lines| ==> lines[i].Info? || lines[i].Stderr?
  {
    var errs;
    lines, errs := Collect(results, isContainerMachine);
    if |errs| == 1 {
      lines := lines + [Stderr("failed to create 1 machine\n")];
      exit := Failed(errs[0]);
      return;
    }
    if |errs| > 1 {
      lines := lines + [Stderr("failed to create " + Text.Decimal(|errs|) + " machines\n")];
      var joined := JoinMessages(errs);
      exit := Failed(Combined(joined));
      return;
    }
    exit := Success;
  }
}
