/**
 * The runners of `juju_spell/assignment/runner.py`: one task per filtered
 * controller, each binding its controller into the shared argument mapping
 * before calling the command, and a runner that collects the results in task
 * order.
 *
 * The controller filter and the command are function values. An awaited task
 * runs to completion before the next one starts.
 */
module Runner {
  import opened Wrappers
  import opened Types

  /** The runner classes. */
  datatype RunnerClass = SequentialRunner | ParallelRunner | BatchRunner

  /** `get_runner`: "parallel" selects the parallel runner; "batch" and every
      other string select the sequential one. */
  function GetRunner(runType: string): (c: RunnerClass)
    ensures c == ParallelRunner <==> runType == "parallel"
    ensures c == SequentialRunner <==> runType != "parallel"
    ensures c != BatchRunner
  {
    if runType == "parallel" then ParallelRunner
    else if runType == "batch" then SequentialRunner
    else SequentialRunner
  }

  const BATCH_MESSAGE := "running in batches is not yet supported"

  /** One entry of a runner's output: the controller it ran against and the
      fields of the command's `Result`. */
  datatype TaskResult = TaskResult(context: map<string, string>, success: bool, output: Value, error: Option<Error>)

  /** `get_result` */
  function GetResult(controller: ControllerConfig, output: Result): (r: TaskResult)
    ensures r.context.Keys == {"uuid", "name", "customer"}
    ensures r.context["uuid"] == controller.uuid && r.context["name"] == controller.name &&
            r.context["customer"] == controller.customer
    ensures r.success == output.success && r.output == output.output && r.error == output.error
  {
    TaskResult(map["uuid" := controller.uuid, "name" := controller.name, "customer" := controller.customer],
               output.success, output.output, output.error)
  }

  /** The controller and the `Result` an entry was built from. */
  function Unpack(t: TaskResult): (p: Option<(ControllerConfig, Result)>)
    ensures p.Some? <==> t.context.Keys == {"uuid", "name", "customer"}
  {
    if t.context.Keys == {"uuid", "name", "customer"} then
      Some((ControllerConfig(t.context["uuid"], t.context["name"], t.context["customer"]),
            Result(t.success, t.output, t.error)))
    else None
  }

  /** `get_result` loses nothing: the controller and the result can be read back. */
  lemma GetResultRoundTrip(controller: ControllerConfig, output: Result)
    ensures Unpack(GetResult(controller, output)) == Some((controller, output))
  {
  }

  /** The argument mapping with one task's controller bound. */
  function Bound(vars: Args, controller: ControllerConfig): (a: Args)
    ensures a.controllerConfig == Some(controller)
    ensures a.refresh == vars.refresh && a.filter == vars.filter && a.options == vars.options
  {
    vars.(controllerConfig := Some(controller))
  }

  type Command = Args -> Outcome<Result>
  type Filter = (seq<ControllerConfig>, string) -> seq<ControllerConfig>

  /** What each task's command call gives, in task order. */
  function Outcomes(command: Command, vars: Args, tasks: seq<ControllerConfig>): (outs: seq<Outcome<Result>>)
    ensures |outs| == |tasks|
    ensures forall k :: 0 <= k < |tasks| ==> outs[k] == command(Bound(vars, tasks[k]))
  {
    seq(|tasks|, k requires 0 <= k < |tasks| => command(Bound(vars, tasks[k])))
  }

  /** Collecting every task's result: the list of results, or the first error in task order. */
  function Gather(outs: seq<Outcome<Result>>): (r: Outcome<seq<Result>>)
    ensures r.Returned? <==> forall k :: 0 <= k < |outs| ==> outs[k].Returned?
    ensures r.Returned? ==> |r.value| == |outs| && forall k :: 0 <= k < |outs| ==> outs[k] == Returned(r.value[k])
    ensures r.Raised? ==> exists k :: 0 <= k < |outs| && outs[k] == Raised(r.error) &&
                                      forall j :: 0 <= j < k ==> outs[j].Returned?
  {
    if outs == [] then Returned([])
    else
      match outs[0]
      case Raised(e) => Raised(e)
      case Returned(x) =>
        var rest := Gather(outs[1..]);
        if rest.Raised? then
          assert exists k :: 0 <= k < |outs[1..]| && outs[1..][k] == Raised(rest.error) &&
                                forall j :: 0 <= j < k ==> outs[1..][j].Returned?;
          var k :| 0 <= k < |outs[1..]| && outs[1..][k] == Raised(rest.error) &&
                   forall j :: 0 <= j < k ==> outs[1..][j].Returned?;
          assert outs[k + 1] == Raised(rest.error);
          Raised(rest.error)
        else
          Returned([x] + rest.value)
  }

  /** What a sequential run returns and the argument mapping it leaves behind. */
  datatype RunStep = RunStep(outcome: Outcome<seq<Result>>, vars: Args)

  /** The sequential run from accumulated results `acc`: each task runs to
      completion in turn, and the first raise ends the run. */
  function SequentialRun(command: Command, vars: Args, tasks: seq<ControllerConfig>, acc: seq<Result>): RunStep
    decreases |tasks|
  {
    if tasks == [] then RunStep(Returned(acc), vars)
    else
      var bound := Bound(vars, tasks[0]);
      match command(bound)
      case Raised(e) => RunStep(Raised(e), bound)
      case Returned(x) => SequentialRun(command, bound, tasks[1..], acc + [x])
  }

  /** The argument mapping after every task has bound its controller. */
  function LastBound(vars: Args, tasks: seq<ControllerConfig>): (a: Args)
    ensures tasks != [] ==> a == Bound(vars, tasks[|tasks| - 1])
    ensures tasks == [] ==> a == vars
  {
    if tasks == [] then vars else Bound(vars, tasks[|tasks| - 1])
  }

  /** The sequential runner's results are the command's results on each task's
      controller, in task order; the first raise is the run's. */
  lemma {:induction false} SequentialRunIsGather(command: Command, vars: Args, tasks: seq<ControllerConfig>, acc: seq<Result>)
    ensures var g := Gather(Outcomes(command, vars, tasks));
              SequentialRun(command, vars, tasks, acc).outcome
              == (if g.Raised? then Raised(g.error) else Returned(acc + g.value))
    decreases |tasks|
  {
    if tasks != [] {
      var bound := Bound(vars, tasks[0]);
      var outs := Outcomes(command, vars, tasks);
      assert outs[1..] == Outcomes(command, bound, tasks[1..]);
      assert outs[0] == command(bound);
      match command(bound)
      case Raised(e) =>
      case Returned(x) =>
        SequentialRunIsGather(command, bound, tasks[1..], acc + [x]);
        var g := Gather(outs[1..]);
        if g.Returned? {
          assert acc + [x] + g.value == acc + ([x] + g.value);
        }
    } else {
      assert Outcomes(command, vars, tasks) == [];
      assert acc + [] == acc;
    }
  }

  /** The arguments a sequential run leaves behind: bound to the last task it started. */
  lemma {:induction false} SequentialRunLeavesLastBound(command: Command, vars: Args, tasks: seq<ControllerConfig>, acc: seq<Result>)
    ensures var s := SequentialRun(command, vars, tasks, acc);
              s.outcome.Returned? ==> s.vars == LastBound(vars, tasks)
    decreases |tasks|
  {
    if tasks != [] {
      var bound := Bound(vars, tasks[0]);
      if command(bound).Returned? {
        SequentialRunLeavesLastBound(command, bound, tasks[1..], acc + [command(bound).value]);
        if tasks[1..] != [] {
          assert tasks[1..][|tasks[1..]| - 1] == tasks[|tasks| - 1];
        }
      }
    }
  }

  /** `argparse.Namespace`: `vars()` returns its own attribute mapping, so the
      tasks' bindings change it. */
  class ParsedArgs {
    var vars: Args

    constructor (vars: Args)
      ensures this.vars == vars
    {
      this.vars := vars;
    }
  }

  /** A runner; `tasks` holds each pending task's controller. */
  class Runner {
    const kind: RunnerClass
    const config: seq<ControllerConfig>
    const filter: Filter
    const command: Command
    const parsedArgs: ParsedArgs
    var tasks: seq<ControllerConfig>

    /** `__init__`: store the inputs, then build every task. */
    constructor (kind: RunnerClass, config: seq<ControllerConfig>, filter: Filter, command: Command, parsedArgs: ParsedArgs)
      ensures this.kind == kind && this.config == config && this.filter == filter
      ensures this.command == command && this.parsedArgs == parsedArgs
      ensures tasks == filter(config, parsedArgs.vars.filter)
    {
      this.kind := kind;
      this.config := config;
      this.filter := filter;
      this.command := command;
      this.parsedArgs := parsedArgs;
      tasks := [];
      new;
      BuildTasks();
    }

    /** `build_tasks`: one task per filtered controller, in the filter's order. */
    method BuildTasks()
      modifies this
      ensures tasks == old(tasks) + filter(config, parsedArgs.vars.filter)
    {
      var filtered := filter(config, parsedArgs.vars.filter);
      for i := 0 to |filtered|
        invariant tasks == old(tasks) + filtered[..i]
      {
        tasks := tasks + [filtered[i]];
      }
      assert filtered[..|filtered|] == filtered;
    }

    /** `task`: bind the controller into the shared mapping, then call the command. */
    method Task(controller: ControllerConfig) returns (r: Outcome<Result>)
      modifies parsedArgs
      ensures parsedArgs.vars == Bound(old(parsedArgs.vars), controller)
      ensures r == command(parsedArgs.vars)
    {
      parsedArgs.vars := parsedArgs.vars.(controllerConfig := Some(controller));
      r := command(parsedArgs.vars);
    }

    /** `run`, for each kind of runner. */
    method Run() returns (r: Outcome<seq<Result>>)
      modifies parsedArgs
      ensures kind == BatchRunner ==>
                r == Raised(NotImplementedError(BATCH_MESSAGE)) && parsedArgs.vars == old(parsedArgs.vars)
      ensures kind == SequentialRunner ==>
                var s := SequentialRun(command, old(parsedArgs.vars), tasks, []);
                r == s.outcome && parsedArgs.vars == s.vars
      ensures kind == ParallelRunner ==>
                r == Gather(Outcomes(command, old(parsedArgs.vars), tasks)) &&
                parsedArgs.vars == LastBound(old(parsedArgs.vars), tasks)
    {
      match kind
      case BatchRunner =>
        r := Raised(NotImplementedError(BATCH_MESSAGE));
      case SequentialRunner =>
        r := RunSequential();
      case ParallelRunner =>
        r := RunParallel();
    }

    /** `SequentialRunner.run`: run each task to completion, in order. */
    method RunSequential() returns (r: Outcome<seq<Result>>)
      modifies parsedArgs
      ensures var s := SequentialRun(command, old(parsedArgs.vars), tasks, []);
                r == s.outcome && parsedArgs.vars == s.vars
    {
      var results: seq<Result> := [];
      var i := 0;
      while i < |tasks|
        invariant 0 <= i <= |tasks|
        invariant SequentialRun(command, old(parsedArgs.vars), tasks, [])
                  == SequentialRun(command, parsedArgs.vars, tasks[i..], results)
      {
        assert tasks[i..][0] == tasks[i] && tasks[i..][1..] == tasks[i + 1..];
        var out := Task(tasks[i]);
        if out.Raised? {
          return Raised(out.error);
        }
        results := results + [out.value];
        i := i + 1;
      }
      r := Returned(results);
    }

    /** `ParallelRunner.run`: start every task, wait for all of them, then read
        their results in creation order. */
    method RunParallel() returns (r: Outcome<seq<Result>>)
      modifies parsedArgs
      ensures r == Gather(Outcomes(command, old(parsedArgs.vars), tasks))
      ensures parsedArgs.vars == LastBound(old(parsedArgs.vars), tasks)
    {
      var outs: seq<Outcome<Result>> := [];
      for i := 0 to |tasks|
        invariant outs == Outcomes(command, old(parsedArgs.vars), tasks[..i])
        invariant parsedArgs.vars == LastBound(old(parsedArgs.vars), tasks[..i])
      {
        var out := Task(tasks[i]);
        outs := outs + [out];
      }
      assert tasks[..|tasks|] == tasks;
      r := Results(outs);
    }
  }

  /** `[task.result() for task in tasks]` once every task is done: the
      results in creation order, or the first task's exception. */
  method Results(outs: seq<Outcome<Result>>) returns (r: Outcome<seq<Result>>)
    ensures r == Gather(outs)
  {
    var results: seq<Result> := [];
    assert outs[0..] == outs;
    assert Gather(outs).Returned? ==> [] + Gather(outs).value == Gather(outs).value;
    for i := 0 to |outs|
      invariant Gather(outs) == (var g := Gather(outs[i..]); if g.Raised? then g else Returned(results + g.value))
    {
      assert outs[i..][0] == outs[i] && outs[i..][1..] == outs[i + 1..];
      if outs[i].Raised? {
        return Raised(outs[i].error);
      }
      ghost var rest := Gather(outs[i + 1..]);
      if rest.Returned? {
        assert results + [outs[i].value] + rest.value == results + ([outs[i].value] + rest.value);
      }
      results := results + [outs[i].value];
    }
    assert outs[|outs|..] == [];
    assert results + [] == results;
    r := Returned(results);
  }

  /** With a command that depends only on its arguments, and each task running
      to completion before the next starts, the parallel runner returns exactly
      what the sequential runner returns. */
  lemma ParallelAgreesWithSequential(command: Command, vars: Args, tasks: seq<ControllerConfig>)
    ensures Gather(Outcomes(command, vars, tasks)) == SequentialRun(command, vars, tasks, []).outcome
  {
    SequentialRunIsGather(command, vars, tasks, []);
    var g := Gather(Outcomes(command, vars, tasks));
    if g.Returned? {
      assert [] + g.value == g.value;
    }
  }
}
