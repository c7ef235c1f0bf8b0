/**
 * The command lifecycle of `juju_spell/commands/base.py`: a cache check, then
 * pre-process, execute and post-process, then a cache write, all wrapped in
 * the `Result` envelope; and the sequential and parallel command groups.
 *
 * A command's class is a tag; its `pre_process`, `execute` and `post_process`
 * are function values (`execute` is the remote call, an oracle that returns or
 * raises). `await` is an ordinary sequential call.
 */
module Commands {
  import opened Wrappers
  import opened Types
  import opened CacheFiles
  import ListModels
  import GetController

  /** The concrete class a command is an instance of. */
  datatype CommandClass =
    | JujuReadCommand
    | JujuWriteCommand
    | JujuReadWriteCommand
    | ListModelsCommand      // a JujuReadCommand
    | GetControllerCommand   // a JujuReadWriteCommand

  /** The `cachable` property: read and read-write commands only. */
  predicate Cachable(c: CommandClass)
  {
    c != JujuWriteCommand
  }

  /** The `sshuttle` property, true for all three base classes. */
  predicate Sshuttle(c: CommandClass)
  {
    true
  }

  const WRITE_CACHE_MESSAGE := "Caching is not supported for WRITE command."

  /** `load_from_cache`, dispatched on the class. */
  function LoadFromCache(c: CommandClass, file: Option<FileText>): (r: Outcome<Value>)
    ensures c == JujuWriteCommand ==> r == Raised(NotImplementedError(WRITE_CACHE_MESSAGE))
    // the default read and read-write hooks return None: never a hit
    ensures c == JujuReadCommand || c == JujuReadWriteCommand ==> r == Returned(Null)
    ensures c == ListModelsCommand ==> r == Returned(ListModels.LoadFromCache(file))
    ensures c == GetControllerCommand ==> r == Returned(GetController.LoadFromCache(file))
  {
    match c
    case JujuWriteCommand => Raised(NotImplementedError(WRITE_CACHE_MESSAGE))
    case JujuReadCommand => Returned(Null)
    case JujuReadWriteCommand => Returned(Null)
    case ListModelsCommand => Returned(ListModels.LoadFromCache(file))
    case GetControllerCommand => Returned(GetController.LoadFromCache(file))
  }

  /** The effect of `save_to_cache`, dispatched on the class. */
  function SaveSpec(c: CommandClass, path: string, file: Option<FileText>, result: Result): (e: SaveEffect)
    ensures c == JujuWriteCommand ==> e == SaveEffect(Raised(NotImplementedError(WRITE_CACHE_MESSAGE)), file)
    ensures c == JujuReadCommand || c == JujuReadWriteCommand ==> e == SaveEffect(Returned(()), file)
    ensures c == ListModelsCommand ==> e == ListModels.SaveSpec(path, file, result)
    ensures c == GetControllerCommand ==> e == GetController.SaveSpec(file, result)
  {
    match c
    case JujuWriteCommand => SaveEffect(Raised(NotImplementedError(WRITE_CACHE_MESSAGE)), file)
    case JujuReadCommand => SaveEffect(Returned(()), file)
    case JujuReadWriteCommand => SaveEffect(Returned(()), file)
    case ListModelsCommand => ListModels.SaveSpec(path, file, result)
    case GetControllerCommand => GetController.SaveSpec(file, result)
  }

  /** `save_to_cache`, dispatched on the class. */
  method SaveToCache(c: CommandClass, dir: CacheDir, path: string, result: Result) returns (r: Outcome<Unit>)
    modifies dir
    ensures var e := SaveSpec(c, path, FileAt(old(dir.files), path), result);
              r == e.outcome && dir.files == Written(old(dir.files), path, e.file)
  {
    match c
    case JujuWriteCommand =>
      r := Raised(NotImplementedError(WRITE_CACHE_MESSAGE));
      assert dir.files == Written(dir.files, path, FileAt(dir.files, path));
    case JujuReadCommand =>
      r := Returned(());
      assert dir.files == Written(dir.files, path, FileAt(dir.files, path));
    case JujuReadWriteCommand =>
      r := Returned(());
      assert dir.files == Written(dir.files, path, FileAt(dir.files, path));
    case ListModelsCommand =>
      r := ListModels.SaveToCache(dir, path, result);
    case GetControllerCommand =>
      r := GetController.SaveToCache(dir, path, result);
  }

  type PreProcess = (Args, Option<seq<Result>>) -> Outcome<Value>
  type Execute = (Args, Option<seq<Result>>, Value) -> Outcome<Value>
  type PostProcess = (Value, Option<seq<Result>>, Value, Args) -> Outcome<Value>

  /** The default `pre_process`: no derived input. */
  function DefaultPreProcess(args: Args, prev: Option<seq<Result>>): Outcome<Value>
  {
    Returned(Null)
  }

  /** The default `post_process`: the identity on the raw output. */
  function DefaultPostProcess(raw: Value, prev: Option<seq<Result>>, pre: Value, args: Args): Outcome<Value>
  {
    Returned(raw)
  }

  /** A command: its class, its `name` (the class name) and its three steps. */
  datatype CommandDef = CommandDef(
    cls: CommandClass,
    name: string,
    preProcess: PreProcess,
    execute: Execute,
    postProcess: PostProcess)

  /** A `ListModels` command whose remote listing is `execute`. */
  function ListModelsDef(execute: Execute): CommandDef
  {
    CommandDef(ListModelsCommand, ListModels.NAME, ListModels.PreProcess, execute, DefaultPostProcess)
  }

  /** A `GetController` command whose connection step is `execute`. */
  function GetControllerDef(execute: Execute): CommandDef
  {
    CommandDef(GetControllerCommand, GetController.NAME, DefaultPreProcess, execute, DefaultPostProcess)
  }

  /** The body of the `try`: pre-process, execute, post-process; the first raise wins. */
  function Process(def: CommandDef, args: Args, prev: Option<seq<Result>>): Outcome<Value>
  {
    match def.preProcess(args, prev)
    case Raised(e) => Raised(e)
    case Returned(pre) =>
      match def.execute(args, prev, pre)
      case Raised(e) => Raised(e)
      case Returned(raw) => def.postProcess(raw, prev, pre, args)
  }

  /** The envelope the `try`/`except` builds around an outcome. */
  function Envelope(o: Outcome<Value>): (r: Result)
    ensures r.success <==> o.Returned?
    ensures o.Returned? ==> r == Result(true, o.value, None)
    ensures o.Raised? ==> r == Result(false, Null, Some(o.error))
  {
    match o
    case Returned(v) => Result(true, v, None)
    case Raised(e) => Result(false, Null, Some(e))
  }

  /** One call of a command: what it returns or raises, the cache directory
      afterwards, and what it stored in `self._result` (`None`: nothing). */
  datatype Step = Step(outcome: Outcome<Result>, files: map<string, FileText>, stored: Option<Result>)

  /** The key of a command's cache file: the uuid of the bound controller. */
  function CacheKey(args: Args): string
    requires args.controllerConfig.Some?
  {
    args.controllerConfig.value.uuid
  }

  /** `Command.__call__` as a function of the command, its arguments, the prior
      results and the cache directory. */
  function Lifecycle(def: CommandDef, args: Args, prev: Option<seq<Result>>, files: map<string, FileText>): Step
  {
    if args.controllerConfig.None? then
      Step(Raised(KeyError("controller_config")), files, None)
    else if Cachable(def.cls) && !args.refresh then
      match LoadFromCache(def.cls, FileAt(files, CacheKey(args)))
      case Raised(e) => Step(Raised(e), files, None)
      case Returned(cached) =>
        if Truthy(cached) then
          Step(Returned(Result(true, cached, None)), files, Some(Result(true, cached, None)))
        else
          Executed(def, args, prev, files)
    else
      Executed(def, args, prev, files)
  }

  /** The part of the call after a cache miss. */
  function Executed(def: CommandDef, args: Args, prev: Option<seq<Result>>, files: map<string, FileText>): Step
    requires args.controllerConfig.Some?
  {
    var r := Envelope(Process(def, args, prev));
    if !r.success || !Cachable(def.cls) then
      Step(Returned(r), files, Some(r))
    else
      var e := SaveSpec(def.cls, CacheKey(args), FileAt(files, CacheKey(args)), r);
      Step(if e.outcome.Raised? then Raised(e.outcome.error) else Returned(r),
           Written(files, CacheKey(args), e.file), Some(r))
  }

  /** A command instance; `result` is `self._result`. */
  class Command {
    const def: CommandDef
    var result: Option<Result>

    constructor (def: CommandDef)
      ensures this.def == def && result == None
    {
      this.def := def;
      result := None;
    }

    /** `__call__` */
    method Call(args: Args, prev: Option<seq<Result>>, dir: CacheDir) returns (r: Outcome<Result>)
      modifies this, dir
      ensures var s := Lifecycle(def, args, prev, old(dir.files));
                r == s.outcome && dir.files == s.files &&
                result == (if s.stored.Some? then s.stored else old(result))
    {
      if args.controllerConfig.None? {
        return Raised(KeyError("controller_config"));
      }
      var uuid := args.controllerConfig.value.uuid;
      if Cachable(def.cls) && !args.refresh {
        var cached := LoadFromCache(def.cls, FileAt(dir.files, uuid));
        if cached.Raised? {
          return Raised(cached.error);
        }
        if Truthy(cached.value) {
          result := Some(Result(true, cached.value, None));
          return Returned(result.value);
        }
      }
      // try:
      var output: Outcome<Value>;
      var pre := def.preProcess(args, prev);
      if pre.Raised? {
        output := Raised(pre.error);
      } else {
        var raw := def.execute(args, prev, pre.value);
        if raw.Raised? {
          output := Raised(raw.error);
        } else {
          output := def.postProcess(raw.value, prev, pre.value, args);
        }
      }
      // except Exception as error:
      if output.Raised? {
        result := Some(Result(false, Null, Some(output.error)));
        return Returned(result.value);
      }
      result := Some(Result(true, output.value, None));
      if Cachable(def.cls) {
        var saved := SaveToCache(def.cls, dir, uuid, result.value);
        if saved.Raised? {
          return Raised(saved.error);
        }
      }
      r := Returned(result.value);
    }
  }

  /** What a command group returns or raises, and the cache directory afterwards. */
  datatype GroupStep = GroupStep(outcome: Outcome<seq<Result>>, files: map<string, FileText>)

  /** The list a sequential group starts from: the caller's list, if it passed one. */
  function InitialResults(prev: Option<seq<Result>>): seq<Result>
  {
    if prev.Some? then prev.value else []
  }

  /** The sequential group from accumulated results `acc`: each child is given
      everything accumulated so far; a raise ends the group. */
  function SequentialSpec(defs: seq<CommandDef>, args: Args, acc: seq<Result>, files: map<string, FileText>): GroupStep
    decreases |defs|
  {
    if defs == [] then GroupStep(Returned(acc), files)
    else
      var s := Lifecycle(defs[0], args, Some(acc), files);
      match s.outcome
      case Raised(e) => GroupStep(Raised(e), s.files)
      case Returned(r) => SequentialSpec(defs[1..], args, acc + [r], s.files)
  }

  /** The parallel group: every child is given the caller's `prev` unchanged. */
  function ParallelSpec(defs: seq<CommandDef>, args: Args, prev: Option<seq<Result>>,
                        acc: seq<Result>, files: map<string, FileText>): GroupStep
    decreases |defs|
  {
    if defs == [] then GroupStep(Returned(acc), files)
    else
      var s := Lifecycle(defs[0], args, prev, files);
      match s.outcome
      case Raised(e) => GroupStep(Raised(e), s.files)
      case Returned(r) => ParallelSpec(defs[1..], args, prev, acc + [r], s.files)
  }

  /** One step of the sequential group: child `i` runs, then the rest or the raise. */
  lemma SequentialAt(defs: seq<CommandDef>, i: nat, args: Args, acc: seq<Result>, files: map<string, FileText>)
    requires i < |defs|
    ensures var s := Lifecycle(defs[i], args, Some(acc), files);
            SequentialSpec(defs[i..], args, acc, files) ==
              if s.outcome.Raised? then GroupStep(Raised(s.outcome.error), s.files)
              else SequentialSpec(defs[i + 1..], args, acc + [s.outcome.value], s.files)
  {
    assert defs[i..][0] == defs[i] && defs[i..][1..] == defs[i + 1..];
  }

  /** One step of the parallel group: child `i` runs, then the rest or the raise. */
  lemma ParallelAt(defs: seq<CommandDef>, i: nat, args: Args, prev: Option<seq<Result>>,
                   acc: seq<Result>, files: map<string, FileText>)
    requires i < |defs|
    ensures var s := Lifecycle(defs[i], args, prev, files);
            ParallelSpec(defs[i..], args, prev, acc, files) ==
              if s.outcome.Raised? then GroupStep(Raised(s.outcome.error), s.files)
              else ParallelSpec(defs[i + 1..], args, prev, acc + [s.outcome.value], s.files)
  {
    assert defs[i..][0] == defs[i] && defs[i..][1..] == defs[i + 1..];
  }

  /** The definitions of a list of commands. */
  function Defs(commands: seq<Command>): (defs: seq<CommandDef>)
    ensures |defs| == |commands|
    ensures forall i :: 0 <= i < |commands| ==> defs[i] == commands[i].def
  {
    if commands == [] then [] else [commands[0].def] + Defs(commands[1..])
  }

  class SequentialCommandGroup {
    const commands: seq<Command>

    constructor (commands: seq<Command>)
      ensures this.commands == commands
    {
      this.commands := commands;
    }

    /** `__call__`: run the children in order, each seeing all results so far. */
    method Call(args: Args, prev: Option<seq<Result>>, dir: CacheDir) returns (r: Outcome<seq<Result>>)
      modifies dir, set c | c in commands
      ensures var g := SequentialSpec(Defs(commands), args, InitialResults(prev), old(dir.files));
                r == g.outcome && dir.files == g.files
    {
      var results: seq<Result> := [];
      if prev.Some? {
        results := results + prev.value;
      }
      assert results == InitialResults(prev);
      r := RunFrom(args, results, dir);
    }

    /** The loop of `__call__`, from the list `acc` built so far. */
    method RunFrom(args: Args, acc: seq<Result>, dir: CacheDir) returns (r: Outcome<seq<Result>>)
      modifies dir, set c | c in commands
      ensures var g := SequentialSpec(Defs(commands), args, acc, old(dir.files));
                r == g.outcome && dir.files == g.files
    {
      var defs := Defs(commands);
      var results := acc;
      var i := 0;
      while i < |commands|
        invariant 0 <= i <= |commands|
        invariant SequentialSpec(defs, args, acc, old(dir.files))
                  == SequentialSpec(defs[i..], args, results, dir.files)
      {
        SequentialAt(defs, i, args, results, dir.files);
        var out := commands[i].Call(args, Some(results), dir);
        if out.Raised? {
          return Raised(out.error);
        }
        results := results + [out.value];
        i := i + 1;
      }
      r := Returned(results);
    }
  }

  class ParallelCommandGroup {
    const commands: seq<Command>

    constructor (commands: seq<Command>)
      ensures this.commands == commands
    {
      this.commands := commands;
    }

    /** `__call__`: run the children in order, each seeing the caller's `prev`. */
    method Call(args: Args, prev: Option<seq<Result>>, dir: CacheDir) returns (r: Outcome<seq<Result>>)
      modifies dir, set c | c in commands
      ensures var g := ParallelSpec(Defs(commands), args, prev, [], old(dir.files));
                r == g.outcome && dir.files == g.files
    {
      var defs := Defs(commands);
      var results: seq<Result> := [];
      var i := 0;
      while i < |commands|
        invariant 0 <= i <= |commands|
        invariant ParallelSpec(defs, args, prev, [], old(dir.files))
                  == ParallelSpec(defs[i..], args, prev, results, dir.files)
      {
        ParallelAt(defs, i, args, prev, results, dir.files);
        var out := commands[i].Call(args, prev, dir);
        if out.Raised? {
          return Raised(out.error);
        }
        results := results + [out.value];
        i := i + 1;
      }
      r := Returned(results);
    }
  }
}
