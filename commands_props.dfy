/**
 * Properties of the command lifecycle and of the two command groups, and of
 * `GetController` followed by `ListModels`, which share one cache file per
 * controller.
 */
module CommandProperties {
  import opened Wrappers
  import opened Types
  import opened CacheFiles
  import opened Commands
  import GetController

  /** A cacheable command whose loader returns a truthy value returns it as a
      success without running any of its three steps, and writes nothing. */
  lemma CacheHitShortCircuits(def: CommandDef, args: Args, prev: Option<seq<Result>>,
                              files: map<string, FileText>, cached: Value,
                              p: PreProcess, e: Execute, q: PostProcess)
    requires args.controllerConfig.Some? && Cachable(def.cls) && !args.refresh
    requires LoadFromCache(def.cls, FileAt(files, CacheKey(args))) == Returned(cached) && Truthy(cached)
    ensures Lifecycle(def, args, prev, files)
            == Step(Returned(Result(true, cached, None)), files, Some(Result(true, cached, None)))
    ensures Lifecycle(def.(preProcess := p, execute := e, postProcess := q), args, prev, files)
            == Lifecycle(def, args, prev, files)
  {
  }

  /** Without a hit (not cacheable, `refresh`, or a falsy cached value) the call
      stores the envelope of pre-process, execute and post-process; a failure
      is returned as data and leaves the cache untouched. */
  lemma MissRunsTheSteps(def: CommandDef, args: Args, prev: Option<seq<Result>>, files: map<string, FileText>)
    requires args.controllerConfig.Some?
    requires !Cachable(def.cls) || args.refresh ||
             (LoadFromCache(def.cls, FileAt(files, CacheKey(args))).Returned? &&
              !Truthy(LoadFromCache(def.cls, FileAt(files, CacheKey(args))).value))
    ensures var s := Lifecycle(def, args, prev, files);
              s.stored == Some(Envelope(Process(def, args, prev))) &&
              (s.outcome.Returned? ==> s.outcome.value == Envelope(Process(def, args, prev)))
    ensures Process(def, args, prev).Raised? ==>
              Lifecycle(def, args, prev, files)
              == Step(Returned(Result(false, Null, Some(Process(def, args, prev).error))), files,
                      Some(Result(false, Null, Some(Process(def, args, prev).error))))
  {
  }

  /** With the default `pre_process` and `post_process`, the output is exactly
      what `execute` returns, given `None` as the derived input. */
  lemma DefaultStepsAreExecute(cls: CommandClass, name: string, e: Execute, args: Args, prev: Option<seq<Result>>)
    ensures Process(CommandDef(cls, name, DefaultPreProcess, e, DefaultPostProcess), args, prev) == e(args, prev, Null)
  {
  }

  /** The cache directory changes only when a cacheable command ran its steps
      successfully, and then only at the file named by the controller uuid. */
  lemma CacheWrittenOnlyAfterSuccess(def: CommandDef, args: Args, prev: Option<seq<Result>>, files: map<string, FileText>)
    ensures var s := Lifecycle(def, args, prev, files);
              s.files != files ==>
                args.controllerConfig.Some? && Cachable(def.cls) && Process(def, args, prev).Returned? &&
                s.stored == Some(Result(true, Process(def, args, prev).value, None))
    ensures args.controllerConfig.Some? ==>
              forall k :: k != CacheKey(args) ==> FileAt(Lifecycle(def, args, prev, files).files, k) == FileAt(files, k)
  {
    var s := Lifecycle(def, args, prev, files);
    if args.controllerConfig.Some? {
      forall k | k != CacheKey(args)
        ensures FileAt(s.files, k) == FileAt(files, k)
      {
      }
    }
  }

  /** The converse: on a miss, a cacheable command whose steps returned always
      runs its `save_to_cache`, which rewrites the controller's file as the hook
      says. The save sits outside the `try`, so an error it raises escapes the
      call, although the success envelope is already stored. */
  lemma SaveAfterSuccess(def: CommandDef, args: Args, prev: Option<seq<Result>>, files: map<string, FileText>)
    requires args.controllerConfig.Some? && Cachable(def.cls)
    requires args.refresh ||
             (LoadFromCache(def.cls, FileAt(files, CacheKey(args))).Returned? &&
              !Truthy(LoadFromCache(def.cls, FileAt(files, CacheKey(args))).value))
    requires Process(def, args, prev).Returned?
    ensures var r := Result(true, Process(def, args, prev).value, None);
            var e := SaveSpec(def.cls, CacheKey(args), FileAt(files, CacheKey(args)), r);
            var s := Lifecycle(def, args, prev, files);
              s.files == Written(files, CacheKey(args), e.file) && s.stored == Some(r) &&
              (s.outcome.Raised? <==> e.outcome.Raised?) &&
              (e.outcome.Raised? ==> s.outcome.error == e.outcome.error) &&
              (s.outcome.Returned? ==> s.outcome.value == r)
  {
  }

  /** `ListModels` with `refresh` and no cache file for the controller: all three
      steps succeed, but the save's read-open raises FileNotFoundError out of the
      call, and the directory stays as it was. */
  lemma RefreshedListModelsWithoutFileRaises(execute: Execute, args: Args, prev: Option<seq<Result>>,
                                             files: map<string, FileText>)
    requires args.controllerConfig.Some? && args.refresh && CacheKey(args) !in files
    requires Process(ListModelsDef(execute), args, prev).Returned?
    ensures var s := Lifecycle(ListModelsDef(execute), args, prev, files);
              s.outcome == Raised(FileNotFoundError(CacheKey(args))) && s.files == files &&
              s.stored == Some(Result(true, Process(ListModelsDef(execute), args, prev).value, None))
  {
    SaveAfterSuccess(ListModelsDef(execute), args, prev, files);
    assert files - {CacheKey(args)} == files;
  }

  /** A call depends on the cache directory only through the file named by the
      controller uuid: the command's name plays no part in the key, so every
      cacheable command run against one controller reads and writes one file. */
  lemma OnlyTheTargetFileMatters(def: CommandDef, args: Args, prev: Option<seq<Result>>,
                                 f1: map<string, FileText>, f2: map<string, FileText>)
    requires args.controllerConfig.Some?
    requires FileAt(f1, CacheKey(args)) == FileAt(f2, CacheKey(args))
    ensures var s1, s2 := Lifecycle(def, args, prev, f1), Lifecycle(def, args, prev, f2);
              s1.outcome == s2.outcome && s1.stored == s2.stored &&
              FileAt(s1.files, CacheKey(args)) == FileAt(s2.files, CacheKey(args))
  {
  }

  /** A write command never consults or changes the cache and never raises
      once a controller is bound: its failures come back as data. */
  lemma WriteCommandBypassesCache(def: CommandDef, args: Args, prev: Option<seq<Result>>, files: map<string, FileText>)
    requires def.cls == JujuWriteCommand && args.controllerConfig.Some?
    ensures Lifecycle(def, args, prev, files)
            == Step(Returned(Envelope(Process(def, args, prev))), files, Some(Envelope(Process(def, args, prev))))
  {
  }

  /** The default read and read-write hooks never produce a hit and never write. */
  lemma DefaultHooksNeverHit(def: CommandDef, args: Args, prev: Option<seq<Result>>, files: map<string, FileText>)
    requires def.cls == JujuReadCommand || def.cls == JujuReadWriteCommand
    requires args.controllerConfig.Some?
    ensures Lifecycle(def, args, prev, files)
            == Step(Returned(Envelope(Process(def, args, prev))), files, Some(Envelope(Process(def, args, prev))))
  {
    assert Written(files, CacheKey(args), FileAt(files, CacheKey(args))) == files;
  }

  // ----- the sequential group -----

  /** The sequential group returns the caller's list followed by one result per child. */
  lemma {:induction false} SequentialShape(defs: seq<CommandDef>, args: Args, acc: seq<Result>, files: map<string, FileText>)
    ensures var g := SequentialSpec(defs, args, acc, files);
              g.outcome.Returned? ==> |g.outcome.value| == |acc| + |defs| && g.outcome.value[..|acc|] == acc
    decreases |defs|
  {
    if defs != [] {
      var s := Lifecycle(defs[0], args, Some(acc), files);
      if s.outcome.Returned? {
        SequentialShape(defs[1..], args, acc + [s.outcome.value], s.files);
        var v := SequentialSpec(defs, args, acc, files).outcome;
        if v.Returned? {
          assert v.value[..|acc|] == (v.value[..|acc| + 1])[..|acc|];
        }
      }
    }
  }

  /** Child `i` of a sequential group is given the caller's list plus the results of
      children `0 .. i-1`, and a failed child does not stop the later ones. */
  lemma {:induction false} SequentialChildSeesEarlierResults(defs: seq<CommandDef>, args: Args, acc: seq<Result>,
                                                            files: map<string, FileText>, i: nat)
    requires i < |defs|
    requires SequentialSpec(defs, args, acc, files).outcome.Returned?
    ensures var v := SequentialSpec(defs, args, acc, files).outcome.value;
            var p := SequentialSpec(defs[..i], args, acc, files);
              |v| == |acc| + |defs| &&
              p.outcome == Returned(v[..|acc| + i]) &&
              Lifecycle(defs[i], args, Some(v[..|acc| + i]), p.files).outcome == Returned(v[|acc| + i])
    decreases |defs|
  {
    SequentialShape(defs, args, acc, files);
    var v := SequentialSpec(defs, args, acc, files).outcome.value;
    var s := Lifecycle(defs[0], args, Some(acc), files);
    var r := s.outcome.value;
    SequentialShape(defs[1..], args, acc + [r], s.files);
    assert v[..|acc| + 1] == acc + [r];
    if i == 0 {
      assert defs[..0] == [];
      assert v[..|acc|] == acc;
      assert v[|acc|] == r;
    } else {
      SequentialChildSeesEarlierResults(defs[1..], args, acc + [r], s.files, i - 1);
      assert defs[..i][0] == defs[0];
      assert defs[..i][1..] == defs[1..][..i - 1];
      assert defs[1..][i - 1] == defs[i];
    }
  }

  // ----- the parallel group -----

  /** The parallel group returns exactly one result per child. */
  lemma {:induction false} ParallelShape(defs: seq<CommandDef>, args: Args, prev: Option<seq<Result>>,
                                         acc: seq<Result>, files: map<string, FileText>)
    ensures var g := ParallelSpec(defs, args, prev, acc, files);
              g.outcome.Returned? ==> |g.outcome.value| == |acc| + |defs| && g.outcome.value[..|acc|] == acc
    decreases |defs|
  {
    if defs != [] {
      var s := Lifecycle(defs[0], args, prev, files);
      if s.outcome.Returned? {
        ParallelShape(defs[1..], args, prev, acc + [s.outcome.value], s.files);
        var v := ParallelSpec(defs, args, prev, acc, files).outcome;
        if v.Returned? {
          assert v.value[..|acc|] == (v.value[..|acc| + 1])[..|acc|];
        }
      }
    }
  }

  /** Every child of a parallel group is given the caller's `prev` unchanged,
      and result `i` is child `i`'s. */
  lemma {:induction false} ParallelChildSeesCallerResults(defs: seq<CommandDef>, args: Args, prev: Option<seq<Result>>,
                                                         acc: seq<Result>, files: map<string, FileText>, i: nat)
    requires i < |defs|
    requires ParallelSpec(defs, args, prev, acc, files).outcome.Returned?
    ensures var v := ParallelSpec(defs, args, prev, acc, files).outcome.value;
            var p := ParallelSpec(defs[..i], args, prev, acc, files);
              |v| == |acc| + |defs| &&
              p.outcome == Returned(v[..|acc| + i]) &&
              Lifecycle(defs[i], args, prev, p.files).outcome == Returned(v[|acc| + i])
    decreases |defs|
  {
    ParallelShape(defs, args, prev, acc, files);
    var v := ParallelSpec(defs, args, prev, acc, files).outcome.value;
    var s := Lifecycle(defs[0], args, prev, files);
    var r := s.outcome.value;
    ParallelShape(defs[1..], args, prev, acc + [r], s.files);
    assert v[..|acc| + 1] == acc + [r];
    if i == 0 {
      assert defs[..0] == [];
      assert v[..|acc|] == acc;
      assert v[|acc|] == r;
    } else {
      ParallelChildSeesCallerResults(defs[1..], args, prev, acc + [r], s.files, i - 1);
      assert defs[..i][0] == defs[0];
      assert defs[..i][1..] == defs[1..][..i - 1];
      assert defs[1..][i - 1] == defs[i];
    }
  }

  // ----- GetController followed by ListModels -----

  /** One step of the sequential group: a child that returns passes its result on. */
  lemma SequentialStep(defs: seq<CommandDef>, args: Args, acc: seq<Result>, files: map<string, FileText>,
                       r: Result, next: map<string, FileText>)
    requires defs != []
    requires Lifecycle(defs[0], args, Some(acc), files) == Step(Returned(r), next, Some(r))
    ensures SequentialSpec(defs, args, acc, files) == SequentialSpec(defs[1..], args, acc + [r], next)
  {
  }

  /** With `refresh`, `GetController` then `ListModels` both execute, and the
      shared file ends up holding the controller record plus "models". */
  lemma RefreshedPipelineMergesOneFile(getExec: Execute, listExec: Execute, args: Args,
                                       files: map<string, FileText>, u: string, n: string, models: Value)
    requires args.controllerConfig.Some? && args.refresh
    requires getExec(args, Some([]), Null) == Returned(Controller(u, n))
    requires listExec(args, Some([Result(true, Controller(u, n), None)]), Null) == Returned(models)
    requires Serializable(models)
    ensures SequentialSpec([GetControllerDef(getExec), ListModelsDef(listExec)], args, [], files)
            == GroupStep(Returned([Result(true, Controller(u, n), None), Result(true, models, None)]),
                         files[CacheKey(args) := Json(Dict(GetController.ControllerRecord(u, n)["models" := models]))])
  {
    var defs := [GetControllerDef(getExec), ListModelsDef(listExec)];
    var key := CacheKey(args);
    var r1 := Result(true, Controller(u, n), None);
    var r2 := Result(true, models, None);
    var f1 := files[key := Json(Dict(GetController.ControllerRecord(u, n)))];
    var f2 := files[key := Json(Dict(GetController.ControllerRecord(u, n)["models" := models]))];
    assert Process(defs[0], args, Some([])) == Returned(Controller(u, n));
    assert Lifecycle(defs[0], args, Some([]), files) == Step(Returned(r1), f1, Some(r1));
    assert ListModels.PreProcess(args, Some([r1])) == Returned(Null);
    assert Process(defs[1], args, Some([r1])) == Returned(models);
    assert f1[key := Json(Dict(GetController.ControllerRecord(u, n)["models" := models]))] == f2;
    assert Lifecycle(defs[1], args, Some([r1]), f1) == Step(Returned(r2), f2, Some(r2));
    SequentialStep(defs, args, [], files, r1, f1);
    assert [] + [r1] == [r1];
    SequentialStep(defs[1..], args, [r1], f1, r2, f2);
    assert defs[1..][1..] == [] && [r1] + [r2] == [r1, r2];
    assert SequentialSpec([], args, [r1, r2], f2) == GroupStep(Returned([r1, r2]), f2);
  }

  /** Without `refresh`, on a controller with no cache file, `GetController`
      executes and writes its record, and `ListModels` then takes that record,
      which has no "models", as a cache hit: the models are never listed. */
  lemma FirstRunWithoutRefreshNeverListsModels(getExec: Execute, listExec: Execute, args: Args,
                                               files: map<string, FileText>, u: string, n: string)
    requires args.controllerConfig.Some? && !args.refresh && CacheKey(args) !in files
    requires getExec(args, Some([]), Null) == Returned(Controller(u, n))
    ensures SequentialSpec([GetControllerDef(getExec), ListModelsDef(listExec)], args, [], files)
            == GroupStep(Returned([Result(true, Controller(u, n), None),
                                   Result(true, Dict(GetController.ControllerRecord(u, n)), None)]),
                         files[CacheKey(args) := Json(Dict(GetController.ControllerRecord(u, n)))])
    ensures "models" !in GetController.ControllerRecord(u, n)
  {
    var defs := [GetControllerDef(getExec), ListModelsDef(listExec)];
    var key := CacheKey(args);
    var record := GetController.ControllerRecord(u, n);
    var r1 := Result(true, Controller(u, n), None);
    var r2 := Result(true, Dict(record), None);
    var f1 := files[key := Json(Dict(record))];
    assert LoadFromCache(GetControllerCommand, FileAt(files, key)) == Returned(Dict(map[]));
    assert Process(defs[0], args, Some([])) == Returned(Controller(u, n));
    assert Lifecycle(defs[0], args, Some([]), files) == Step(Returned(r1), f1, Some(r1));
    assert Truthy(Dict(record)) by {
      assert "uuid" in record;
    }
    assert LoadFromCache(ListModelsCommand, FileAt(f1, key)) == Returned(Dict(record));
    assert Lifecycle(defs[1], args, Some([r1]), f1) == Step(Returned(r2), f1, Some(r2));
    SequentialStep(defs, args, [], files, r1, f1);
    assert [] + [r1] == [r1];
    SequentialStep(defs[1..], args, [r1], f1, r2, f1);
    assert defs[1..][1..] == [] && [r1] + [r2] == [r1, r2];
    assert SequentialSpec([], args, [r1, r2], f1) == GroupStep(Returned([r1, r2]), f1);
  }

  /** Without `refresh`, once the shared file holds a truthy document, both
      commands are served from it: each returns the whole document, so
      `GetController` returns no controller and `ListModels` no bare list of
      models. The document need not be an object: a non-empty array, a non-empty
      string, a non-zero number or `true` is a hit as well. */
  lemma CachedPipelineServesWholeFile(getExec: Execute, listExec: Execute, args: Args,
                                      files: map<string, FileText>, doc: Value)
    requires args.controllerConfig.Some? && !args.refresh
    requires FileAt(files, CacheKey(args)) == Some(Json(doc)) && Truthy(doc)
    ensures SequentialSpec([GetControllerDef(getExec), ListModelsDef(listExec)], args, [], files)
            == GroupStep(Returned([Result(true, doc, None), Result(true, doc, None)]), files)
  {
    var defs := [GetControllerDef(getExec), ListModelsDef(listExec)];
    var key := CacheKey(args);
    var r := Result(true, doc, None);
    assert LoadFromCache(GetControllerCommand, FileAt(files, key)) == Returned(doc);
    assert Lifecycle(defs[0], args, Some([]), files) == Step(Returned(r), files, Some(r));
    assert LoadFromCache(ListModelsCommand, FileAt(files, key)) == Returned(doc);
    assert Lifecycle(defs[1], args, Some([r]), files) == Step(Returned(r), files, Some(r));
    SequentialStep(defs, args, [], files, r, files);
    assert [] + [r] == [r];
    SequentialStep(defs[1..], args, [r], files, r, files);
    assert defs[1..][1..] == [] && [r] + [r] == [r, r];
    assert SequentialSpec([], args, [r, r], files) == GroupStep(Returned([r, r]), files);
  }

  /** A `ListModels` run without `refresh` on a cache file holding the array `[1]`
      returns that array as its output without listing anything, and a file
      holding `[]` is a miss that runs the steps. */
  lemma NonObjectFileExample(listExec: Execute, args: Args, prev: Option<seq<Result>>, files: map<string, FileText>)
    requires args.controllerConfig.Some? && !args.refresh
    ensures var hit := Result(true, List([Int(1)]), None);
            Lifecycle(ListModelsDef(listExec), args, prev, files[CacheKey(args) := Json(List([Int(1)]))])
            == Step(Returned(hit), files[CacheKey(args) := Json(List([Int(1)]))], Some(hit))
    ensures Lifecycle(ListModelsDef(listExec), args, prev, files[CacheKey(args) := Json(List([]))]).stored
            == Some(Envelope(Process(ListModelsDef(listExec), args, prev)))
  {
    var key := CacheKey(args);
    assert LoadFromCache(ListModelsCommand, FileAt(files[key := Json(List([Int(1)]))], key)) == Returned(List([Int(1)]));
    assert LoadFromCache(ListModelsCommand, FileAt(files[key := Json(List([]))], key)) == Returned(List([]));
    MissRunsTheSteps(ListModelsDef(listExec), args, prev, files[key := Json(List([]))]);
  }

}
