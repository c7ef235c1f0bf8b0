/**
 * The `ListModels` read command: its guard on the previous result and its
 * cache hooks. Its `execute` (listing the models of the connected controller)
 * is an oracle supplied by the caller.
 */
module ListModels {
  import opened Wrappers
  import opened Types
  import opened CacheFiles

  const NAME := "ListModels"

  const NO_PREV_MESSAGE := "failed to run ListModels: expecting `prev_results` from GetController."
  const NOT_CONTROLLER_MESSAGE :=
    "failed to run ListModels: expecting `prev_results[-1].output` is of type juju.Controller."

  /** `raise e` where `e` may be `None`: raising `None` is itself a `TypeError`. */
  function Reraise(e: Option<Error>): Error
  {
    if e.Some? then e.value else TypeError("exceptions must derive from BaseException")
  }

  /** `pre_process`: the previous result must be a successful `GetController`. */
  function PreProcess(args: Args, prev: Option<seq<Result>>): (r: Outcome<Value>)
    ensures prev.None? ==> r == Raised(ValueError(NO_PREV_MESSAGE))
    ensures prev.Some? && prev.value != [] && !prev.value[|prev.value| - 1].success ==>
              r == Raised(Reraise(prev.value[|prev.value| - 1].error))
    ensures prev == Some([]) ==> r == Raised(IndexError("list index out of range"))
    ensures r.Returned? <==>
              prev.Some? && prev.value != [] && prev.value[|prev.value| - 1].success &&
              prev.value[|prev.value| - 1].output.Controller?
    ensures r.Returned? ==> r.value == Null
  {
    if prev.None? then Raised(ValueError(NO_PREV_MESSAGE))
    else if prev.value != [] && !prev.value[|prev.value| - 1].success then
      Raised(Reraise(prev.value[|prev.value| - 1].error))
    else if prev.value == [] then Raised(IndexError("list index out of range"))
    else if !prev.value[|prev.value| - 1].output.Controller? then Raised(ValueError(NOT_CONTROLLER_MESSAGE))
    else Returned(Null)
  }

  /** `load_from_cache`: the shared read of the cache file. The check for
      "models" only decides what is logged, so a file without it is returned whole. */
  function LoadFromCache(file: Option<FileText>): Value
  {
    ParsedOrEmpty(file)
  }

  /** The effect of `save_to_cache` on the file at `path`. The old content came
      from `json.load`, so only the output can stop `json.dump`. */
  function SaveSpec(path: string, file: Option<FileText>, result: Result): (e: SaveEffect)
    // the first open for reading is outside the try: a missing file raises
    ensures file.None? ==> e == SaveEffect(Raised(FileNotFoundError(path)), None)
    ensures file.Some? ==> e.outcome == Returned(())
    // the second open truncates; a failed result leaves the file empty
    ensures file.Some? && !result.success ==> e.file == Some(Empty)
    // a document that is not an object has no `update`: the AttributeError is
    // caught and the file stays empty
    ensures file.Some? && result.success && !ParsedOrEmpty(file).Dict? ==> e.file == Some(Empty)
    // a successful result is merged under "models", every other key kept
    ensures file.Some? && result.success && ParsedOrEmpty(file).Dict? && Serializable(result.output) ==>
              e.file == Some(Json(Dict(ParsedOrEmpty(file).entries["models" := result.output])))
    ensures file.Some? && result.success && ParsedOrEmpty(file).Dict? && !Serializable(result.output) ==>
              e.file == Some(Malformed)
  {
    if file.None? then SaveEffect(Raised(FileNotFoundError(path)), None)
    else if !result.success || !ParsedOrEmpty(file).Dict? then SaveEffect(Returned(()), Some(Empty))
    else if !Serializable(result.output) then SaveEffect(Returned(()), Some(Malformed))
    else SaveEffect(Returned(()), Some(Json(Dict(ParsedOrEmpty(file).entries["models" := result.output]))))
  }

  /** `save_to_cache`: read the old content, truncate the file, write the merged object. */
  method SaveToCache(dir: CacheDir, path: string, result: Result) returns (r: Outcome<Unit>)
    modifies dir
    ensures var e := SaveSpec(path, FileAt(old(dir.files), path), result);
              r == e.outcome && dir.files == Written(old(dir.files), path, e.file)
  {
    if path !in dir.files {
      return Raised(FileNotFoundError(path));
    }
    var content := ParsedOrEmpty(Some(dir.files[path]));
    dir.files := dir.files[path := Empty];
    if !result.success || !content.Dict? {
      return Returned(());
    }
    var merged := content.entries["models" := result.output];
    if !Serializable(result.output) {
      dir.files := dir.files[path := Malformed];
      return Returned(());
    }
    dir.files := dir.files[path := Json(Dict(merged))];
    r := Returned(());
  }

  /** Loading right after a successful save over an object, or over a file that
      does not parse, gives back the saved models under "models" (the loader
      returns the whole object, not the models alone). */
  lemma SaveThenLoad(path: string, file: FileText, models: Value)
    requires Serializable(models)
    requires ParsedOrEmpty(Some(file)).Dict?
    ensures var e := SaveSpec(path, Some(file), Result(true, models, None));
              LoadFromCache(e.file).Dict? && "models" in LoadFromCache(e.file).entries &&
              LoadFromCache(e.file).entries["models"] == models
  {
  }

  /** Saving over a document that is not an object loses it: the file is left
      empty, so the next load is a miss. */
  lemma SaveOverNonObjectEmpties(path: string, doc: Value, models: Value)
    requires !doc.Dict?
    ensures var e := SaveSpec(path, Some(Json(doc)), Result(true, models, None));
              e == SaveEffect(Returned(()), Some(Empty)) && LoadFromCache(e.file) == Dict(map[])
  {
  }
}
