/**
 * The `GetController` read-write command's cache hooks. Its `execute`
 * (connecting to the controller) is an oracle supplied by the caller.
 */
module GetController {
  import opened Wrappers
  import opened Types
  import opened CacheFiles

  const NAME := "GetController"

  /** `load_from_cache`: the shared read of the cache file, returned whole. */
  function LoadFromCache(file: Option<FileText>): Value
  {
    ParsedOrEmpty(file)
  }

  /** The record written for a connected controller. */
  function ControllerRecord(controllerUuid: string, controllerName: string): map<string, Value>
  {
    map["uuid" := Str(controllerUuid), "name" := Str(controllerName)]
  }

  /** The effect of `save_to_cache`: never raises; the file is truncated first. */
  function SaveSpec(file: Option<FileText>, result: Result): (e: SaveEffect)
    ensures e.outcome == Returned(())
    ensures e.file.Some?
    // a successful controller replaces the whole content with uuid and name
    ensures result.success && result.output.Controller? ==>
              e.file.value == Json(Dict(ControllerRecord(result.output.controllerUuid, result.output.controllerName)))
    // a failure, or an output without controller attributes, leaves the file empty
    ensures !result.success || !result.output.Controller? ==> e.file.value == Empty
  {
    if result.success && result.output.Controller? then
      SaveEffect(Returned(()), Some(Json(Dict(ControllerRecord(result.output.controllerUuid, result.output.controllerName)))))
    else
      SaveEffect(Returned(()), Some(Empty))
  }

  /** `save_to_cache`: open for writing (creating or truncating), then write the record. */
  method SaveToCache(dir: CacheDir, path: string, result: Result) returns (r: Outcome<Unit>)
    modifies dir
    ensures var e := SaveSpec(FileAt(old(dir.files), path), result);
              r == e.outcome && dir.files == Written(old(dir.files), path, e.file)
  {
    dir.files := dir.files[path := Empty];
    if result.success && result.output.Controller? {
      var content := ControllerRecord(result.output.controllerUuid, result.output.controllerName);
      dir.files := dir.files[path := Json(Dict(content))];
    }
    r := Returned(());
  }

  /** Saving a controller drops whatever else the file held, "models" included. */
  lemma SaveDropsModels(file: Option<FileText>, u: string, n: string)
    ensures var e := SaveSpec(file, Result(true, Controller(u, n), None));
              e.file.Some? && e.file.value.Json? && e.file.value.doc.Dict? && "models" !in e.file.value.doc.entries
  {
  }
}
