/**
 * The file cache of `juju_spell/cache.py`: one YAML file per key inside a
 * cache directory, each holding a timestamp and the cached data, with a
 * time-to-live policy applied when the data is read back.
 *
 * The clock (`time()`) is an integer parameter, and the I/O failures the
 * source turns into `JujuSpellError` are a `Fault` parameter of each call.
 */
module Cache {
  import opened Wrappers
  import opened Types

  const DEFAULT_TTL_RULE := 3600
  const DEFAULT_CACHE_BACKEND := "FileCache"
  const AVALIABLE_BACKENDS: set<string> := {DEFAULT_CACHE_BACKEND}
  /** How the set of backends prints inside the error message. */
  const AVALIABLE_BACKENDS_TEXT := "{'FileCache'}"

  /** The time-to-live of a cache entry, in seconds. */
  datatype CachePolicy = CachePolicy(ttl: int)

  /** What `get` returns: when the data was stored and the data itself. */
  datatype FileCacheContext = FileCacheContext(timestamp: int, data: map<string, Value>)

  /** The content of a cache file: a YAML mapping whose "timestamp" and "data"
      keys may be missing, an empty document (a file truncated by a failed
      write), or anything else `FileCacheContext(**yaml.safe_load(file))`
      rejects, with the text of the error it raises. */
  datatype CacheFile =
    | Record(timestamp: Option<int>, data: Option<map<string, Value>>)
    | Blank
    | Unloadable(reason: string)

  const BLANK_MESSAGE := "juju_spell.cache.FileCacheContext() argument after ** must be a mapping, not NoneType"

  /** A failure of the file operation itself. */
  datatype Fault = NoFault | PermissionDenied | Failure(reason: string)

  /** The outcome of a cache operation and the cache directory afterwards. */
  datatype CacheStep<+T> = CacheStep(outcome: Outcome<T>, files: map<string, CacheFile>)

  /** `cache_directory / key` */
  function CachePath(directory: string, key: string): string
  {
    directory + "/" + key
  }

  /** The message a general failure is re-raised with. */
  function FailureError(reason: string): (e: Error)
    ensures e.JujuSpellError? && e.message == reason + "."
  {
    JujuSpellError(reason + ".")
  }

  /** `_connect`: `None` when no file exists for `key`, else the stored context;
      missing fields take the class defaults. */
  function ConnectSpec(directory: string, files: map<string, CacheFile>, key: string,
                       fault: Fault, importTime: int): (r: Outcome<Option<FileCacheContext>>)
    ensures r == Returned(None) <==> key !in files
    ensures key in files && fault == PermissionDenied ==>
              r == Raised(JujuSpellError("permission denied to read from file `" + CachePath(directory, key) + "`."))
    ensures key in files && fault.Failure? ==> r == Raised(FailureError(fault.reason))
    ensures r.Returned? && r.value.Some? <==> key in files && fault == NoFault && files[key].Record?
    // `**None` and every other rejected document raise, wrapped
    ensures key in files && fault == NoFault && files[key].Blank? ==> r == Raised(FailureError(BLANK_MESSAGE))
    ensures key in files && fault == NoFault && files[key].Unloadable? ==>
              r == Raised(FailureError(files[key].reason))
    // a stored field is kept; a missing one takes the class default: the clock
    // at import for the timestamp, `{}` for the data
    ensures r.Returned? && r.value.Some? ==>
              var f, c := files[key], r.value.value;
              (f.timestamp.Some? ==> c.timestamp == f.timestamp.value) &&
              (f.timestamp.None? ==> c.timestamp == importTime) &&
              (f.data.Some? ==> c.data == f.data.value) &&
              (f.data.None? ==> c.data == map[])
  {
    if key !in files then Returned(None)
    else if fault == PermissionDenied then
      Raised(JujuSpellError("permission denied to read from file `" + CachePath(directory, key) + "`."))
    else if fault.Failure? then Raised(FailureError(fault.reason))
    else
      match files[key]
      case Record(timestamp, data) =>
        Returned(Some(FileCacheContext(
          if timestamp.Some? then timestamp.value else importTime,
          if data.Some? then data.value else map[])))
      case Blank => Raised(FailureError(BLANK_MESSAGE))
      case Unloadable(reason) => Raised(FailureError(reason))
  }

  /** `_check_expired`: strictly older than the time-to-live. */
  predicate Expired(policy: CachePolicy, context: FileCacheContext, now: int)
  {
    context.timestamp + policy.ttl < now
  }

  /** `_remove`: unlink the file; each failure becomes a `JujuSpellError`. */
  function RemoveSpec(directory: string, files: map<string, CacheFile>, key: string, fault: Fault): (s: CacheStep<Unit>)
    ensures s.outcome.Returned? <==> fault == NoFault && key in files
    ensures s.outcome.Returned? ==> s.files == files - {key}
    ensures s.outcome.Raised? ==> s.files == files && s.outcome.error.JujuSpellError?
    ensures fault == NoFault && key !in files ==>
              s.outcome == Raised(JujuSpellError("`" + CachePath(directory, key) + "` does not exists."))
    ensures fault == PermissionDenied ==>
              s.outcome == Raised(JujuSpellError("permission denied to delete file `" + CachePath(directory, key) + "`."))
  {
    if fault == PermissionDenied then
      CacheStep(Raised(JujuSpellError("permission denied to delete file `" + CachePath(directory, key) + "`.")), files)
    else if fault.Failure? then CacheStep(Raised(FailureError(fault.reason)), files)
    else if key !in files then
      CacheStep(Raised(JujuSpellError("`" + CachePath(directory, key) + "` does not exists.")), files)
    else CacheStep(Returned(()), files - {key})
  }

  /** `_commit`: open for writing (truncating), then dump the context as YAML.
      `dumpError` is the text of the error raised when the data cannot be
      represented. It comes from the deep copy in `dataclasses.asdict` or from
      PyYAML's `RepresenterError`, and it names the offending object, so it is
      an input here, like `Fault.reason`. */
  function CommitSpec(directory: string, files: map<string, CacheFile>, key: string,
                      context: FileCacheContext, fault: Fault, dumpError: string): (s: CacheStep<Unit>)
    ensures s.outcome.Returned? <==> fault == NoFault && Serializable(Dict(context.data))
    ensures s.outcome.Returned? ==>
              s.files == files[key := Record(Some(context.timestamp), Some(context.data))]
    // the open itself failed: nothing changed
    ensures fault == PermissionDenied ==>
              s == CacheStep(Raised(JujuSpellError("permission denied to write to file `" + CachePath(directory, key) + "`.")), files)
    ensures fault.Failure? ==> s == CacheStep(Raised(FailureError(fault.reason)), files)
    // the open truncated the file before the dump failed
    ensures fault == NoFault && !Serializable(Dict(context.data)) ==>
              s == CacheStep(Raised(FailureError(dumpError)), files[key := Blank])
  {
    if fault == PermissionDenied then
      CacheStep(Raised(JujuSpellError("permission denied to write to file `" + CachePath(directory, key) + "`.")), files)
    else if fault.Failure? then CacheStep(Raised(FailureError(fault.reason)), files)
    else if !Serializable(Dict(context.data)) then CacheStep(Raised(FailureError(dumpError)), files[key := Blank])
    else CacheStep(Returned(()), files[key := Record(Some(context.timestamp), Some(context.data))])
  }

  /** `get`: the stored context while it is fresh; an expired entry is removed. */
  function GetSpec(policy: CachePolicy, directory: string, files: map<string, CacheFile>, key: string, now: int,
                   readFault: Fault, removeFault: Fault, importTime: int): (s: CacheStep<Option<FileCacheContext>>)
    ensures var c := ConnectSpec(directory, files, key, readFault, importTime);
              (c.Raised? ==> s == CacheStep(Raised(c.error), files)) &&
              (c == Returned(None) ==> s == CacheStep(Returned(None), files)) &&
              (c.Returned? && c.value.Some? && !Expired(policy, c.value.value, now) ==>
                 s == CacheStep(Returned(c.value), files)) &&
              (c.Returned? && c.value.Some? && Expired(policy, c.value.value, now) ==>
                 var rm := RemoveSpec(directory, files, key, removeFault);
                 s.files == rm.files &&
                 s.outcome == (if rm.outcome.Raised? then Raised(rm.outcome.error) else Returned(None)))
  {
    match ConnectSpec(directory, files, key, readFault, importTime)
    case Raised(e) => CacheStep(Raised(e), files)
    case Returned(context) =>
      if context.None? then CacheStep(Returned(None), files)
      else if Expired(policy, context.value, now) then
        var rm := RemoveSpec(directory, files, key, removeFault);
        CacheStep(if rm.outcome.Raised? then Raised(rm.outcome.error) else Returned(None), rm.files)
      else CacheStep(Returned(context), files)
  }

  /** `put`: commit the value stamped with the current time. */
  function PutSpec(directory: string, files: map<string, CacheFile>, key: string, value: map<string, Value>,
                   now: int, fault: Fault, dumpError: string): (s: CacheStep<Unit>)
    ensures s.outcome.Returned? <==> fault == NoFault && Serializable(Dict(value))
    ensures s.outcome.Returned? ==> s.files == files[key := Record(Some(now), Some(value))]
    ensures fault == NoFault && !Serializable(Dict(value)) ==>
              s == CacheStep(Raised(FailureError(dumpError)), files[key := Blank])
    ensures forall k :: k != key ==> (k in s.files <==> k in files) && (k in files ==> s.files[k] == files[k])
  {
    CommitSpec(directory, files, key, FileCacheContext(now, value), fault, dumpError)
  }

  /** `use_cache`: only the file backend exists. */
  function UseCacheError(backend: string): (r: Option<Error>)
    ensures r.None? <==> backend == "FileCache"
    ensures r.Some? ==> r.value == JujuSpellError("Supported cache backends are " + AVALIABLE_BACKENDS_TEXT)
  {
    if backend !in AVALIABLE_BACKENDS then
      Some(JujuSpellError("Supported cache backends are " + AVALIABLE_BACKENDS_TEXT))
    else None
  }

  /** A `FileCache`: its policy, its directory and the files in that directory,
      keyed by file name. `importTime` is the clock when the module was loaded,
      which `FileCacheContext` takes as its default timestamp. */
  class FileCache {
    var policy: CachePolicy
    const cacheDirectory: string
    const importTime: int
    var files: map<string, CacheFile>

    /** `__init__`: create the directory when it does not exist (`existing` is
        `None`), otherwise keep the files already in it. */
    constructor (cacheDirectory: string, existing: Option<map<string, CacheFile>>, importTime: int)
      ensures policy == CachePolicy(DEFAULT_TTL_RULE)
      ensures this.cacheDirectory == cacheDirectory && this.importTime == importTime
      ensures files == (if existing.Some? then existing.value else map[])
    {
      policy := CachePolicy(DEFAULT_TTL_RULE);
      this.cacheDirectory := cacheDirectory;
      this.importTime := importTime;
      if existing.None? {
        files := map[];
      } else {
        files := existing.value;
      }
    }

    /** `_connect` */
    method Connect(key: string, fault: Fault) returns (r: Outcome<Option<FileCacheContext>>)
      ensures r == ConnectSpec(cacheDirectory, files, key, fault, importTime)
    {
      var path := cacheDirectory + "/" + key;
      if key !in files {
        return Returned(None);
      }
      if fault == PermissionDenied {
        return Raised(JujuSpellError("permission denied to read from file `" + path + "`."));
      }
      if fault.Failure? {
        return Raised(JujuSpellError(fault.reason + "."));
      }
      var loaded := files[key];
      match loaded
      case Blank =>
        r := Raised(JujuSpellError(BLANK_MESSAGE + "."));
      case Unloadable(reason) =>
        r := Raised(JujuSpellError(reason + "."));
      case Record(timestamp, data) =>
        var context := FileCacheContext(importTime, map[]);
        if timestamp.Some? {
          context := context.(timestamp := timestamp.value);
        }
        if data.Some? {
          context := context.(data := data.value);
        }
        r := Returned(Some(context));
    }

    /** `_remove` */
    method Remove(key: string, fault: Fault) returns (r: Outcome<Unit>)
      modifies this
      ensures var s := RemoveSpec(cacheDirectory, old(files), key, fault);
                r == s.outcome && files == s.files && policy == old(policy)
    {
      var path := cacheDirectory + "/" + key;
      match fault
      case PermissionDenied =>
        r := Raised(JujuSpellError("permission denied to delete file `" + path + "`."));
      case Failure(reason) =>
        r := Raised(JujuSpellError(reason + "."));
      case NoFault =>
        if key !in files {
          r := Raised(JujuSpellError("`" + path + "` does not exists."));
        } else {
          files := files - {key};
          r := Returned(());
        }
    }

    /** `_commit` */
    method Commit(key: string, context: FileCacheContext, fault: Fault, dumpError: string) returns (r: Outcome<Unit>)
      modifies this
      ensures var s := CommitSpec(cacheDirectory, old(files), key, context, fault, dumpError);
                r == s.outcome && files == s.files && policy == old(policy)
    {
      var path := cacheDirectory + "/" + key;
      if fault == PermissionDenied {
        return Raised(JujuSpellError("permission denied to write to file `" + path + "`."));
      }
      if fault.Failure? {
        return Raised(JujuSpellError(fault.reason + "."));
      }
      files := files[key := Blank];
      if !Serializable(Dict(context.data)) {
        return Raised(JujuSpellError(dumpError + "."));
      }
      files := files[key := Record(Some(context.timestamp), Some(context.data))];
      r := Returned(());
    }

    /** `get` */
    method Get(key: string, now: int, readFault: Fault, removeFault: Fault)
      returns (r: Outcome<Option<FileCacheContext>>)
      modifies this
      ensures var s := GetSpec(policy, cacheDirectory, old(files), key, now, readFault, removeFault, importTime);
                r == s.outcome && files == s.files && policy == old(policy)
    {
      var context := Connect(key, readFault);
      if context.Raised? {
        return Raised(context.error);
      }
      if context.value.None? {
        return Returned(None);
      }
      if context.value.value.timestamp + policy.ttl < now {
        var removed := Remove(key, removeFault);
        if removed.Raised? {
          return Raised(removed.error);
        }
        return Returned(None);
      }
      r := Returned(context.value);
    }

    /** `put` */
    method Put(key: string, value: map<string, Value>, now: int, fault: Fault, dumpError: string) returns (r: Outcome<Unit>)
      modifies this
      ensures var s := PutSpec(cacheDirectory, old(files), key, value, now, fault, dumpError);
                r == s.outcome && files == s.files && policy == old(policy)
    {
      r := Commit(key, FileCacheContext(now, value), fault, dumpError);
    }

    /** `delete` */
    method Delete(key: string, fault: Fault) returns (r: Outcome<Unit>)
      modifies this
      ensures var s := RemoveSpec(cacheDirectory, old(files), key, fault);
                r == s.outcome && files == s.files && policy == old(policy)
    {
      r := Remove(key, fault);
    }
  }

  /** `use_cache`: a new file cache over `directory`, or the unsupported-backend error. */
  method UseCache(backend: string, directory: string, existing: Option<map<string, CacheFile>>, importTime: int)
    returns (r: Outcome<FileCache>)
    ensures r.Raised? <==> UseCacheError(backend).Some?
    ensures r.Raised? ==> r.error == UseCacheError(backend).value
    ensures r.Returned? ==>
              fresh(r.value) && r.value.policy == CachePolicy(DEFAULT_TTL_RULE) &&
              r.value.files == (if existing.Some? then existing.value else map[])
  {
    if backend !in AVALIABLE_BACKENDS {
      return Raised(JujuSpellError("Supported cache backends are " + AVALIABLE_BACKENDS_TEXT));
    }
    var cache := new FileCache(directory, existing, importTime);
    r := Returned(cache);
  }

  // ----- properties -----

  /** A value put at time `now` is read back unchanged while it is fresh, and the
      file stays; once the time-to-live has passed, `get` returns `None` and
      removes the file. */
  lemma PutThenGet(policy: CachePolicy, directory: string, files: map<string, CacheFile>, key: string,
                   value: map<string, Value>, now: int, later: int, removeFault: Fault, importTime: int, dumpError: string)
    requires Serializable(Dict(value))
    ensures var put := PutSpec(directory, files, key, value, now, NoFault, dumpError);
            var got := GetSpec(policy, directory, put.files, key, later, NoFault, removeFault, importTime);
              put.outcome == Returned(()) &&
              (later <= now + policy.ttl ==>
                 got == CacheStep(Returned(Some(FileCacheContext(now, value))), put.files)) &&
              (now + policy.ttl < later && removeFault == NoFault ==>
                 got == CacheStep(Returned(None), files - {key}))
  {
    var put := PutSpec(directory, files, key, value, now, NoFault, dumpError);
    assert ConnectSpec(directory, put.files, key, NoFault, importTime) == Returned(Some(FileCacheContext(now, value)));
    assert put.files - {key} == files - {key};
  }

  /** A `put` whose value cannot be dumped raises with the dump error, and the
      file it truncated then makes every `get` of that key raise until it is
      rewritten or deleted. */
  lemma FailedPutBlanksTheFile(policy: CachePolicy, directory: string, files: map<string, CacheFile>, key: string,
                               value: map<string, Value>, now: int, later: int, removeFault: Fault,
                               importTime: int, dumpError: string)
    requires !Serializable(Dict(value))
    ensures var put := PutSpec(directory, files, key, value, now, NoFault, dumpError);
              put.outcome == Raised(JujuSpellError(dumpError + ".")) &&
              GetSpec(policy, directory, put.files, key, later, NoFault, removeFault, importTime)
              == CacheStep(Raised(JujuSpellError(BLANK_MESSAGE + ".")), put.files)
  {
  }

  /** A record without a timestamp is dated at module import, so its age is
      measured from then, not from when it was written; missing data reads as `{}`. */
  lemma PartialRecordAgesFromImport(policy: CachePolicy, directory: string, files: map<string, CacheFile>,
                                    key: string, data: Option<map<string, Value>>, now: int,
                                    removeFault: Fault, importTime: int)
    requires key in files && files[key] == Record(None, data)
    ensures var got := GetSpec(policy, directory, files, key, now, NoFault, removeFault, importTime);
            var rm := RemoveSpec(directory, files, key, removeFault);
              (now <= importTime + policy.ttl ==>
                 got == CacheStep(Returned(Some(FileCacheContext(importTime, if data.Some? then data.value else map[]))),
                                  files)) &&
              (importTime + policy.ttl < now ==>
                 got.files == rm.files &&
                 got.outcome == (if removeFault == NoFault then Returned(None) else Raised(rm.outcome.error)))
  {
  }

  /** Without a file for the key, `get` returns `None` and changes nothing,
      whatever the faults. */
  lemma GetAbsent(policy: CachePolicy, directory: string, files: map<string, CacheFile>, key: string, now: int,
                  readFault: Fault, removeFault: Fault, importTime: int)
    requires key !in files
    ensures GetSpec(policy, directory, files, key, now, readFault, removeFault, importTime) == CacheStep(Returned(None), files)
  {
  }

  /** After a successful `delete`, `get` returns `None` and a second `delete` raises. */
  lemma DeleteThenGet(policy: CachePolicy, directory: string, files: map<string, CacheFile>, key: string,
                      now: int, readFault: Fault, removeFault: Fault, importTime: int)
    requires key in files
    ensures var del := RemoveSpec(directory, files, key, NoFault);
              del.outcome == Returned(()) && key !in del.files &&
              GetSpec(policy, directory, del.files, key, now, readFault, removeFault, importTime).outcome == Returned(None) &&
              RemoveSpec(directory, del.files, key, NoFault).outcome
              == Raised(JujuSpellError("`" + CachePath(directory, key) + "` does not exists."))
  {
  }

  /** A second `put` under the same key replaces the first. */
  lemma PutOverwrites(directory: string, files: map<string, CacheFile>, key: string,
                      v1: map<string, Value>, t1: int, v2: map<string, Value>, t2: int, dumpError: string)
    requires Serializable(Dict(v1)) && Serializable(Dict(v2))
    ensures var p1 := PutSpec(directory, files, key, v1, t1, NoFault, dumpError);
              PutSpec(directory, p1.files, key, v2, t2, NoFault, dumpError) == PutSpec(directory, files, key, v2, t2, NoFault, dumpError)
  {
    var p1 := PutSpec(directory, files, key, v1, t1, NoFault, dumpError);
    assert p1.files[key := Record(Some(t2), Some(v2))] == files[key := Record(Some(t2), Some(v2))];
  }

  /** Reading is not affected by the other keys: `get` on `key` depends only on
      that key's file and changes no other file. */
  lemma GetTouchesOnlyItsKey(policy: CachePolicy, directory: string, f1: map<string, CacheFile>,
                             f2: map<string, CacheFile>, key: string, now: int,
                             readFault: Fault, removeFault: Fault, importTime: int)
    requires (key in f1 <==> key in f2) && (key in f1 ==> f1[key] == f2[key])
    ensures var g1 := GetSpec(policy, directory, f1, key, now, readFault, removeFault, importTime);
            var g2 := GetSpec(policy, directory, f2, key, now, readFault, removeFault, importTime);
              g1.outcome == g2.outcome &&
              (key in g1.files <==> key in g2.files) && (key in g1.files ==> g1.files[key] == g2.files[key]) &&
              forall k :: k != key ==> (k in g1.files <==> k in f1) && (k in f1 ==> g1.files[k] == f1[k])
  {
  }
}
