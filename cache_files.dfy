/**
 * The per-controller cache files that cacheable commands read and write: one
 * JSON file per controller uuid inside the default cache directory.
 */
module CacheFiles {
  import opened Wrappers
  import opened Types

  /** The text of a cache file: empty (just truncated), a complete JSON document,
      or text that `json.load` cannot read (a partial write, say). A document is
      usually an object (`Json(Dict(..))`), but a file written outside juju-spell
      may hold an array, a string, a number, a boolean or `null`. */
  datatype FileText = Empty | Json(doc: Value) | Malformed

  /** `json.load`: a complete document parses, whatever its top-level type. */
  function Parse(t: FileText): (r: Option<Value>)
    ensures r.Some? <==> t.Json?
    ensures t.Json? ==> r == Some(t.doc)
  {
    match t
    case Json(doc) => Some(doc)
    case _ => None
  }

  /** The file at `path`, or `None` when it does not exist. */
  function FileAt(files: map<string, FileText>, path: string): Option<FileText>
  {
    if path in files then Some(files[path]) else None
  }

  /** The directory after the file at `path` has become `f` (`None`: absent). */
  function Written(files: map<string, FileText>, path: string, f: Option<FileText>): (r: map<string, FileText>)
    ensures FileAt(r, path) == f
    ensures forall p :: p != path ==> FileAt(r, p) == FileAt(files, p)
  {
    if f.Some? then files[path := f.value] else files - {path}
  }

  /** The read both cache loaders do (`load_from_cache` of `ListModels` and of
      `GetController`, and the first read of `ListModels.save_to_cache`): start from
      `{}` and replace it by what `json.load` returns, keeping `{}` when the file is
      absent or the load raises. A document that is not an object is returned as it is. */
  function ParsedOrEmpty(file: Option<FileText>): (v: Value)
    ensures file.Some? && Parse(file.value).Some? ==> v == Parse(file.value).value
    ensures file.None? || Parse(file.value).None? ==> v == Dict(map[])
    ensures file.Some? && file.value.Json? && file.value.doc.Dict? ==> v.Dict? && v.entries == file.value.doc.entries
    ensures !v.Dict? ==> file.Some? && file.value.Json? && v == file.value.doc
  {
    if file.Some? && Parse(file.value).Some? then Parse(file.value).value else Dict(map[])
  }

  /** What a `save_to_cache` hook does: whether it raised, and the file afterwards. */
  datatype SaveEffect = SaveEffect(outcome: Outcome<Unit>, file: Option<FileText>)

  /** The default cache directory, keyed by controller uuid. */
  class CacheDir {
    var files: map<string, FileText>

    constructor (files: map<string, FileText>)
      ensures this.files == files
    {
      this.files := files;
    }
  }
}
