/** The file system as the discovery code sees it: a path either holds no
    file, a file that cannot be read or parsed as JSON, or a JSON document.
    Paths are joined by text, without normalisation. */
module Files {
  import opened JsValue

  datatype FileState = Garbled | Json(v: Value)

  type FileSystem = map<string, FileState>

  function JoinPath(dir: string, name: string): string {
    dir + "/" + name
  }

  /** Reading and parsing `path`: `None` when the read or the parse throws. */
  function ReadJson(fs: FileSystem, path: string): (r: Option<Value>)
    ensures r.Some? <==> path in fs && fs[path].Json?
    ensures r.Some? ==> r.value == fs[path].v
  {
    if path in fs && fs[path].Json? then Some(fs[path].v) else None
  }

  /** A manifest file, written out as the result of a discovery run. */
  datatype Written = Written(path: string, content: Value)
}
