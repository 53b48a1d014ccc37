/**
 * An abstraction of `std::path::Path`: a path is an OS string that may or may
 * not be valid UTF-8. Only the outcome of `Path::to_str` matters to the model.
 */
module StdPath {
  import opened Results

  datatype OsPath =
    | TextPath(text: string)            // a path whose bytes are valid UTF-8
    | NonUtf8Path(bytes: seq<bv8>)      // a path whose bytes are not valid UTF-8

  /** `Path::to_str`: the path as text, or None when it is not valid UTF-8. */
  function ToStr(p: OsPath): (r: Option<string>)
    ensures r.Some? <==> p.TextPath?
    ensures p.TextPath? ==> r == Some(p.text)
  {
    match p
    case TextPath(t) => Some(t)
    case NonUtf8Path(_) => None
  }
}
