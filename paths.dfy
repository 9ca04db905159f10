/** The path normaliser applied to every group and leaf path. */
module Paths {
  import opened Wrappers

  /**
   * `createPath`: an unset or empty path becomes "/", a path that does not
   * start with '/' gets one prepended, any other path is kept.
   */
  function CreatePath(path: Option<string>): (r: string)
    ensures |r| > 0 && r[0] == '/'
    ensures path.None? || path == Some("") ==> r == "/"
    ensures path.Some? && path.value != "" ==> r == path.value || r == "/" + path.value
    ensures path.Some? && path.value != "" && path.value[0] == '/' ==> r == path.value
  {
    if path.None? || path.value == "" then "/"
    else if path.value[0] != '/' then "/" + path.value
    else path.value
  }

  /** Normalising twice gives the same path as normalising once. */
  lemma CreatePathIdempotent(path: Option<string>)
    ensures CreatePath(Some(CreatePath(path))) == CreatePath(path)
  {
  }
}
