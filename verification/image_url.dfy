/** Resolution of product image paths to the URLs the storefront loads. */
module ImageUrl {
  import opened Wrappers

  /** Where the back end serves uploaded files. */
  const BackendUrl := "http://localhost:8000"

  predicate StartsWith(s: string, prefix: string) {
    |prefix| <= |s| && s[..|prefix|] == prefix
  }

  predicate Absolute(s: string) {
    StartsWith(s, "http://") || StartsWith(s, "https://")
  }

  /**
   * `getImageUrl`: no path gives '', an absolute URL is kept, an upload
   * path is prefixed with the back end's origin, and anything else is
   * served by the front end as it is.
   */
  function ResolveImage(path: Option<string>): (r: string)
    ensures path.None? || path.value == "" ==> r == ""
    ensures path.Some? && Absolute(path.value) ==> r == path.value
    ensures path.Some? && !Absolute(path.value) && StartsWith(path.value, "/uploads/") ==>
      r == BackendUrl + path.value
    ensures path.Some? && path.value != "" && !Absolute(path.value) && !StartsWith(path.value, "/uploads/") ==>
      r == path.value
  {
    match path
    case None => ""
    case Some(p) =>
      if p == "" then ""
      else if Absolute(p) then p
      else if StartsWith(p, "/uploads/") then BackendUrl + p
      else p
  }

  /** Every resolved URL is empty, absolute, or a front-end path that is not an upload. */
  lemma {:induction false} ResolvedShape(path: Option<string>)
    ensures var r := ResolveImage(path);
      r == "" || Absolute(r) || (!StartsWith(r, "/uploads/") && r == path.value)
  {
    if path.Some? && path.value != "" && !Absolute(path.value) && StartsWith(path.value, "/uploads/") {
      var r := BackendUrl + path.value;
      assert r[..|"http://"|] == BackendUrl[..|"http://"|];
    }
  }

  /** Resolving an already resolved URL changes nothing. */
  lemma {:induction false} ResolveIdempotent(path: Option<string>)
    ensures ResolveImage(Some(ResolveImage(path))) == ResolveImage(path)
  {
    ResolvedShape(path);
  }
}
