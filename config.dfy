/** Where the server lives and how an image path becomes an image URL. */
module Config {
  import opened Wrappers
  import opened Strings

  const API_BASE_URL: string := "https://dishes-server-pjla.onrender.com/api"
  const IMAGE_URL: string := "https://dishes-server-pjla.onrender.com"

  /** `buildImageUrl(path)`: `null` for a missing or empty path, otherwise the
      image host followed by the path, with a '/' put in front of a path that
      lacks one. */
  function BuildImageUrl(path: Option<string>): (url: Option<string>)
    ensures url.None? <==> !Present(path)
  {
    if !Present(path) then None
    else Some(IMAGE_URL + (if StartsWith(path.value, "/") then path.value else "/" + path.value))
  }

  /** Every URL built starts with the image host and a '/', and ends with the
      path without its leading '/'. */
  lemma BuiltUrlShape(path: string)
    requires path != ""
    ensures var u := BuildImageUrl(Some(path)).value;
      StartsWith(u, IMAGE_URL + "/") &&
      u == IMAGE_URL + "/" + (if path[0] == '/' then path[1..] else path)
  {
    var u := BuildImageUrl(Some(path)).value;
    if path[0] == '/' {
      assert StartsWith(path, "/");
      assert path == "/" + path[1..];
    } else {
      assert !StartsWith(path, "/");
    }
    assert u[..|IMAGE_URL + "/"|] == IMAGE_URL + "/";
  }

  /** A path without a leading '/' and the same path with one give the same
      URL. */
  lemma LeadingSlashOptional(x: string)
    requires x != "" && x[0] != '/'
    ensures BuildImageUrl(Some(x)) == BuildImageUrl(Some("/" + x))
  {
    BuiltUrlShape(x);
    BuiltUrlShape("/" + x);
    assert ("/" + x)[1..] == x;
  }
}
