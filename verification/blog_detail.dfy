/** The blog article page: finding the post by id and building its image address. */
module BlogDetail {
  import opened Wrappers
  import opened Text
  import opened Types
  import Api

  const API_BASE_URL: string := "https://trueline.onrender.com"
  const BACKEND: string := "backend"
  const POST_NOT_FOUND: string := "Post not found"

  predicate IsSeparator(c: char) {
    c == '/' || c == '\\'
  }

  /** Drops a run of leading `/` and `\`: what `[\\/]+` consumes. */
  function DropSeparators(s: string): (r: string)
    ensures |r| <= |s| && r == s[|s| - |r|..]
    ensures forall i :: 0 <= i < |s| - |r| ==> IsSeparator(s[i])
    ensures r == [] || !IsSeparator(r[0])
  {
    if s != [] && IsSeparator(s[0]) then
      var t := s[1..];
      var r := DropSeparators(t);
      assert forall i :: 0 < i < |s| - |r| ==> s[i] == t[i - 1];
      r
    else
      s
  }

  /** The path opens with `backend` and at least one separator: the case `^backend[\\/]+` matches. */
  predicate HasBackendPrefix(path: string) {
    |path| > |BACKEND| && path[..|BACKEND|] == BACKEND && IsSeparator(path[|BACKEND|])
  }

  /** `replace(/^backend[\\/]+/, '')`: the prefix and all of its separators go, and only at the start. */
  function StripBackendPrefix(path: string): (r: string)
    ensures HasBackendPrefix(path) ==> |r| < |path| - |BACKEND| && r == path[|path| - |r|..]
    ensures HasBackendPrefix(path) ==> r == [] || !IsSeparator(r[0])
    ensures !HasBackendPrefix(path) ==> r == path
  {
    if HasBackendPrefix(path) then DropSeparators(path[|BACKEND|..]) else path
  }

  /** The stored image path made into a path under the site root: prefix stripped, then every `\` turned into `/`. */
  function NormalizePath(path: string): (r: string)
    ensures '\\' !in r
    ensures |r| <= |path|
  {
    var stripped := StripBackendPrefix(path);
    var r := ReplaceChar(stripped, '\\', '/');
    ReplaceCharRemoves(stripped, '\\', '/');
    r
  }

  /** A path without the prefix changes only by the backslash replacement. */
  lemma NormalizeWithoutPrefix(path: string)
    requires !HasBackendPrefix(path)
    ensures NormalizePath(path) == ReplaceChar(path, '\\', '/')
  {
  }

  /** With the prefix, what remains is the rest of the path after the separators, with backslashes replaced. */
  lemma NormalizeWithPrefix(sep: string, rest: string)
    requires sep != [] && forall i :: 0 <= i < |sep| ==> IsSeparator(sep[i])
    requires rest == [] || !IsSeparator(rest[0])
    ensures NormalizePath(BACKEND + sep + rest) == ReplaceChar(rest, '\\', '/')
  {
    var path := BACKEND + sep + rest;
    assert path[..|BACKEND|] == BACKEND;
    assert path[|BACKEND|] == sep[0];
    assert path[|BACKEND|..] == sep + rest;
    DropSeparatorRun(sep, rest);
  }

  lemma {:induction false} DropSeparatorRun(sep: string, rest: string)
    requires forall i :: 0 <= i < |sep| ==> IsSeparator(sep[i])
    requires rest == [] || !IsSeparator(rest[0])
    ensures DropSeparators(sep + rest) == rest
    decreases |sep|
  {
    if sep == [] {
      assert sep + rest == rest;
    } else {
      assert (sep + rest)[1..] == sep[1..] + rest;
      DropSeparatorRun(sep[1..], rest);
    }
  }

  /** The image address: the backend's origin, a slash, and the normalised path. */
  function ImageUrl(post: BlogPost): (r: string)
    ensures StartsWith(r, API_BASE_URL + "/")
    ensures r[|API_BASE_URL| + 1..] == NormalizePath(post.imageUrl)
    ensures '\\' !in r
  {
    var r := API_BASE_URL + "/" + NormalizePath(post.imageUrl);
    assert r[..|API_BASE_URL| + 1] == API_BASE_URL + "/";
    assert forall i :: 0 <= i < |r| - |API_BASE_URL| - 1 ==> r[|API_BASE_URL| + 1 + i] == NormalizePath(post.imageUrl)[i];
    r
  }

  /** The index of the first post with the id, if any. */
  function FirstWithId(posts: seq<BlogPost>, id: string): (r: Option<nat>)
    ensures r.Some? ==> r.value < |posts| && posts[r.value].id == id
                        && forall j :: 0 <= j < r.value ==> posts[j].id != id
    ensures r.None? ==> forall j :: 0 <= j < |posts| ==> posts[j].id != id
  {
    if posts == [] then None
    else if posts[0].id == id then Some(0)
    else
      match FirstWithId(posts[1..], id)
      case Some(k) => Some(k + 1)
      case None => None
  }

  /** `posts.find(p => p._id === id)`, with the error the page throws when nothing matches. */
  function FindPost(posts: seq<BlogPost>, id: string): (r: Result<BlogPost, string>)
    ensures r.Ok? ==> exists i :: 0 <= i < |posts| && posts[i] == r.value && posts[i].id == id
                                  && forall j :: 0 <= j < i ==> posts[j].id != id
    ensures r.Err? ==> r.error == POST_NOT_FOUND && forall j :: 0 <= j < |posts| ==> posts[j].id != id
  {
    match FirstWithId(posts, id)
    case Some(i) => Ok(posts[i])
    case None => Err(POST_NOT_FOUND)
  }

  /** What the page renders. */
  datatype View = Loading | ShowError(message: string) | Blank | ShowPost(post: BlogPost, imageUrl: string)

  class BlogDetailPage {
    var post: Option<BlogPost>
    var loading: bool
    var error: Option<string>

    constructor ()
      ensures post == None && loading && error == None
    {
      post := None;
      loading := true;
      error := None;
    }

    /** The fetch effect, given how `getBlogPosts` came out. */
    method FetchPost(id: string, outcome: Result<seq<BlogPost>, Api.ApiError>)
      modifies this
      ensures !loading
      ensures outcome.Ok? ==>
                match FindPost(outcome.value, id)
                case Ok(p) => post == Some(p) && error == old(error)
                case Err(m) => post == old(post) && error == Some(m)
      ensures outcome.Err? ==> post == old(post) && error == Some(outcome.error.message)
    {
      match outcome {
        case Ok(allPosts) =>
          var found := FindPost(allPosts, id);
          match found {
            case Ok(p) => post := Some(p);
            case Err(m) => error := Some(m);
          }
        case Err(e) =>
          error := Some(e.message);
      }
      loading := false;
    }

    /** The spinner while loading, then a non-empty error, then the post if there is one. */
    function Render(): (v: View)
      reads this
      ensures v.Loading? <==> loading
      ensures v.ShowError? <==> !loading && error.Some? && error.value != []
      ensures v.ShowError? ==> v.message == error.value
      ensures v.ShowPost? <==> !loading && !(error.Some? && error.value != []) && post.Some?
      ensures v.ShowPost? ==> post == Some(v.post) && v.imageUrl == ImageUrl(v.post)
    {
      if loading then Loading
      else if error.Some? && error.value != [] then ShowError(error.value)
      else if post.None? then Blank
      else ShowPost(post.value, ImageUrl(post.value))
    }
  }

  /** After a fetch of a list holding the id, the page shows the first post with that id. */
  method OpenPost(posts: seq<BlogPost>, id: string, i: nat) returns (v: View)
    requires i < |posts| && posts[i].id == id
    requires forall j :: 0 <= j < i ==> posts[j].id != id
    ensures v == ShowPost(posts[i], ImageUrl(posts[i]))
  {
    var page := new BlogDetailPage();
    page.FetchPost(id, Ok(posts));
    v := page.Render();
  }
}
