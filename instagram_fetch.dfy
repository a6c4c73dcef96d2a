/** GET /api/social/instagram (src/app/api/social/instagram/route.ts): checks
    the `url` parameter, extracts the post id, checks the session and the
    stored Instagram credentials, and shapes the fetched post into a
    resource. The session, the credential row and the Instagram answer
    (login plus media lookup) are inputs. */
module InstagramFetch {
  import opened Common

  /** `url.split('/p/')[1]?.split('/')[0]`: None when the url holds no `/p/`,
      otherwise the text after the first `/p/` up to the next `/`. The piece
      `split('/p/')[1]` ends at the next `/p/`, which itself starts with `/`,
      so cutting it at its first `/` is the same as cutting the rest of the
      url at its first `/`. */
  function PostId(url: string): (id: Option<string>)
    ensures id.None? <==> forall j :: 0 <= j <= |url| ==> !StartsWith(url[j..], "/p/")
    ensures id.Some? ==> '/' !in id.value
    ensures id.Some? ==> var i := IndexOf(url, "/p/").value;
      && i + 3 <= |url| && url[i..i + 3] == "/p/"
      && (forall j :: 0 <= j < i ==> !StartsWith(url[j..], "/p/"))
      && StartsWith(url[i + 3..], id.value)
      && (i + 3 + |id.value| < |url| ==> url[i + 3 + |id.value|] == '/')
  {
    match IndexOf(url, "/p/")
    case None => None
    case Some(i) =>
      assert url[i..][..3] == url[i..i + 3];
      var rest := url[i + 3..];
      var id := FirstPiece(rest, '/');
      assert |id| < |rest| ==> rest[|id|] == url[i + 3 + |id|];
      Some(id)
  }

  /** Worked ids: the query string stays part of the id, a url without `/p/`
      has none, and `/p/` at the very end gives the empty id. */
  lemma PostIdKeepsQuery()
    ensures PostId("/p/abc?i=1") == Some("abc?i=1")
  {
    var u := "/p/abc?i=1";
    assert StartsWith(u, "/p/");
    assert IndexOf(u, "/p/") == Some(0);
    var rest := u[3..];
    assert rest == "abc?i=1";
    FirstPieceBefore(rest, '/', 7);
    assert FirstPiece(rest, '/') == rest;
  }

  lemma PostIdNeedsMarker()
    ensures PostId("/reel/x") == None
  {
    var u := "/reel/x";
    forall j | 0 <= j <= |u| ensures !StartsWith(u[j..], "/p/") {
      if 3 <= |u[j..]| {
        assert u[j..][..3][1] == u[j + 1];
      }
    }
  }

  lemma PostIdMayBeEmpty()
    ensures PostId("a/p/") == Some("")
  {
    var u := "a/p/";
    assert !StartsWith(u[0..], "/p/") by {
      assert u[0..][..3][0] == 'a';
    }
    assert u[1..][..3] == "/p/";
    assert IndexOf(u, "/p/") == Some(1);
    FirstPieceBefore(u[4..], '/', 0);
  }

  datatype CarouselItem = CarouselItem(mediaType: int, imageUrl: Option<string>)

  /** The media lookup's answer. `caption` is the caption text if any,
      `imageUrl` the first image candidate's url if any, `takenAt` the
      `taken_at` seconds, absent when the field is missing. */
  datatype Post = Post(
    username: string,
    fullName: string,
    profilePicUrl: string,
    caption: Option<string>,
    imageUrl: Option<string>,
    takenAt: Option<int>,
    mediaType: int,
    carousel: Option<seq<CarouselItem>>)

  datatype MediaEntry = MediaEntry(mediaType: int, url: Option<string>)
  datatype Author = Author(username: string, fullName: string, profileImage: string)

  /** The resource; `createdAt` is the ISO time, kept as milliseconds. */
  datatype PostResource = PostResource(
    title: string,
    content: string,
    thumbnailUrl: Option<string>,
    createdAt: int,
    sourceUrl: string,
    sourceType: string,
    author: Author,
    media: seq<MediaEntry>)

  /** The resource built from a fetched post; None where converting
      `taken_at` to an ISO time throws, which the handler's catch answers. */
  function Shape(url: string, p: Post): (r: Option<PostResource>)
    ensures r.None? <==> IsoMillis(p.takenAt).None?
    ensures r.Some? ==> var res := r.value;
      && res.title == "Instagram post by " + p.username
      && res.content == (if Truthy(p.caption) then p.caption.value else "")
      && res.thumbnailUrl == (if Truthy(p.imageUrl) then p.imageUrl else None)
      && res.createdAt == p.takenAt.value * 1000
      && res.sourceUrl == url && res.sourceType == "instagram"
      && res.author == Author(p.username, p.fullName, p.profilePicUrl)
      && (p.carousel.None? ==> res.media == [MediaEntry(p.mediaType, p.imageUrl)])
      && (p.carousel.Some? ==> |res.media| == |p.carousel.value|)
      && (p.carousel.Some? ==> forall i :: 0 <= i < |res.media| ==>
            res.media[i] == MediaEntry(p.carousel.value[i].mediaType, p.carousel.value[i].imageUrl))
  {
    match IsoMillis(p.takenAt)
    case None => None
    case Some(createdAt) =>
      Some(PostResource(
        "Instagram post by " + p.username,
        OrElse([p.caption], ""),
        FirstTruthy([p.imageUrl]),
        createdAt,
        url,
        "instagram",
        Author(p.username, p.fullName, p.profilePicUrl),
        match p.carousel
        case Some(items) =>
          seq(|items|, i requires 0 <= i < |items| => MediaEntry(items[i].mediaType, items[i].imageUrl))
        case None => [MediaEntry(p.mediaType, p.imageUrl)]))
  }

  predicate ValidPostId(url: string)
  {
    PostId(url).Some? && PostId(url).value != ""
  }

  /** The handler: `url` is the query parameter, `hasSession` the session
      lookup, `hasCredentials` whether the credential row was found, and
      `fetched` the login plus media lookup (Err when either throws). */
  function Get(url: Option<string>, hasSession: bool, hasCredentials: bool, fetched: Result<Post>): (r: Reply<PostResource>)
    ensures !Truthy(url) ==> r == Failure(400, "Instagram post URL is required")
    ensures Truthy(url) && !ValidPostId(url.value) ==> r == Failure(400, "Invalid Instagram post URL")
    ensures Truthy(url) && ValidPostId(url.value) ==>
      && (!hasSession ==> r == Failure(401, "Unauthorized"))
      && (hasSession && !hasCredentials ==> r == Failure(401, "Instagram credentials not found"))
      && (hasSession && hasCredentials && fetched.Err? ==> r == Failure(500, "Failed to fetch Instagram post data"))
      && (hasSession && hasCredentials && fetched.Ok? && IsoMillis(fetched.value.takenAt).None? ==>
            r == Failure(500, "Failed to fetch Instagram post data"))
    ensures r.Reply? <==> Truthy(url) && ValidPostId(url.value) && hasSession && hasCredentials && fetched.Ok?
                          && IsoMillis(fetched.value.takenAt).Some?
    ensures r.Reply? ==> Some(r.body) == Shape(url.value, fetched.value)
    ensures r.Failure? ==> r.status in {400, 401, 500}
  {
    if !Truthy(url) then Failure(400, "Instagram post URL is required")
    else if !ValidPostId(url.value) then Failure(400, "Invalid Instagram post URL")
    else if !hasSession then Failure(401, "Unauthorized")
    else if !hasCredentials then Failure(401, "Instagram credentials not found")
    else match fetched
      case Err(_) => Failure(500, "Failed to fetch Instagram post data")
      case Ok(p) =>
        match Shape(url.value, p)
        case None => Failure(500, "Failed to fetch Instagram post data")
        case Some(resource) => Reply(resource)
  }

  /** The url is validated before the session and the credentials are looked at. */
  lemma UrlCheckedFirst(url: Option<string>, s1: bool, s2: bool, c1: bool, c2: bool, f1: Result<Post>, f2: Result<Post>)
    requires !Truthy(url) || !ValidPostId(url.value)
    ensures Get(url, s1, c1, f1) == Get(url, s2, c2, f2)
    ensures Get(url, s1, c1, f1).Failure? && Get(url, s1, c1, f1).status == 400
  {
  }
}
