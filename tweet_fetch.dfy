/** GET /api/social/twitter (src/app/api/social/twitter/route.ts): checks the
    `url` parameter, extracts the tweet id, checks the session and the stored
    Twitter credentials, and shapes the fetched tweet into a resource. The
    session, the credential row and the Twitter API answer are inputs. */
module TweetFetch {
  import opened Common

  /** The tweet id: the text after the last `/`, cut at the first `?`. It
      starts right after the last `/` of the url (or at its start when there
      is none) and ends at the first `?` after that, or at the end. */
  function TweetId(url: string): (id: string)
    ensures '/' !in id && '?' !in id
    ensures var tail := LastPiece(url, '/');
      && '/' !in tail
      && tail == url[|url| - |tail|..]
      && (|tail| < |url| ==> url[|url| - |tail| - 1] == '/')
      && StartsWith(tail, id)
      && (|id| < |tail| ==> tail[|id|] == '?')
  {
    var tail := LastPiece(url, '/');
    var id := FirstPiece(tail, '?');
    assert forall x :: x in id ==> x in tail by {
      forall x | x in id ensures x in tail {
        var k :| 0 <= k < |id| && id[k] == x;
        assert tail[..|id|][k] == x;
      }
    }
    id
  }

  /** Worked ids: a query string is cut off, a `/` inside the query
      string moves the id behind it, and a trailing `/` gives the empty id. */
  lemma TweetIdExampleQuery()
    ensures TweetId("s/12?a=1") == "12"
  {
    QueryExampleTail();
    FirstPieceBefore("12?a=1", '?', 2);
    assert "12?a=1"[..2] == "12";
  }

  lemma QueryExampleTail()
    ensures LastPiece("s/12?a=1", '/') == "12?a=1"
  {
    LastPieceAfter("s/12?a=1", '/', 1);
    assert "s/12?a=1"[2..] == "12?a=1";
  }

  lemma TweetIdExampleSlashInQuery()
    ensures TweetId("s/12?a=b/c") == "c"
  {
    var u := "s/12?a=b/c";
    LastPieceAfter(u, '/', 8);
    assert u[9..] == "c";
    FirstPieceBefore("c", '?', 1);
  }

  lemma TweetIdExampleTrailingSlash()
    ensures TweetId("s/12/") == ""
  {
    var u := "s/12/";
    LastPieceAfter(u, '/', 4);
    FirstPieceBefore("", '?', 0);
  }

  datatype User = User(name: Option<string>, username: Option<string>, profileImageUrl: Option<string>)
  datatype Media = Media(mediaType: string, url: Option<string>, previewImageUrl: Option<string>)

  /** The API answer: `data` (absent when the tweet is not found) and the
      expanded users and media (`includes.media` may be absent). */
  datatype TweetData = TweetData(text: string, createdAt: Option<string>)
  datatype Tweet = Tweet(data: Option<TweetData>, users: seq<User>, media: Option<seq<Media>>)

  datatype MediaEntry = MediaEntry(mediaType: string, url: Option<string>)
  datatype Author = Author(name: Option<string>, username: Option<string>, profileImage: Option<string>)

  datatype TweetResource = TweetResource(
    title: string,
    content: string,
    thumbnailUrl: Option<string>,
    createdAt: Option<string>,
    sourceUrl: string,
    sourceType: string,
    author: Author,
    media: Option<seq<MediaEntry>>)

  function FirstUser(t: Tweet): Option<User>
  {
    if t.users == [] then None else Some(t.users[0])
  }

  function FirstMedia(t: Tweet): Option<Media>
  {
    match t.media
    case Some(ms) => if ms == [] then None else Some(ms[0])
    case None => None
  }

  /** A media entry: its type, and its url or else its preview image. */
  function ToEntry(m: Media): MediaEntry
  {
    MediaEntry(m.mediaType, FirstTruthy([m.url, m.previewImageUrl]))
  }

  /** The resource built from a found tweet. */
  function Shape(url: string, t: Tweet, d: TweetData): (r: TweetResource)
    ensures var user := FirstUser(t);
      r.title == "Tweet by " + OrElse([if user.Some? then user.value.name else None], "Unknown")
    ensures var m := FirstMedia(t);
      r.thumbnailUrl == (if m.Some? then FirstTruthy([m.value.previewImageUrl, m.value.url]) else None)
    ensures r.content == d.text && r.createdAt == d.createdAt && r.sourceUrl == url && r.sourceType == "twitter"
    ensures t.users != [] ==> r.author == Author(t.users[0].name, t.users[0].username, t.users[0].profileImageUrl)
    ensures t.users == [] ==> r.author == Author(None, None, None)
    ensures r.media.Some? <==> t.media.Some?
    ensures r.media.Some? ==> |r.media.value| == |t.media.value|
    ensures r.media.Some? ==> forall i :: 0 <= i < |r.media.value| ==> r.media.value[i] == ToEntry(t.media.value[i])
  {
    var user := FirstUser(t);
    var m := FirstMedia(t);
    TweetResource(
      "Tweet by " + OrElse([if user.Some? then user.value.name else None], "Unknown"),
      d.text,
      if m.Some? then FirstTruthy([m.value.previewImageUrl, m.value.url]) else None,
      d.createdAt,
      url,
      "twitter",
      if user.Some? then Author(user.value.name, user.value.username, user.value.profileImageUrl)
      else Author(None, None, None),
      match t.media
      case Some(ms) => Some(seq(|ms|, i requires 0 <= i < |ms| => ToEntry(ms[i])))
      case None => None)
  }

  /** The handler. `url` is the query parameter, `hasSession` the session
      lookup, `hasCredentials` whether the credential row was found, and
      `fetched` the Twitter call (Err when it throws). */
  function Get(url: Option<string>, hasSession: bool, hasCredentials: bool, fetched: Result<Tweet>): (r: Reply<TweetResource>)
    ensures !Truthy(url) ==> r == Failure(400, "Tweet URL is required")
    ensures Truthy(url) && TweetId(url.value) == "" ==> r == Failure(400, "Invalid tweet URL")
    ensures Truthy(url) && TweetId(url.value) != "" ==>
      && (!hasSession ==> r == Failure(401, "Unauthorized"))
      && (hasSession && !hasCredentials ==> r == Failure(401, "Twitter credentials not found"))
      && (hasSession && hasCredentials && fetched.Err? ==> r == Failure(500, "Failed to fetch tweet data"))
      && (hasSession && hasCredentials && fetched.Ok? && fetched.value.data.None? ==> r == Failure(404, "Tweet not found"))
    ensures r.Reply? <==>
      Truthy(url) && TweetId(url.value) != "" && hasSession && hasCredentials && fetched.Ok? && fetched.value.data.Some?
    ensures r.Reply? ==> r.body == Shape(url.value, fetched.value, fetched.value.data.value)
  {
    if !Truthy(url) then Failure(400, "Tweet URL is required")
    else if TweetId(url.value) == "" then Failure(400, "Invalid tweet URL")
    else if !hasSession then Failure(401, "Unauthorized")
    else if !hasCredentials then Failure(401, "Twitter credentials not found")
    else match fetched
      case Err(_) => Failure(500, "Failed to fetch tweet data")
      case Ok(t) =>
        match t.data
        case None => Failure(404, "Tweet not found")
        case Some(d) => Reply(Shape(url.value, t, d))
  }

  /** A bad url is answered with 400 whatever the session, the credentials
      and the API would have said: the url is validated first. */
  lemma UrlCheckedFirst(url: Option<string>, s1: bool, s2: bool, c1: bool, c2: bool, f1: Result<Tweet>, f2: Result<Tweet>)
    requires !Truthy(url) || TweetId(url.value) == ""
    ensures Get(url, s1, c1, f1) == Get(url, s2, c2, f2)
    ensures Get(url, s1, c1, f1).Failure? && Get(url, s1, c1, f1).status == 400
  {
  }
}
