/** POST /api/social/instagram/import-saves
    (src/app/api/social/instagram/import-saves/route.ts): maps the saved
    Instagram posts to resources, drops those already stored for the user
    (by source id), inserts the rest with the user id and reports the counts.
    The saved-feed page, the stored source ids and the insert outcome are inputs. */
module InstagramImport {
  import opened Common

  /** A saved post: `caption` is the caption text if there is a caption,
      `imageUrl` the first image candidate's url, `takenAt` the `taken_at`
      seconds, absent when the field is missing. */
  datatype SavedPost = SavedPost(
    id: string,
    code: string,
    caption: Option<string>,
    imageUrl: Option<string>,
    takenAt: Option<int>,
    username: string,
    likeCount: Option<int>,
    commentCount: Option<int>,
    mediaType: int)

  datatype SavedResource = SavedResource(
    title: string,
    url: string,
    thumbnail: Option<string>,
    dateSaved: int,
    source: string,
    sourceId: string,
    author: string,
    likes: int,
    comments: int,
    mediaType: int)

  datatype InsertedRow = InsertedRow(resource: SavedResource, userId: string)

  /** The title as written: `||` applies to the whole concatenation, so a
      post without a caption gets the text "undefined" (`undefined + ''`),
      and only an empty caption falls back to 'Instagram Post'. */
  function AsWrittenTitle(caption: Option<string>): string
  {
    var joined := if caption.None? then "undefined" else Ellipsize(caption.value, 100);
    if joined == "" then "Instagram Post" else joined
  }

  /** The title evidently intended: the caption cut to 100 characters (with
      an ellipsis when cut), or 'Instagram Post' when there is no caption text. */
  function Title(caption: Option<string>): (t: string)
    ensures !Truthy(caption) ==> t == "Instagram Post"
    ensures Truthy(caption) ==> t == Ellipsize(caption.value, 100)
    ensures t != "" && |t| <= 103
  {
    if Truthy(caption) then Ellipsize(caption.value, 100) else "Instagram Post"
  }

  /** The two titles differ exactly on posts without a caption. */
  lemma MissingCaptionTitle(caption: Option<string>)
    ensures caption.None? ==> AsWrittenTitle(caption) == "undefined" && Title(caption) == "Instagram Post"
    ensures caption.Some? ==> AsWrittenTitle(caption) == Title(caption)
  {
  }

  /** One saved post as a resource, `date` being its converted `taken_at`. */
  function MapPost(p: SavedPost, date: int): (r: SavedResource)
    ensures r.title == Title(p.caption)
    ensures r.url == "https://instagram.com/p/" + p.code + "/"
    ensures r.thumbnail == (if Truthy(p.imageUrl) then p.imageUrl else None)
    ensures r.dateSaved == date
    ensures r.source == "instagram" && r.sourceId == p.id && r.author == p.username
    ensures r.likes == OrZero(p.likeCount) && r.comments == OrZero(p.commentCount) && r.mediaType == p.mediaType
  {
    SavedResource(
      Title(p.caption),
      "https://instagram.com/p/" + p.code + "/",
      FirstTruthy([p.imageUrl]),
      date,
      "instagram",
      p.id,
      p.username,
      OrZero(p.likeCount),
      OrZero(p.commentCount),
      p.mediaType)
  }

  /** One saved post mapped as route.ts:31-44 is written: the record of
      `MapPost` with the as-written title, which differs only for a post
      without a caption. */
  function AsWrittenMapPost(p: SavedPost, date: int): (r: SavedResource)
    ensures r == MapPost(p, date).(title := AsWrittenTitle(p.caption))
    ensures r != MapPost(p, date) <==> p.caption.None?
  {
    MissingCaptionTitle(p.caption);
    MapPost(p, date).(title := AsWrittenTitle(p.caption))
  }

  /** The whole `map`: None when converting some post's `taken_at` to an ISO
      time throws, otherwise one resource per post, in order. */
  function MapAll(ps: seq<SavedPost>): (r: Option<seq<SavedResource>>)
    ensures r.Some? <==> forall i :: 0 <= i < |ps| ==> IsoMillis(ps[i].takenAt).Some?
    ensures r.Some? ==> |r.value| == |ps|
    ensures r.Some? ==> forall i :: 0 <= i < |ps| ==> r.value[i] == MapPost(ps[i], IsoMillis(ps[i].takenAt).value)
  {
    if ps == [] then Some([])
    else match IsoMillis(ps[0].takenAt)
      case None => None
      case Some(date) =>
        match MapAll(ps[1..])
        case None => None
        case Some(rest) =>
          assert forall i :: 1 <= i < |ps| ==> ps[i] == ps[1..][i - 1];
          Some([MapPost(ps[0], date)] + rest)
  }

  /** `new Set(existingResources?.map(r => r.sourceId) || [])`. */
  function StoredIds(existing: Option<seq<string>>): (ids: set<string>)
    ensures forall x :: x in ids <==> existing.Some? && x in existing.value
  {
    if existing.Some? then (set x | x in existing.value) else {}
  }

  function SourceId(r: SavedResource): string
  {
    r.sourceId
  }

  function WithUser(rs: seq<SavedResource>, userId: string): (rows: seq<InsertedRow>)
    ensures |rows| == |rs| && forall i :: 0 <= i < |rs| ==> rows[i] == InsertedRow(rs[i], userId)
  {
    seq(|rs|, i requires 0 <= i < |rs| => InsertedRow(rs[i], userId))
  }

  /** Every listed resource has its row, and every row carries the user id
      and one of the listed resources. */
  lemma WithUserMembers(rs: seq<SavedResource>, userId: string)
    ensures forall r :: r in rs ==> InsertedRow(r, userId) in WithUser(rs, userId)
    ensures forall row :: row in WithUser(rs, userId) ==> row.userId == userId && row.resource in rs
  {
    var rows := WithUser(rs, userId);
    forall r | r in rs ensures InsertedRow(r, userId) in rows {
      var i :| 0 <= i < |rs| && rs[i] == r;
      assert rows[i] == InsertedRow(r, userId);
    }
    forall row | row in rows ensures row.userId == userId && row.resource in rs {
      var i :| 0 <= i < |rows| && rows[i] == row;
      assert row.resource == rs[i];
    }
  }

  /** The reply and, when the insert was attempted, the rows sent to it. */
  datatype Outcome = Outcome(reply: Reply<ImportCounts>, inserted: Option<seq<InsertedRow>>)

  const Failed: Reply<ImportCounts> := Failure(500, "Failed to import saved posts")

  /** The handler. `posts` is the login plus the saved-feed page (Err when
      either throws), `existing` the stored source ids (None when the query
      returned no data) and `insertFails` whether the insert reports an error. */
  function Post(userId: Option<string>, accessToken: Option<string>, posts: Result<seq<SavedPost>>,
                existing: Option<seq<string>>, insertFails: bool): (o: Outcome)
  {
    if !Truthy(userId) || !Truthy(accessToken) then Outcome(Failure(400, "Missing required parameters"), None)
    else if posts.Err? then Outcome(Failed, None)
    else match MapAll(posts.value)
      case None => Outcome(Failed, None)
      case Some(rs) =>
        var unseen := Unseen(rs, SourceId, StoredIds(existing));
        Outcome(
          if unseen != [] && insertFails then Failed else Reply(ImportCounts(|unseen|, |rs|, |rs| - |unseen|)),
          if unseen == [] then None else Some(WithUser(unseen, userId.value)))
  }

  /** The error replies: missing parameters are a 400; a failed login or
      feed fetch, or a post whose `taken_at` the mapping throws on, a 500;
      none of these inserts anything. */
  lemma ErrorReplies(userId: Option<string>, accessToken: Option<string>, posts: Result<seq<SavedPost>>,
                     existing: Option<seq<string>>, insertFails: bool)
    ensures var o := Post(userId, accessToken, posts, existing, insertFails);
      && (!Truthy(userId) || !Truthy(accessToken) ==> o == Outcome(Failure(400, "Missing required parameters"), None))
      && (Truthy(userId) && Truthy(accessToken) && posts.Err? ==> o == Outcome(Failed, None))
      && (Truthy(userId) && Truthy(accessToken) && posts.Ok? && MapAll(posts.value).None? ==>
            o == Outcome(Failed, None))
      && (Truthy(userId) && Truthy(accessToken) && posts.Ok? && MapAll(posts.value).Some? ==>
            var unseen := Unseen(MapAll(posts.value).value, SourceId, StoredIds(existing));
            && (unseen != [] && insertFails ==> o == Outcome(Failed, Some(WithUser(unseen, userId.value))))
            && (unseen == [] || !insertFails ==> o.reply.Reply?))
      && (o.reply.Failure? ==> o.reply.status == 400 || o.reply == Failed)
  {
  }

  /** The counts add up: imported + skipped = total, imported <= total, and
      imported is the number of rows handed to the insert. */
  lemma {:induction false} CountsAddUp(userId: Option<string>, accessToken: Option<string>, posts: Result<seq<SavedPost>>,
                                       existing: Option<seq<string>>, insertFails: bool)
    ensures var o := Post(userId, accessToken, posts, existing, insertFails);
      o.reply.Reply? ==>
        && o.reply.body.imported + o.reply.body.skipped == o.reply.body.total
        && o.reply.body.imported <= o.reply.body.total
        && o.reply.body.total == |posts.value|
        && o.reply.body.skipped >= 0
        && o.reply.body.imported == (if o.inserted.Some? then |o.inserted.value| else 0)
  {
    var o := Post(userId, accessToken, posts, existing, insertFails);
    if o.reply.Reply? {
      var rs := MapAll(posts.value).value;
      assert |Unseen(rs, SourceId, StoredIds(existing))| <= |rs|;
    }
  }

  /** The insert receives exactly the fetched posts not stored before, in
      fetch order, each with the user id: it is attempted exactly when one
      exists, every such post is among the rows, and every row is one. */
  lemma {:induction false} InsertedAreNew(userId: Option<string>, accessToken: Option<string>, posts: Result<seq<SavedPost>>,
                                          existing: Option<seq<string>>, insertFails: bool)
    ensures var o := Post(userId, accessToken, posts, existing, insertFails);
      Truthy(userId) && Truthy(accessToken) && posts.Ok? && MapAll(posts.value).Some? ==>
        var rs := MapAll(posts.value).value;
        && (o.inserted.Some? <==> exists r :: r in rs && r.sourceId !in StoredIds(existing))
        && (o.inserted.Some? ==> o.inserted.value == WithUser(Unseen(rs, SourceId, StoredIds(existing)), userId.value))
        && (forall r :: r in rs && r.sourceId !in StoredIds(existing) ==>
              o.inserted.Some? && InsertedRow(r, userId.value) in o.inserted.value)
    ensures var o := Post(userId, accessToken, posts, existing, insertFails);
      o.inserted.Some? ==>
        && |o.inserted.value| > 0
        && forall row :: row in o.inserted.value ==>
             && row.userId == userId.value
             && row.resource in MapAll(posts.value).value
             && (existing.Some? ==> row.resource.sourceId !in existing.value)
  {
    var o := Post(userId, accessToken, posts, existing, insertFails);
    if Truthy(userId) && Truthy(accessToken) && posts.Ok? && MapAll(posts.value).Some? {
      var rs := MapAll(posts.value).value;
      var ids := StoredIds(existing);
      var unseen := Unseen(rs, SourceId, ids);
      assert o.inserted == if unseen == [] then None else Some(WithUser(unseen, userId.value));
      WithUserMembers(unseen, userId.value);
      if unseen != [] {
        assert unseen[0] in unseen;
      }
    }
  }

  /** Importing again with the new source ids recorded inserts nothing and
      reports every post as skipped. */
  lemma {:induction false} ReimportInsertsNothing(userId: Option<string>, accessToken: Option<string>, ps: seq<SavedPost>,
                                                  stored: seq<string>, insertFails: bool)
    requires Truthy(userId) && Truthy(accessToken) && MapAll(ps).Some?
    ensures var again := stored + seq(|ps|, i requires 0 <= i < |ps| => ps[i].id);
      Post(userId, accessToken, Ok(ps), Some(again), insertFails) == Outcome(Reply(ImportCounts(0, |ps|, |ps|)), None)
  {
    var rs := MapAll(ps).value;
    var again := stored + seq(|ps|, i requires 0 <= i < |ps| => ps[i].id);
    var ids := StoredIds(Some(again));
    forall r | r in rs ensures SourceId(r) in ids {
      var i :| 0 <= i < |rs| && rs[i] == r;
      assert again[|stored| + i] == r.sourceId;
    }
  }

  /** A post whose id is already stored is skipped, one whose id is new is imported. */
  lemma StoredPostSkipped()
    ensures var old1 := SavedPost("1", "a", None, None, Some(0), "u", None, None, 1);
      var new2 := SavedPost("2", "b", Some(""), None, Some(0), "u", None, None, 1);
      var o := Post(Some("me"), Some("tok"), Ok([old1, new2]), Some(["1"]), false);
      && o.reply == Reply(ImportCounts(1, 2, 1))
      && o.inserted == Some([InsertedRow(MapPost(new2, 0), "me")])
      && MapPost(new2, 0).title == "Instagram Post"
  {
    var old1 := SavedPost("1", "a", None, None, Some(0), "u", None, None, 1);
    var new2 := SavedPost("2", "b", Some(""), None, Some(0), "u", None, None, 1);
    var rs := MapAll([old1, new2]).value;
    assert rs == [MapPost(old1, 0), MapPost(new2, 0)];
    var ids := StoredIds(Some(["1"]));
    assert "1" in ids && "2" !in ids;
    assert SourceId(rs[0]) == "1" && SourceId(rs[1]) == "2";
    UnseenCons(rs, SourceId, ids);
    UnseenCons(rs[1..], SourceId, ids);
    assert rs[1..][1..] == [];
    var unseen := Unseen(rs, SourceId, ids);
    assert unseen == [MapPost(new2, 0)];
    assert WithUser(unseen, "me") == [InsertedRow(MapPost(new2, 0), "me")];
    assert Truthy(Some("me")) && Truthy(Some("tok"));
  }

  /** A post without `taken_at` makes the whole import a 500 that inserts
      nothing, even when every other post is new. */
  lemma MissingTakenAtFailsImport()
    ensures var good := SavedPost("1", "a", Some("hi"), None, Some(0), "u", None, None, 1);
      var bad := SavedPost("2", "b", Some("yo"), None, None, "u", None, None, 1);
      Post(Some("me"), Some("tok"), Ok([good, bad]), None, false) == Outcome(Failed, None)
  {
    var good := SavedPost("1", "a", Some("hi"), None, Some(0), "u", None, None, 1);
    var bad := SavedPost("2", "b", Some("yo"), None, None, "u", None, None, 1);
    assert IsoMillis([good, bad][1].takenAt).None?;
  }
}
