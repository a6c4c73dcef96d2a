/** POST /api/social/twitter/import-saves
    (src/app/api/social/twitter/import-saves/route.ts): maps the user's
    bookmarked tweets to resources, drops those already stored for the user
    (by source id), inserts the rest with the user id and reports the counts.
    The bookmark list, the stored source ids and the insert outcome are inputs. */
module TweetImport {
  import opened Common

  /** A bookmarked tweet as delivered. `createdAt` is the parsed creation
      time, absent when the field is missing or not a date. */
  datatype Bookmark = Bookmark(
    id: string,
    text: string,
    authorId: string,
    mediaKeys: seq<string>,
    createdAt: Option<int>,
    likeCount: Option<int>,
    retweetCount: Option<int>)

  /** An expanded media object of the answer, looked up by its media key. */
  datatype MediaInfo = MediaInfo(previewImageUrl: Option<string>)

  datatype SavedTweet = SavedTweet(
    title: string,
    url: string,
    thumbnail: Option<string>,
    dateSaved: int,
    source: string,
    sourceId: string,
    author: string,
    likes: int,
    retweets: int)

  datatype InsertedRow = InsertedRow(resource: SavedTweet, userId: string)

  /** The thumbnail as written: `media_keys[0]` is a key string, which has no
      `preview_image_url` property, so the value is always null. */
  function AsWrittenThumbnail(b: Bookmark): Option<string>
  {
    None
  }

  /** The thumbnail evidently intended: the preview image of the media that
      the first media key names, if that media was expanded and has one. */
  function Thumbnail(b: Bookmark, media: map<string, MediaInfo>): (r: Option<string>)
    ensures r.Some? ==> |b.mediaKeys| > 0 && b.mediaKeys[0] in media && r == media[b.mediaKeys[0]].previewImageUrl
    ensures r.Some? ==> Truthy(r)
    ensures r.None? <==>
      (b.mediaKeys == [] || b.mediaKeys[0] !in media || !Truthy(media[b.mediaKeys[0]].previewImageUrl))
  {
    if b.mediaKeys == [] || b.mediaKeys[0] !in media then None
    else FirstTruthy([media[b.mediaKeys[0]].previewImageUrl])
  }

  /** A tweet with one photo: the code as written stores no thumbnail, the
      intended lookup finds the photo's preview. */
  lemma ThumbnailAlwaysNull()
    ensures var b := Bookmark("1", "hi", "7", ["3_1"], Some(0), None, None);
      var media := map["3_1" := MediaInfo(Some("https://pbs.twimg.com/p.jpg"))];
      && AsWrittenThumbnail(b) == None
      && Thumbnail(b, media) == Some("https://pbs.twimg.com/p.jpg")
  {
    var b := Bookmark("1", "hi", "7", ["3_1"], Some(0), None, None);
    var media := map["3_1" := MediaInfo(Some("https://pbs.twimg.com/p.jpg"))];
    assert Thumbnail(b, media) == FirstTruthy([Some("https://pbs.twimg.com/p.jpg")]);
  }

  /** One bookmark as a resource, stamped with its creation time. */
  function MapTweet(b: Bookmark, media: map<string, MediaInfo>, date: int): (r: SavedTweet)
    ensures r.title == Ellipsize(b.text, 100) && |r.title| <= 103
    ensures r.url == "https://twitter.com/" + b.authorId + "/status/" + b.id
    ensures r.sourceId == b.id && r.source == "twitter" && r.author == b.authorId
    ensures r.thumbnail == Thumbnail(b, media) && r.dateSaved == date
    ensures r.likes == OrZero(b.likeCount) && r.retweets == OrZero(b.retweetCount)
  {
    SavedTweet(
      Ellipsize(b.text, 100),
      "https://twitter.com/" + b.authorId + "/status/" + b.id,
      Thumbnail(b, media),
      date,
      "twitter",
      b.id,
      b.authorId,
      OrZero(b.likeCount),
      OrZero(b.retweetCount))
  }

  /** One bookmark mapped as route.ts:40-52 is written: the record of
      `MapTweet` for any expanded media, except that the thumbnail is null. */
  function AsWrittenMapTweet(b: Bookmark, date: int): (r: SavedTweet)
    ensures forall media :: r == MapTweet(b, media, date).(thumbnail := AsWrittenThumbnail(b))
    ensures r.thumbnail.None?
  {
    MapTweet(b, map[], date).(thumbnail := AsWrittenThumbnail(b))
  }

  /** The whole `map`: None when some bookmark has no creation time (turning
      it into an ISO string throws), otherwise one resource per bookmark. */
  function MapAll(bs: seq<Bookmark>, media: map<string, MediaInfo>): (r: Option<seq<SavedTweet>>)
    ensures r.Some? <==> forall i :: 0 <= i < |bs| ==> bs[i].createdAt.Some?
    ensures r.Some? ==> |r.value| == |bs|
    ensures r.Some? ==> forall i :: 0 <= i < |bs| ==> r.value[i] == MapTweet(bs[i], media, bs[i].createdAt.value)
  {
    if bs == [] then Some([])
    else match bs[0].createdAt
      case None => None
      case Some(date) =>
        match MapAll(bs[1..], media)
        case None => None
        case Some(rest) =>
          assert forall i :: 1 <= i < |bs| ==> bs[i] == bs[1..][i - 1];
          Some([MapTweet(bs[0], media, date)] + rest)
  }

  /** `new Set(existingResources?.map(r => r.sourceId) || [])`. */
  function StoredIds(existing: Option<seq<string>>): (ids: set<string>)
    ensures forall x :: x in ids <==> existing.Some? && x in existing.value
  {
    if existing.Some? then (set x | x in existing.value) else {}
  }

  function SourceId(r: SavedTweet): string
  {
    r.sourceId
  }

  function WithUser(rs: seq<SavedTweet>, userId: string): (rows: seq<InsertedRow>)
    ensures |rows| == |rs| && forall i :: 0 <= i < |rs| ==> rows[i] == InsertedRow(rs[i], userId)
  {
    seq(|rs|, i requires 0 <= i < |rs| => InsertedRow(rs[i], userId))
  }

  /** Every listed resource has its row, and every row carries the user id
      and one of the listed resources. */
  lemma WithUserMembers(rs: seq<SavedTweet>, userId: string)
    ensures forall r :: r in rs ==> InsertedRow(r, userId) in WithUser(rs, userId)
    ensures forall row :: row in WithUser(rs, userId) ==> row.userId == userId && row.resource in rs
  {
    var rows := WithUser(rs, userId);
    forall r | r in rs ensures InsertedRow(r, userId) in rows {
      var i :| 0 <= i < |rs| && rs[i] == r;
      assert rows[i] == InsertedRow(r, userId);
    }
    forall row | row in rows ensures row.userId == userId && row.resource in rs {
      var i :| 0 <= i < |rows| && rows[i] == row;
      assert row.resource == rs[i];
    }
  }

  /** The reply and, when the insert was attempted, the rows sent to it. */
  datatype Outcome = Outcome(reply: Reply<ImportCounts>, inserted: Option<seq<InsertedRow>>)

  const Failed: Reply<ImportCounts> := Failure(500, "Failed to import bookmarks")

  /** The handler. `bookmarks` is the bookmark call (Err when it throws),
      `media` the expanded media by key, `existing` the stored source ids
      (None when the query returned no data) and `insertFails` whether the
      insert reports an error. */
  function Post(userId: Option<string>, accessToken: Option<string>, bookmarks: Result<seq<Bookmark>>,
                media: map<string, MediaInfo>, existing: Option<seq<string>>, insertFails: bool): (o: Outcome)
  {
    if !Truthy(userId) || !Truthy(accessToken) then Outcome(Failure(400, "Missing required parameters"), None)
    else match bookmarks
      case Err(_) => Outcome(Failed, None)
      case Ok(bs) =>
        match MapAll(bs, media)
        case None => Outcome(Failed, None)
        case Some(rs) =>
          var ids := StoredIds(existing);
          var unseen := Unseen(rs, SourceId, ids);
          if unseen == [] then Outcome(Reply(ImportCounts(0, |rs|, |rs|)), None)
          else if insertFails then Outcome(Failed, Some(WithUser(unseen, userId.value)))
          else Outcome(Reply(ImportCounts(|unseen|, |rs|, |rs| - |unseen|)), Some(WithUser(unseen, userId.value)))
  }

  /** The error replies: missing parameters are a 400; a failed bookmark
      call, or a bookmark the mapping throws on, a 500; none of these
      inserts anything. */
  lemma ErrorReplies(userId: Option<string>, accessToken: Option<string>, bookmarks: Result<seq<Bookmark>>,
                     media: map<string, MediaInfo>, existing: Option<seq<string>>, insertFails: bool)
    ensures var o := Post(userId, accessToken, bookmarks, media, existing, insertFails);
      && (!Truthy(userId) || !Truthy(accessToken) ==> o == Outcome(Failure(400, "Missing required parameters"), None))
      && (Truthy(userId) && Truthy(accessToken) && bookmarks.Err? ==> o == Outcome(Failed, None))
      && (Truthy(userId) && Truthy(accessToken) && bookmarks.Ok? && MapAll(bookmarks.value, media).None? ==>
            o == Outcome(Failed, None))
      && (Truthy(userId) && Truthy(accessToken) && bookmarks.Ok? && MapAll(bookmarks.value, media).Some? ==>
            var unseen := Unseen(MapAll(bookmarks.value, media).value, SourceId, StoredIds(existing));
            && (unseen != [] && insertFails ==> o == Outcome(Failed, Some(WithUser(unseen, userId.value))))
            && (unseen == [] || !insertFails ==> o.reply.Reply?))
      && (o.reply.Failure? ==> o.reply.status == 400 || o.reply == Failed)
  {
  }

  /** The counts add up: imported + skipped = total, imported <= total, and
      imported is the number of rows handed to the insert. */
  lemma {:induction false} CountsAddUp(userId: Option<string>, accessToken: Option<string>, bookmarks: Result<seq<Bookmark>>,
                        media: map<string, MediaInfo>, existing: Option<seq<string>>, insertFails: bool)
    ensures var o := Post(userId, accessToken, bookmarks, media, existing, insertFails);
      o.reply.Reply? ==>
        && o.reply.body.imported + o.reply.body.skipped == o.reply.body.total
        && o.reply.body.imported <= o.reply.body.total
        && o.reply.body.total == |bookmarks.value|
        && o.reply.body.skipped >= 0
        && o.reply.body.imported == (if o.inserted.Some? then |o.inserted.value| else 0)
  {
    var o := Post(userId, accessToken, bookmarks, media, existing, insertFails);
    if o.reply.Reply? {
      var rs := MapAll(bookmarks.value, media).value;
      var ids := StoredIds(existing);
      var unseen := Unseen(rs, SourceId, ids);
      assert |unseen| <= |rs|;
    }
  }

  /** The insert receives exactly the fetched bookmarks not stored before,
      in fetch order, each with the user id: it is attempted exactly when one
      exists, every such bookmark is among the rows, and every row is one. */
  lemma {:induction false} InsertedAreNew(userId: Option<string>, accessToken: Option<string>, bookmarks: Result<seq<Bookmark>>,
                           media: map<string, MediaInfo>, existing: Option<seq<string>>, insertFails: bool)
    ensures var o := Post(userId, accessToken, bookmarks, media, existing, insertFails);
      Truthy(userId) && Truthy(accessToken) && bookmarks.Ok? && MapAll(bookmarks.value, media).Some? ==>
        var rs := MapAll(bookmarks.value, media).value;
        && (o.inserted.Some? <==> exists r :: r in rs && r.sourceId !in StoredIds(existing))
        && (o.inserted.Some? ==> o.inserted.value == WithUser(Unseen(rs, SourceId, StoredIds(existing)), userId.value))
        && (forall r :: r in rs && r.sourceId !in StoredIds(existing) ==>
              o.inserted.Some? && InsertedRow(r, userId.value) in o.inserted.value)
    ensures var o := Post(userId, accessToken, bookmarks, media, existing, insertFails);
      o.inserted.Some? ==>
        && |o.inserted.value| > 0
        && forall row :: row in o.inserted.value ==>
             && row.userId == userId.value
             && row.resource in MapAll(bookmarks.value, media).value
             && (existing.Some? ==> row.resource.sourceId !in existing.value)
  {
    var o := Post(userId, accessToken, bookmarks, media, existing, insertFails);
    if Truthy(userId) && Truthy(accessToken) && bookmarks.Ok? && MapAll(bookmarks.value, media).Some? {
      var rs := MapAll(bookmarks.value, media).value;
      var ids := StoredIds(existing);
      var unseen := Unseen(rs, SourceId, ids);
      assert o.inserted == if unseen == [] then None else Some(WithUser(unseen, userId.value));
      WithUserMembers(unseen, userId.value);
      if unseen != [] {
        assert unseen[0] in unseen;
      }
    }
  }

  /** Importing again with the new source ids recorded inserts nothing and
      reports every bookmark as skipped. */
  lemma {:induction false} ReimportInsertsNothing(userId: Option<string>, accessToken: Option<string>, bs: seq<Bookmark>,
                                   media: map<string, MediaInfo>, stored: seq<string>, insertFails: bool)
    requires Truthy(userId) && Truthy(accessToken) && MapAll(bs, media).Some?
    ensures var rs := MapAll(bs, media).value;
      var again := stored + seq(|rs|, i requires 0 <= i < |rs| => rs[i].sourceId);
      Post(userId, accessToken, Ok(bs), media, Some(again), insertFails)
        == Outcome(Reply(ImportCounts(0, |rs|, |rs|)), None)
  {
    var rs := MapAll(bs, media).value;
    var again := stored + seq(|rs|, i requires 0 <= i < |rs| => rs[i].sourceId);
    var ids := StoredIds(Some(again));
    forall r | r in rs ensures SourceId(r) in ids {
      var i :| 0 <= i < |rs| && rs[i] == r;
      assert again[|stored| + i] == r.sourceId;
    }
    var unseen := Unseen(rs, SourceId, ids);

  }

  /** Repeats inside one batch are not removed: the same tweet bookmarked in
      two pages is inserted twice. */
  lemma BatchRepeatsKept()
    ensures var b := Bookmark("1", "hi", "7", [], Some(0), None, None);
      var o := Post(Some("u"), Some("t"), Ok([b, b]), map[], None, false);
      o.reply == Reply(ImportCounts(2, 2, 0)) && o.inserted.Some? && |o.inserted.value| == 2
  {
    var b := Bookmark("1", "hi", "7", [], Some(0), None, None);
    var rs := MapAll([b, b], map[]).value;
    var unseen := Unseen(rs, SourceId, {});
    assert unseen == rs;
  }
}
