/**
 * The domain rules of the video controller: the watch-history update done by
 * `getVideoById`, `deleteVideo` with its guards and media public ids,
 * `togglePublishStatus`, the input checks of `publishVideo`, the channel
 * listings and the paginated listings.
 */
module VideoController {
  import opened Wrappers
  import opened Models
  import opened Aggregation

  // Messages of the errors and answers
  const NotOwnerMessage := "You do not have permission to perform this action on this resource"
  const MissingMediaMessage := "Please select a video and a thumbnail image to upload"
  const HistoryUpdateFailedMessage := "something went wrong while updating users watch history"
  const ThumbnailUploadFailedMessage := "something went wrong while uploading thumbnail"
  const VideoUploadFailedMessage := "something went wrong while uploading video"
  const EmptyTextMessage := "title or description cannot be empty"
  const VideoIdMissingMessage := "video id is missing."
  const InvalidVideoIdMessage := "invalid video id"
  const UserIdMissingMessage := "user id is missing"
  const InvalidUserIdMessage := "Invalid User ID"

  // ---------------------------------------------------------------------------
  // Watch history
  // ---------------------------------------------------------------------------

  /** The history after viewing `videoId`: its earlier entry spliced out, then `videoId` unshifted. */
  function MoveToFront(history: seq<ObjectId>, videoId: ObjectId): (r: seq<ObjectId>)
    ensures |r| > 0 && r[0] == videoId
    ensures |r| == if videoId in history then |history| else |history| + 1
    ensures forall x :: x in r <==> x == videoId || x in history
  {
    var index := IndexOf(history, videoId);
    if index > -1 then
      assert history == history[..index] + [videoId] + history[index + 1..];
      [videoId] + RemoveAt(history, index)
    else
      [videoId] + history
  }

  /** Every entry other than the viewed one keeps its relative order. */
  lemma MoveToFrontKeepsOthersInOrder(history: seq<ObjectId>, videoId: ObjectId)
    ensures Without(MoveToFront(history, videoId), videoId) == Without(history, videoId)
  {
    var index := IndexOf(history, videoId);
    if index > -1 {
      var before, after := history[..index], history[index + 1..];
      assert history == before + ([videoId] + after);
      assert RemoveAt(history, index) == before + after;
      WithoutConsSelf(before + after, videoId);
      WithoutConcat(before, after, videoId);
      WithoutConcat(before, [videoId] + after, videoId);
      WithoutConsSelf(after, videoId);
    } else {
      WithoutConsSelf(history, videoId);
    }
  }

  /** On a duplicate-free history the update is exactly "the viewed id, then the others in order". */
  lemma MoveToFrontOfDuplicateFree(history: seq<ObjectId>, videoId: ObjectId)
    requires NoDup(history)
    ensures MoveToFront(history, videoId) == [videoId] + Without(history, videoId)
  {
    var index := IndexOf(history, videoId);
    if index > -1 {
      var before, after := history[..index], history[index + 1..];
      assert history == before + ([videoId] + after);
      assert videoId !in after by {
        forall k | 0 <= k < |after| ensures after[k] != videoId {
          assert after[k] == history[index + 1 + k];
        }
      }
      WithoutAbsent(before, videoId);
      WithoutAbsent(after, videoId);
      WithoutConcat(before, [videoId] + after, videoId);
      WithoutConsSelf(after, videoId);
      assert RemoveAt(history, index) == before + after;
    } else {
      WithoutAbsent(history, videoId);
    }
  }

  /** A history without repeats keeps none after the update. */
  lemma MoveToFrontNoDup(history: seq<ObjectId>, videoId: ObjectId)
    requires NoDup(history)
    ensures NoDup(MoveToFront(history, videoId))
  {
    var r := MoveToFront(history, videoId);
    var index := IndexOf(history, videoId);
    var rest := if index > -1 then RemoveAt(history, index) else history;
    assert r == [videoId] + rest;
    // the position in `history` each later entry of `r` comes from
    assert forall k :: 0 < k < |r| ==> r[k] == history[if index > -1 && k - 1 >= index then k else k - 1];
    forall i, j | 0 <= i < j < |r| ensures r[i] != r[j] {
      var hj := if index > -1 && j - 1 >= index then j else j - 1;
      if i == 0 {
        if index > -1 {
          assert hj != index;
          assert history[index] == videoId;
        } else {
          assert history[hj] in history;
        }
      } else {
        var hi := if index > -1 && i - 1 >= index then i else i - 1;
        assert hi < hj;
      }
    }
  }

  /** Viewing the same video twice in a row leaves the history as the first view left it. */
  lemma MoveToFrontIdempotent(history: seq<ObjectId>, videoId: ObjectId)
    ensures MoveToFront(MoveToFront(history, videoId), videoId) == MoveToFront(history, videoId)
  {
    var once := MoveToFront(history, videoId);
    assert IndexOf(once, videoId) == 0;
    assert RemoveAt(once, 0) == once[1..];
  }

  /** `updateOne({_id: id}, {$inc: {views: 1}})` */
  function WithViewCounted(videos: seq<Doc<Video>>, id: ObjectId): (r: seq<Doc<Video>>)
    ensures |r| == |videos| && forall k :: 0 <= k < |r| ==> r[k].id == videos[k].id
  {
    match Find(videos, id)
    case None => videos
    case Some(i) => videos[i := Doc(id, videos[i].body.(views := videos[i].body.views + 1))]
  }

  /**
   * `getVideoById`: counts a view of the video and moves it to the front of
   * the requester's watch history. The not-found check after `updateOne`
   * never fires, so a well-formed id of a missing video is still recorded.
   */
  method GetVideoById(db: Db, requester: ObjectId, videoId: PathId) returns (r: Result<seq<Doc<Video>>>)
    requires db.Valid()
    modifies db
    ensures db.Valid()
    ensures db.playlists == old(db.playlists) && db.subscriptions == old(db.subscriptions)
    ensures videoId.Missing? ==> r == Err(ApiError(400, VideoIdMissingMessage)) && unchanged(db)
    ensures videoId.Malformed? ==> r == Err(ApiError(400, InvalidVideoIdMessage)) && unchanged(db)
    ensures videoId.WellFormed? ==> db.videos == WithViewCounted(old(db.videos), videoId.id)
    ensures videoId.WellFormed? ==> (r.Ok? <==> Find(old(db.users), requester).Some?)
    ensures videoId.WellFormed? && r.Err? ==>
      r.error == ApiError(500, HistoryUpdateFailedMessage) && db.users == old(db.users)
    ensures videoId.WellFormed? && r.Ok? ==>
      var u := Find(old(db.users), requester).value;
      var user := old(db.users)[u].body;
      db.users == old(db.users)[u := Doc(requester, user.(watchHistory := MoveToFront(user.watchHistory, videoId.id)))]
    ensures r.Ok? ==> |r.value| <= 1 && (r.value == [] <==> Find(db.videos, videoId.id).None?)
    ensures r.Ok? ==> forall d :: d in r.value ==> d in db.videos && d.id == videoId.id
  {
    match videoId {
      case Missing =>
        return Err(ApiError(400, VideoIdMissingMessage));
      case Malformed(_) =>
        return Err(ApiError(400, InvalidVideoIdMessage));
      case WellFormed(id) =>
        var found := Find(db.videos, id);
        var counted := WithViewCounted(db.videos, id);
        FindAfterReplaceAll(db.videos, counted, id);
        db.videos := counted;
        var video := if found.Some? then [counted[found.value]] else [];
        var u := Find(db.users, requester);
        if u.None? {
          return Err(ApiError(500, HistoryUpdateFailedMessage));
        }
        var user := db.users[u.value].body;
        var history := user.watchHistory;
        var index := IndexOf(history, id);
        if index > -1 {
          history := RemoveAt(history, index);
        }
        history := [id] + history;
        assert history == MoveToFront(user.watchHistory, id);
        var updated := db.users[u.value := Doc(requester, user.(watchHistory := history))];
        FindAfterReplaceAll(db.users, updated, requester);
        db.users := updated;
        r := Ok(video);
    }
  }

  /** Two collections with the same ids in the same places answer every `findById` alike. */
  lemma {:induction false} FindAfterReplaceAll<T>(before: seq<Doc<T>>, after: seq<Doc<T>>, id: ObjectId)
    requires |before| == |after| && forall k :: 0 <= k < |after| ==> after[k].id == before[k].id
    ensures Find(after, id) == Find(before, id)
    ensures UniqueIds(before) ==> UniqueIds(after)
  {
    SameIdsUnique(before, after);
    if before != [] && before[0].id != id {
      assert forall k :: 0 <= k < |after| - 1 ==> after[1..][k].id == after[k + 1].id == before[k + 1].id == before[1..][k].id;
      FindAfterReplaceAll(before[1..], after[1..], id);
    }
  }

  lemma SameIdsUnique<T>(before: seq<Doc<T>>, after: seq<Doc<T>>)
    requires |before| == |after| && forall k :: 0 <= k < |after| ==> after[k].id == before[k].id
    ensures UniqueIds(before) ==> UniqueIds(after)
  {
  }

  // ---------------------------------------------------------------------------
  // Media public ids
  // ---------------------------------------------------------------------------

  /** `s.split(sep).pop()`: what follows the last separator (all of `s` when there is none). */
  function LastSegment(s: string, sep: char): (r: string)
    ensures sep !in r
  {
    if s == [] then []
    else if s[|s| - 1] == sep then []
    else LastSegment(s[..|s| - 1], sep) + [s[|s| - 1]]
  }

  /** `pop()` returns a suffix of `s`, preceded by the separator when it is not all of `s`. */
  lemma {:induction false} LastSegmentIsSuffix(s: string, sep: char)
    ensures var r := LastSegment(s, sep);
      |r| <= |s| && r == s[|s| - |r|..] && (|r| < |s| ==> s[|s| - |r| - 1] == sep)
  {
    if s != [] && s[|s| - 1] != sep {
      var init := s[..|s| - 1];
      LastSegmentIsSuffix(init, sep);
      var r0 := LastSegment(init, sep);
      var k := |init| - |r0|;
      assert s[k..] == init[k..] + [s[|s| - 1]] by {
        assert s == init + [s[|s| - 1]];
      }
    }
  }

  /** `s.split(sep)[0]`: what precedes the first separator (all of `s` when there is none). */
  function FirstSegment(s: string, sep: char): (r: string)
    ensures sep !in r
  {
    if s == [] then []
    else if s[0] == sep then []
    else [s[0]] + FirstSegment(s[1..], sep)
  }

  /** `[0]` is a prefix of `s`, followed by the separator when it is not all of `s`. */
  lemma {:induction false} FirstSegmentIsPrefix(s: string, sep: char)
    ensures var r := FirstSegment(s, sep);
      |r| <= |s| && r == s[..|r|] && (|r| < |s| ==> s[|r|] == sep)
  {
    if s != [] && s[0] != sep {
      FirstSegmentIsPrefix(s[1..], sep);
    }
  }

  /** The media host's public id of an uploaded file: the last path segment cut at its first dot. */
  function PublicId(url: string): (r: string)
    ensures '/' !in r && '.' !in r
  {
    FirstSegmentIsPrefix(LastSegment(url, '/'), '.');
    FirstSegment(LastSegment(url, '/'), '.')
  }

  lemma {:induction false} LastSegmentAfterSeparator(prefix: string, tail: string, sep: char)
    requires sep !in tail
    ensures LastSegment(prefix + [sep] + tail, sep) == tail
  {
    var s := prefix + [sep] + tail;
    if tail != [] {
      var shorter := tail[..|tail| - 1];
      assert s[..|s| - 1] == prefix + [sep] + shorter;
      LastSegmentAfterSeparator(prefix, shorter, sep);
      assert tail == shorter + [tail[|tail| - 1]];
    }
  }

  lemma {:induction false} FirstSegmentBeforeSeparator(head: string, rest: string, sep: char)
    requires sep !in head
    ensures FirstSegment(head + [sep] + rest, sep) == head
  {
    if head != [] {
      assert (head + [sep] + rest)[1..] == head[1..] + [sep] + rest;
      FirstSegmentBeforeSeparator(head[1..], rest, sep);
    }
  }

  /** An upload URL `…/<name>.<extension>` yields the public id `<name>`. */
  lemma PublicIdOfUploadUrl(folder: string, name: string, extension: string)
    requires '/' !in name && '.' !in name && '/' !in extension
    ensures PublicId(folder + "/" + name + "." + extension) == name
  {
    var file := name + "." + extension;
    assert folder + "/" + name + "." + extension == folder + ['/'] + file;
    LastSegmentAfterSeparator(folder, file, '/');
    assert file == name + ['.'] + extension;
    FirstSegmentBeforeSeparator(name, extension, '.');
  }

  // ---------------------------------------------------------------------------
  // Delete, publish toggle, publish
  // ---------------------------------------------------------------------------

  /**
   * `deleteVideo`: only the owner may delete. The HTTP answer's data is `{}`;
   * on success the result is the pair of public ids (video file, thumbnail)
   * handed to `deleteFromCloudinary` before the document is removed.
   */
  method DeleteVideo(db: Db, requester: ObjectId, videoId: PathId) returns (r: Result<(string, string)>)
    requires db.Valid()
    modifies db
    ensures db.Valid()
    ensures db.users == old(db.users) && db.playlists == old(db.playlists) && db.subscriptions == old(db.subscriptions)
    ensures r.Err? ==> db.videos == old(db.videos)
    ensures videoId.Missing? ==> r == Err(ApiError(400, VideoIdMissingMessage))
    ensures videoId.Malformed? ==> r == Err(ApiError(400, InvalidVideoIdMessage))
    ensures videoId.WellFormed? && Find(old(db.videos), videoId.id).None? ==>
      r == Err(ApiError(400, "video with id " + IdString(videoId.id) + " is already deleted"))
    ensures videoId.WellFormed? && Find(old(db.videos), videoId.id).Some? ==>
      var i := Find(old(db.videos), videoId.id).value;
      var video := old(db.videos)[i].body;
      if IdString(requester) != IdString(video.owner) then
        r == Err(ApiError(401, NotOwnerMessage))
      else
        r == Ok((PublicId(video.videoFile), PublicId(video.thumbnail))) && db.videos == RemoveAt(old(db.videos), i)
    ensures r.Ok? ==> videoId.WellFormed? && Find(db.videos, videoId.id).None?
  {
    match videoId {
      case Missing =>
        return Err(ApiError(400, VideoIdMissingMessage));
      case Malformed(_) =>
        return Err(ApiError(400, InvalidVideoIdMessage));
      case WellFormed(id) =>
        var found := Find(db.videos, id);
        if found.None? {
          return Err(ApiError(400, "video with id " + IdString(id) + " is already deleted"));
        }
        var i := found.value;
        var video := db.videos[i].body;
        if IdString(requester) != IdString(video.owner) {
          return Err(ApiError(401, NotOwnerMessage));
        }
        var videoPublicId := PublicId(video.videoFile);
        var thumbnailPublicId := PublicId(video.thumbnail);
        RemoveFound(db.videos, id);
        db.videos := RemoveAt(db.videos, i);
        r := Ok((videoPublicId, thumbnailPublicId));
    }
  }

  /** Deleting the document `findById` found keeps the ids unique and leaves `id` unfindable. */
  lemma RemoveFound(videos: seq<Doc<Video>>, id: ObjectId)
    requires UniqueIds(videos) && Find(videos, id).Some?
    ensures UniqueIds(RemoveAt(videos, Find(videos, id).value))
    ensures Find(RemoveAt(videos, Find(videos, id).value), id).None?
  {
    RemoveDoc(videos, Find(videos, id).value);
  }

  /** The collection with the `isPublished` flag of the document `id` negated. */
  function WithPublishToggled(videos: seq<Doc<Video>>, id: ObjectId): (r: seq<Doc<Video>>)
    ensures |r| == |videos|
    ensures forall k :: 0 <= k < |r| ==> r[k].id == videos[k].id
    ensures forall k :: 0 <= k < |r| ==> r[k].body == videos[k].body.(isPublished := r[k].body.isPublished)
    ensures forall k :: 0 <= k < |r| ==>
      (r[k].body.isPublished <==> if Find(videos, id) == Some(k) then !videos[k].body.isPublished else videos[k].body.isPublished)
  {
    match Find(videos, id)
    case None => videos
    case Some(i) => videos[i := Doc(id, videos[i].body.(isPublished := !videos[i].body.isPublished))]
  }

  /** Toggling the publish flag twice restores the collection. */
  lemma ToggleTwiceRestores(videos: seq<Doc<Video>>, id: ObjectId)
    ensures WithPublishToggled(WithPublishToggled(videos, id), id) == videos
  {
    var once := WithPublishToggled(videos, id);
    FindAfterReplaceAll(videos, once, id);
  }

  /** `togglePublishStatus`: negates `isPublished` of an existing video. The handler does not check ownership. */
  method TogglePublishStatus(db: Db, videoId: PathId) returns (r: Result<Doc<Video>>)
    requires db.Valid()
    modifies db
    ensures db.Valid()
    ensures db.users == old(db.users) && db.playlists == old(db.playlists) && db.subscriptions == old(db.subscriptions)
    ensures videoId.Missing? ==> r == Err(ApiError(400, VideoIdMissingMessage)) && db.videos == old(db.videos)
    ensures videoId.Malformed? ==> r == Err(ApiError(400, InvalidVideoIdMessage)) && db.videos == old(db.videos)
    ensures videoId.WellFormed? && Find(old(db.videos), videoId.id).None? ==>
      r == Err(ApiError(400, "video with id " + IdString(videoId.id) + " doesn't exist in DB.")) && db.videos == old(db.videos)
    ensures videoId.WellFormed? && Find(old(db.videos), videoId.id).Some? ==>
      var i := Find(old(db.videos), videoId.id).value;
      db.videos == WithPublishToggled(old(db.videos), videoId.id) && r == Ok(db.videos[i])
      && r.value.body.isPublished == !old(db.videos)[i].body.isPublished
  {
    match videoId {
      case Missing =>
        return Err(ApiError(400, VideoIdMissingMessage));
      case Malformed(_) =>
        return Err(ApiError(400, InvalidVideoIdMessage));
      case WellFormed(id) =>
        var found := Find(db.videos, id);
        if found.None? {
          return Err(ApiError(400, "video with id " + IdString(id) + " doesn't exist in DB."));
        }
        var video := db.videos[found.value];
        video := video.(body := video.body.(isPublished := !video.body.isPublished));
        db.videos := db.videos[found.value := video];
        r := Ok(video);
    }
  }

  /** What the media host answers for a successful upload. */
  datatype Upload = Upload(url: string, duration: int)

  /** The values the Video schema fills in for fields the handler does not set. */
  datatype SchemaDefaults = SchemaDefaults(views: int, isPublished: bool)

  /**
   * `publishVideo`: title and description are required, then both files,
   * then both uploads must succeed; the new document belongs to the requester.
   * An empty string stands for a missing body field (both are falsy).
   */
  method PublishVideo(
    db: Db, requester: ObjectId, newId: ObjectId, title: string, description: string,
    hasVideoFile: bool, hasThumbnail: bool, videoUpload: Option<Upload>, thumbnailUpload: Option<Upload>,
    createdAt: int, defaults: SchemaDefaults)
    returns (r: Result<Doc<Video>>)
    requires db.Valid() && Find(db.videos, newId).None?
    modifies db
    ensures db.Valid()
    ensures db.users == old(db.users) && db.playlists == old(db.playlists) && db.subscriptions == old(db.subscriptions)
    ensures r.Err? ==> db.videos == old(db.videos)
    ensures title == "" || description == "" ==> r == Err(ApiError(400, EmptyTextMessage))
    ensures title != "" && description != "" && !(hasVideoFile && hasThumbnail) ==>
      r == Err(ApiError(400, MissingMediaMessage))
    ensures title != "" && description != "" && hasVideoFile && hasThumbnail && videoUpload.None? ==>
      r == Err(ApiError(500, VideoUploadFailedMessage))
    ensures title != "" && description != "" && hasVideoFile && hasThumbnail && videoUpload.Some? && thumbnailUpload.None? ==>
      r == Err(ApiError(500, ThumbnailUploadFailedMessage))
    ensures r.Ok? <==> title != "" && description != "" && hasVideoFile && hasThumbnail && videoUpload.Some? && thumbnailUpload.Some?
    ensures r.Ok? ==>
      && db.videos == old(db.videos) + [r.value]
      && r.value.id == newId
      && r.value.body == Video(requester, title, description, videoUpload.value.url, thumbnailUpload.value.url,
                               videoUpload.value.duration, defaults.views, defaults.isPublished, createdAt)
  {
    if title == "" || description == "" {
      return Err(ApiError(400, EmptyTextMessage));
    }
    if !hasVideoFile || !hasThumbnail {
      return Err(ApiError(400, MissingMediaMessage));
    }
    if videoUpload.None? {
      return Err(ApiError(500, VideoUploadFailedMessage));
    }
    if thumbnailUpload.None? {
      return Err(ApiError(500, ThumbnailUploadFailedMessage));
    }
    var video := Video(requester, title, description, videoUpload.value.url, thumbnailUpload.value.url,
                       videoUpload.value.duration, defaults.views, defaults.isPublished, createdAt);
    var doc := Doc(newId, video);
    db.videos := db.videos + [doc];
    r := Ok(doc);
  }

  // ---------------------------------------------------------------------------
  // Channel listings
  // ---------------------------------------------------------------------------

  /** A stage of a channel listing pipeline. */
  datatype Stage = Match(condition: Condition) | Sort(keys: seq<SortKey>)

  function RunPipeline(stages: seq<Stage>, docs: seq<Doc<Video>>): seq<Doc<Video>>
    decreases |stages|
  {
    if stages == [] then docs
    else
      var out := match stages[0]
        case Match(c) => MatchDocs(docs, c)
        case Sort(keys) => SortDocs(docs, keys);
      RunPipeline(stages[1..], out)
  }

  /** The text of a query value as a template literal prints it. */
  function QueryText(value: Option<string>): string {
    match value
    case None => "undefined"
    case Some(s) => s
  }

  /**
   * The pipeline of `getPublishedVideosByChannel`: the owner and published
   * matches, then a `$sort` chosen by `sortBy`; any other keyword throws.
   */
  method ChannelPipeline(userId: ObjectId, sortBy: Option<string>) returns (r: Result<seq<Stage>>)
    ensures r.Ok? <==> sortBy == Some("latest") || sortBy == Some("oldest") || sortBy == Some("popular")
    ensures r.Err? ==> r.error == ApiError(500, "Invalid sortBy value: " + QueryText(sortBy))
    ensures r.Ok? ==> |r.value| == 3 && r.value[..2] == [Match(OwnerIs(userId)), Match(PublishedIs(true))]
    ensures sortBy == Some("latest") ==> r.Ok? && r.value[2] == Sort([SortKey(CreatedAt, false)])
    ensures sortBy == Some("oldest") ==> r.Ok? && r.value[2] == Sort([SortKey(CreatedAt, true)])
    ensures sortBy == Some("popular") ==> r.Ok? && r.value[2] == Sort([SortKey(Views, false)])
  {
    var pipeline := [Match(OwnerIs(userId)), Match(PublishedIs(true))];
    if sortBy == Some("latest") {
      pipeline := pipeline + [Sort([SortKey(CreatedAt, false)])];
    } else if sortBy == Some("oldest") {
      pipeline := pipeline + [Sort([SortKey(CreatedAt, true)])];
    } else if sortBy == Some("popular") {
      pipeline := pipeline + [Sort([SortKey(Views, false)])];
    } else {
      return Err(ApiError(500, "Invalid sortBy value: " + QueryText(sortBy)));
    }
    r := Ok(pipeline);
  }

  /** Running the channel pipeline: the channel's published videos, in the chosen order. */
  lemma ChannelPipelineResult(docs: seq<Doc<Video>>, userId: ObjectId, keys: seq<SortKey>)
    ensures var out := RunPipeline([Match(OwnerIs(userId)), Match(PublishedIs(true)), Sort(keys)], docs);
      && SortedBy(out, keys)
      && (forall d :: multiset(out)[d] == if d.body.owner == userId && d.body.isPublished then multiset(docs)[d] else 0)
      && (forall d :: d in out ==> d in docs && d.body.owner == userId && d.body.isPublished)
  {
    var stages := [Match(OwnerIs(userId)), Match(PublishedIs(true)), Sort(keys)];
    var owned := MatchDocs(docs, OwnerIs(userId));
    var published := MatchDocs(owned, PublishedIs(true));
    assert stages[1..] == [Match(PublishedIs(true)), Sort(keys)];
    assert stages[1..][1..] == [Sort(keys)];
    assert RunPipeline(stages, docs) == RunPipeline(stages[1..], owned);
    assert RunPipeline(stages[1..], owned) == RunPipeline([Sort(keys)], published);
    assert RunPipeline([Sort(keys)], published) == RunPipeline([], SortDocs(published, keys));
    var out := SortDocs(published, keys);
    forall d | d in out ensures d in docs && d.body.owner == userId && d.body.isPublished {
      assert multiset(out)[d] > 0;
    }
  }

  /** A listing sorted on one key is ordered on that field. */
  lemma SortedBySingleKey(docs: seq<Doc<Video>>, key: SortKey)
    requires SortedBy(docs, [key])
    ensures forall i :: 0 < i < |docs| ==>
      if key.ascending then FieldValue(docs[i - 1].body, key.field) <= FieldValue(docs[i].body, key.field)
      else FieldValue(docs[i - 1].body, key.field) >= FieldValue(docs[i].body, key.field)
  {
    forall i | 0 < i < |docs| {
      SingleKeyOrder(docs[i - 1].body, docs[i].body, key);
    }
  }

  /** `getPublishedVideosByChannel` */
  method GetPublishedVideosByChannel(db: Db, userId: PathId, sortBy: Option<string>) returns (r: Result<seq<Doc<Video>>>)
    ensures userId.Missing? ==> r == Err(ApiError(400, UserIdMissingMessage))
    ensures userId.Malformed? ==> r == Err(ApiError(400, InvalidUserIdMessage))
    ensures userId.WellFormed? && !(sortBy == Some("latest") || sortBy == Some("oldest") || sortBy == Some("popular")) ==>
      r == Err(ApiError(500, "Invalid sortBy value: " + QueryText(sortBy)))
    ensures r.Ok? <==> userId.WellFormed? && (sortBy == Some("latest") || sortBy == Some("oldest") || sortBy == Some("popular"))
    ensures r.Ok? ==> forall d :: d in r.value ==> d in db.videos && d.body.owner == userId.id && d.body.isPublished
    ensures r.Ok? ==> forall d :: multiset(r.value)[d] ==
                               (if d.body.owner == userId.id && d.body.isPublished then multiset(db.videos)[d] else 0)
    ensures r.Ok? && sortBy == Some("latest") ==>
      forall i :: 0 < i < |r.value| ==> r.value[i - 1].body.createdAt >= r.value[i].body.createdAt
    ensures r.Ok? && sortBy == Some("oldest") ==>
      forall i :: 0 < i < |r.value| ==> r.value[i - 1].body.createdAt <= r.value[i].body.createdAt
    ensures r.Ok? && sortBy == Some("popular") ==>
      forall i :: 0 < i < |r.value| ==> r.value[i - 1].body.views >= r.value[i].body.views
  {
    match userId {
      case Missing =>
        return Err(ApiError(400, UserIdMissingMessage));
      case Malformed(_) =>
        return Err(ApiError(400, InvalidUserIdMessage));
      case WellFormed(id) =>
        var pipeline := ChannelPipeline(id, sortBy);
        if pipeline.Err? {
          return Err(pipeline.error);
        }
        var stages := pipeline.value;
        var keys := stages[2].keys;
        assert stages == [Match(OwnerIs(id)), Match(PublishedIs(true)), Sort(keys)] by {
          assert stages == stages[..2] + [stages[2]];
        }
        var videos := RunPipeline(stages, db.videos);
        ChannelPipelineResult(db.videos, id, keys);
        SortedBySingleKey(videos, keys[0]);
        r := Ok(videos);
    }
  }

  /** `a` may precede `b` on the dashboard: unpublished before published, then newest first. */
  predicate DashboardOrder(a: Video, b: Video) {
    (!a.isPublished && b.isPublished) || (a.isPublished == b.isPublished && a.createdAt >= b.createdAt)
  }

  /** Two videos in the order of the sort `{isPublished: 1, createdAt: -1}` are in dashboard order. */
  lemma DashboardPair(a: Video, b: Video)
    ensures Compare(a, b, [SortKey(IsPublished, true), SortKey(CreatedAt, false)]) <= 0 ==> DashboardOrder(a, b)
  {
    TwoKeyOrder(a, b, SortKey(IsPublished, true), SortKey(CreatedAt, false));
    SingleKeyOrder(a, b, SortKey(CreatedAt, false));
  }

  /** `getVideosDataByChannel`: all of the channel's videos, unpublished first, newest first within each group. */
  method GetVideosDataByChannel(db: Db, userId: PathId) returns (r: Result<seq<Doc<Video>>>)
    ensures userId.Missing? ==> r == Err(ApiError(400, UserIdMissingMessage))
    ensures userId.Malformed? ==> r == Err(ApiError(400, InvalidUserIdMessage))
    ensures r.Ok? <==> userId.WellFormed?
    ensures r.Ok? ==> forall d :: multiset(r.value)[d] == if d.body.owner == userId.id then multiset(db.videos)[d] else 0
    ensures r.Ok? ==> forall i :: 0 < i < |r.value| ==> DashboardOrder(r.value[i - 1].body, r.value[i].body)
  {
    match userId {
      case Missing =>
        return Err(ApiError(400, UserIdMissingMessage));
      case Malformed(_) =>
        return Err(ApiError(400, InvalidUserIdMessage));
      case WellFormed(id) =>
        var keys := [SortKey(IsPublished, true), SortKey(CreatedAt, false)];
        var videos := SortDocs(MatchDocs(db.videos, OwnerIs(id)), keys);
        forall i | 0 < i < |videos| ensures DashboardOrder(videos[i - 1].body, videos[i].body) {
          DashboardPair(videos[i - 1].body, videos[i].body);
        }
        r := Ok(videos);
    }
  }

  // ---------------------------------------------------------------------------
  // Paginated listings
  // ---------------------------------------------------------------------------

  function OrDefault<T>(value: Option<T>, default: T): T {
    match value
    case None => default
    case Some(v) => v
  }

  /**
   * `getAllVideos`: published videos sorted on `sortBy` (default `createdAt`)
   * in direction `sortType` (default -1), page `page` (default 1) of `limit`
   * (default 100) videos. MongoDB refuses a direction other than 1 or -1.
   */
  method GetAllVideos(db: Db, sortBy: Option<Field>, sortType: Option<int>, page: Option<int>, limit: Option<int>)
    returns (r: Result<Listing<Doc<Video>>>)
    ensures var p, l, t := OrDefault(page, 1), OrDefault(limit, 100), OrDefault(sortType, -1);
      r.Ok? <==> p >= 1 && l >= 1 && (t == 1 || t == -1)
    ensures r.Err? ==> r.error == DatabaseError
    ensures r.Ok? ==> r.value.currentPage == OrDefault(page, 1)
    ensures r.Ok? ==> r.value.totalVideos == |MatchDocs(db.videos, PublishedIs(true))|
    ensures r.Ok? ==> r.value.totalPages == TotalPages(r.value.totalVideos, OrDefault(limit, 100))
    ensures r.Ok? ==> |r.value.videos| <= OrDefault(limit, 100)
    ensures r.Ok? ==> forall d :: d in r.value.videos ==> d in db.videos && d.body.isPublished
    ensures r.Ok? ==> SortedBy(r.value.videos, [SortKey(OrDefault(sortBy, CreatedAt), OrDefault(sortType, -1) == 1)])
    ensures r.Ok? ==> exists sorted ::
      && SortedBy(sorted, [SortKey(OrDefault(sortBy, CreatedAt), OrDefault(sortType, -1) == 1)])
      && multiset(sorted) == multiset(MatchDocs(db.videos, PublishedIs(true)))
      && SkipLimit(sorted, OrDefault(page, 1), OrDefault(limit, 100)) == Ok(r.value.videos)
  {
    var p, l, t := OrDefault(page, 1), OrDefault(limit, 100), OrDefault(sortType, -1);
    if t != 1 && t != -1 {
      return Err(DatabaseError);
    }
    var keys := [SortKey(OrDefault(sortBy, CreatedAt), t == 1)];
    var published := MatchDocs(db.videos, PublishedIs(true));
    var sorted := SortDocs(published, keys);
    var listing := Paginate(sorted, p, l);
    if listing.Err? {
      return Err(listing.error);
    }
    PageOfSorted(sorted, p, l, keys);
    forall d | d in sorted ensures d in db.videos && d.body.isPublished {
      assert multiset(sorted)[d] > 0;
    }
    r := Ok(listing.value);
  }

  /**
   * The paging of `searchVideosAndChannels` over the videos the text search
   * matched: page `page` (default 1) of `limit` (default 10) videos.
   */
  function SearchVideosPage(matches: seq<Doc<Video>>, page: Option<int>, limit: Option<int>): (r: Result<Listing<Doc<Video>>>)
    ensures r.Ok? <==> OrDefault(page, 1) >= 1 && OrDefault(limit, 10) >= 1
    ensures r.Ok? ==> r.value.totalVideos == |matches| && r.value.currentPage == OrDefault(page, 1)
    ensures r.Ok? ==> r.value.totalPages == TotalPages(|matches|, OrDefault(limit, 10))
    ensures r.Ok? ==> |r.value.videos| <= OrDefault(limit, 10)
    ensures r.Ok? ==> forall k :: 0 <= k < |r.value.videos| ==>
      (OrDefault(page, 1) - 1) * OrDefault(limit, 10) + k < |matches| &&
      r.value.videos[k] == matches[(OrDefault(page, 1) - 1) * OrDefault(limit, 10) + k]
  {
    Paginate(matches, OrDefault(page, 1), OrDefault(limit, 10))
  }
}
