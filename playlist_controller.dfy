/**
 * The playlist controller: ownership checks, creating, extending, shrinking,
 * renaming and deleting a playlist, and the listing of a user's playlists.
 */
module PlaylistController {
  import opened Wrappers
  import opened Models

  // Messages of the errors and answers
  const NotPublishedMessage := "Please publish the video first and then add to this playlist"
  const NotInPlaylistMessage := "This video is not part of this playlist"
  const AlreadyInPlaylistMessage := "Video is already part of this playlist"
  const NoUpdateFieldMessage := "Please provide at least one field to update"
  const NameAndDescriptionRequiredMessage := "name and description are required fields"
  const NotOwnUserMessage := "unauthorized access, you don't own this user"
  const RouteIdsMissingMessage := "video id or playlist id is not provided"
  const InvalidRouteIdsMessage := "Invalid video id or playlist id"
  const PlaylistMissingMessage := "Playlist does not exist in DB"
  const PlaylistAbsentMessage := "Playlist doesn't exist in DB"
  const VideoAbsentMessage := "Video doesn't exist in DB"
  const PlaylistIdMissingMessage := "Playlist Id is missing"
  const InvalidPlaylistIdMessage := "Invalid playlist Id"
  const UnauthorizedMessage := "unauthorized access"

  /** `authorizedOwner`: the two ids print the same. */
  function AuthorizedOwner(userId: ObjectId, requester: ObjectId): (r: bool)
    ensures r <==> userId == requester
  {
    IdString(userId) == IdString(requester)
  }

  /** A body field is truthy: present and not the empty string. */
  predicate Given(field: Option<string>) {
    field.Some? && field.value != ""
  }

  // ---------------------------------------------------------------------------
  // Create
  // ---------------------------------------------------------------------------

  /** `createPlaylist`: both fields are required; the new playlist is the requester's and empty. */
  method CreatePlaylist(db: Db, requester: ObjectId, newId: ObjectId, name: Option<string>, description: Option<string>)
    returns (r: Result<Doc<Playlist>>)
    requires db.Valid() && Find(db.playlists, newId).None?
    modifies db
    ensures db.Valid()
    ensures db.users == old(db.users) && db.videos == old(db.videos) && db.subscriptions == old(db.subscriptions)
    ensures r.Ok? <==> Given(name) && Given(description)
    ensures r.Err? ==> r.error == ApiError(400, NameAndDescriptionRequiredMessage) && db.playlists == old(db.playlists)
    ensures r.Ok? ==> r.value == Doc(newId, Playlist(name.value, description.value, requester, []))
    ensures r.Ok? ==> db.playlists == old(db.playlists) + [r.value]
  {
    if !Given(name) || !Given(description) {
      return Err(ApiError(400, NameAndDescriptionRequiredMessage));
    }
    var created := Doc(newId, Playlist(name.value, description.value, requester, []));
    db.playlists := db.playlists + [created];
    r := Ok(created);
  }

  // ---------------------------------------------------------------------------
  // Adding and removing a video
  // ---------------------------------------------------------------------------

  /** The two route ids of the video routes: both must be present, then both well-formed. */
  function RouteIds(videoId: PathId, playlistId: PathId): (r: Result<(ObjectId, ObjectId)>)
    ensures r.Ok? <==> videoId.WellFormed? && playlistId.WellFormed?
    ensures r.Ok? ==> r.value == (videoId.id, playlistId.id)
    ensures videoId.Missing? || playlistId.Missing? ==> r == Err(ApiError(400, RouteIdsMissingMessage))
    ensures !videoId.Missing? && !playlistId.Missing? && r.Err? ==> r == Err(ApiError(400, InvalidRouteIdsMessage))
  {
    if videoId.Missing? || playlistId.Missing? then Err(ApiError(400, RouteIdsMissingMessage))
    else if videoId.Malformed? || playlistId.Malformed? then Err(ApiError(400, InvalidRouteIdsMessage))
    else Ok((videoId.id, playlistId.id))
  }

  /**
   * What `addVideoToPlaylist` decides before writing: the position of the
   * playlist to push onto, or the first check that fails. The checks run in
   * this order: route ids, playlist exists, ownership, not already listed,
   * video exists, video published.
   */
  function AddVideoCheck(playlists: seq<Doc<Playlist>>, videos: seq<Doc<Video>>, requester: ObjectId,
                         videoId: PathId, playlistId: PathId): (r: Result<nat>)
    ensures r.Ok? <==>
      && videoId.WellFormed? && playlistId.WellFormed?
      && Lookup(playlists, playlistId.id).Some?
      && Lookup(playlists, playlistId.id).value.owner == requester
      && videoId.id !in Lookup(playlists, playlistId.id).value.videos
      && Lookup(videos, videoId.id).Some?
      && Lookup(videos, videoId.id).value.isPublished
    ensures r.Ok? ==> Find(playlists, playlistId.id) == Some(r.value)
    ensures RouteIds(videoId, playlistId).Err? ==> r == Err(RouteIds(videoId, playlistId).error)
    ensures RouteIds(videoId, playlistId).Ok? ==>
      var pl := Lookup(playlists, playlistId.id);
      var v := Lookup(videos, videoId.id);
      && (pl.None? ==> r == Err(ApiError(400, PlaylistMissingMessage)))
      && (pl.Some? && pl.value.owner != requester ==> r == Err(ApiError(401, UnauthorizedMessage)))
      && (pl.Some? && pl.value.owner == requester && videoId.id in pl.value.videos ==>
            r == Err(ApiError(400, AlreadyInPlaylistMessage)))
      && (pl.Some? && pl.value.owner == requester && videoId.id !in pl.value.videos && v.None? ==>
            r == Err(ApiError(400, VideoAbsentMessage)))
      && (pl.Some? && pl.value.owner == requester && videoId.id !in pl.value.videos && v.Some? && !v.value.isPublished ==>
            r == Err(ApiError(400, NotPublishedMessage)))
  {
    match RouteIds(videoId, playlistId)
    case Err(e) => Err(e)
    case Ok((vid, pid)) =>
      match Find(playlists, pid)
      case None => Err(ApiError(400, PlaylistMissingMessage))
      case Some(i) =>
        var playlist := playlists[i].body;
        if !AuthorizedOwner(playlist.owner, requester) then Err(ApiError(401, UnauthorizedMessage))
        else if vid in playlist.videos then Err(ApiError(400, AlreadyInPlaylistMessage))
        else match Lookup(videos, vid)
          case None => Err(ApiError(400, VideoAbsentMessage))
          case Some(video) =>
            if !video.isPublished then Err(ApiError(400, NotPublishedMessage))
            else Ok(i)
  }

  /** `addVideoToPlaylist`: pushes the video onto the requester's playlist. */
  method AddVideoToPlaylist(db: Db, requester: ObjectId, videoId: PathId, playlistId: PathId)
    returns (r: Result<Doc<Playlist>>)
    requires db.Valid()
    modifies db
    ensures db.Valid()
    ensures db.users == old(db.users) && db.videos == old(db.videos) && db.subscriptions == old(db.subscriptions)
    ensures var check := AddVideoCheck(old(db.playlists), old(db.videos), requester, videoId, playlistId);
      && (check.Err? ==> r == Err(check.error) && db.playlists == old(db.playlists))
      && (check.Ok? ==>
            var i := check.value;
            var before := old(db.playlists)[i];
            && r == Ok(Doc(before.id, before.body.(videos := before.body.videos + [videoId.id])))
            && db.playlists == old(db.playlists)[i := r.value])
  {
    if videoId.Missing? || playlistId.Missing? {
      return Err(ApiError(400, RouteIdsMissingMessage));
    }
    if videoId.Malformed? || playlistId.Malformed? {
      return Err(ApiError(400, InvalidRouteIdsMessage));
    }
    var found := Find(db.playlists, playlistId.id);
    if found.None? {
      return Err(ApiError(400, PlaylistMissingMessage));
    }
    var i := found.value;
    var playlist := db.playlists[i];
    if !AuthorizedOwner(playlist.body.owner, requester) {
      return Err(ApiError(401, UnauthorizedMessage));
    }
    if videoId.id in playlist.body.videos {
      return Err(ApiError(400, AlreadyInPlaylistMessage));
    }
    var video := Lookup(db.videos, videoId.id);
    if video.None? {
      return Err(ApiError(400, VideoAbsentMessage));
    }
    if !video.value.isPublished {
      return Err(ApiError(400, NotPublishedMessage));
    }
    var updated := Doc(playlist.id, playlist.body.(videos := playlist.body.videos + [videoId.id]));
    FindAfterReplace(db.playlists, i, updated.body, playlistId.id);
    SameIdsKeepUnique(db.playlists, i, updated.body);
    db.playlists := db.playlists[i := updated];
    r := Ok(updated);
  }

  /** Replacing a document's body keeps the collection's ids unique. */
  lemma SameIdsKeepUnique<T>(docs: seq<Doc<T>>, i: nat, body: T)
    requires UniqueIds(docs) && i < |docs|
    ensures UniqueIds(docs[i := Doc(docs[i].id, body)])
  {
    var replaced := docs[i := Doc(docs[i].id, body)];
    assert forall k :: 0 <= k < |docs| ==> replaced[k].id == docs[k].id;
  }

  /** Because the push is guarded by the "already part" check, a playlist never lists a video twice. */
  lemma AddKeepsNoDup(videos: seq<ObjectId>, videoId: ObjectId)
    requires NoDup(videos) && videoId !in videos
    ensures NoDup(videos + [videoId])
  {
    var s := videos + [videoId];
    forall i, j | 0 <= i < j < |s| ensures s[i] != s[j] {
      if j == |videos| {
        assert s[i] in videos;
      }
    }
  }

  /** Removing what was just added restores the playlist's video list. */
  lemma AddThenRemoveRestores(videos: seq<ObjectId>, videoId: ObjectId)
    requires videoId !in videos
    ensures Without(videos + [videoId], videoId) == videos
  {
    WithoutConcat(videos, [videoId], videoId);
    WithoutAbsent(videos, videoId);
    WithoutConsSelf([], videoId);
    assert [videoId] + [] == [videoId];
  }

  /**
   * What `removeVideoFromPlaylist` decides before writing: the checks of
   * adding up to ownership, then the video must be listed. Whether the
   * video itself still exists is not asked.
   */
  function RemoveVideoCheck(playlists: seq<Doc<Playlist>>, requester: ObjectId, videoId: PathId, playlistId: PathId)
    : (r: Result<nat>)
    ensures r.Ok? <==>
      && videoId.WellFormed? && playlistId.WellFormed?
      && Lookup(playlists, playlistId.id).Some?
      && Lookup(playlists, playlistId.id).value.owner == requester
      && videoId.id in Lookup(playlists, playlistId.id).value.videos
    ensures r.Ok? ==> Find(playlists, playlistId.id) == Some(r.value)
    ensures RouteIds(videoId, playlistId).Err? ==> r == Err(RouteIds(videoId, playlistId).error)
    ensures RouteIds(videoId, playlistId).Ok? ==>
      var pl := Lookup(playlists, playlistId.id);
      && (pl.None? ==> r == Err(ApiError(400, PlaylistMissingMessage)))
      && (pl.Some? && pl.value.owner != requester ==> r == Err(ApiError(401, UnauthorizedMessage)))
      && (pl.Some? && pl.value.owner == requester && videoId.id !in pl.value.videos ==>
            r == Err(ApiError(400, NotInPlaylistMessage)))
  {
    match RouteIds(videoId, playlistId)
    case Err(e) => Err(e)
    case Ok((vid, pid)) =>
      match Find(playlists, pid)
      case None => Err(ApiError(400, PlaylistMissingMessage))
      case Some(i) =>
        var playlist := playlists[i].body;
        if !AuthorizedOwner(playlist.owner, requester) then Err(ApiError(401, UnauthorizedMessage))
        else if vid !in playlist.videos then Err(ApiError(400, NotInPlaylistMessage))
        else Ok(i)
  }

  /** `removeVideoFromPlaylist`: `$pull`s every occurrence of the video from the requester's playlist. */
  method RemoveVideoFromPlaylist(db: Db, requester: ObjectId, videoId: PathId, playlistId: PathId)
    returns (r: Result<Doc<Playlist>>)
    requires db.Valid()
    modifies db
    ensures db.Valid()
    ensures db.users == old(db.users) && db.videos == old(db.videos) && db.subscriptions == old(db.subscriptions)
    ensures var check := RemoveVideoCheck(old(db.playlists), requester, videoId, playlistId);
      && (check.Err? ==> r == Err(check.error) && db.playlists == old(db.playlists))
      && (check.Ok? ==>
            var i := check.value;
            var before := old(db.playlists)[i];
            && r == Ok(Doc(before.id, before.body.(videos := Without(before.body.videos, videoId.id))))
            && db.playlists == old(db.playlists)[i := r.value])
    ensures r.Ok? ==> videoId.id !in r.value.body.videos
  {
    if videoId.Missing? || playlistId.Missing? {
      return Err(ApiError(400, RouteIdsMissingMessage));
    }
    if videoId.Malformed? || playlistId.Malformed? {
      return Err(ApiError(400, InvalidRouteIdsMessage));
    }
    var found := Find(db.playlists, playlistId.id);
    if found.None? {
      return Err(ApiError(400, PlaylistMissingMessage));
    }
    var i := found.value;
    var playlist := db.playlists[i];
    if !AuthorizedOwner(playlist.body.owner, requester) {
      return Err(ApiError(401, UnauthorizedMessage));
    }
    var isVideoPresent := videoId.id in playlist.body.videos;
    if !isVideoPresent {
      return Err(ApiError(400, NotInPlaylistMessage));
    }
    var updated := Doc(playlist.id, playlist.body.(videos := Without(playlist.body.videos, videoId.id)));
    WithoutMembership(playlist.body.videos, videoId.id);
    SameIdsKeepUnique(db.playlists, i, updated.body);
    db.playlists := db.playlists[i := updated];
    r := Ok(updated);
  }

  // ---------------------------------------------------------------------------
  // Update and delete
  // ---------------------------------------------------------------------------

  /**
   * The checks `updatePlaylist` and `deletePlaylist` share: the route id is
   * present and well-formed, the playlist exists and the requester owns it.
   */
  function OwnedPlaylistCheck(playlists: seq<Doc<Playlist>>, requester: ObjectId, playlistId: PathId): (r: Result<nat>)
    ensures r.Ok? <==> playlistId.WellFormed? && Lookup(playlists, playlistId.id).Some?
                       && Lookup(playlists, playlistId.id).value.owner == requester
    ensures r.Ok? ==> Find(playlists, playlistId.id) == Some(r.value)
    ensures playlistId.Missing? ==> r == Err(ApiError(400, PlaylistIdMissingMessage))
    ensures playlistId.Malformed? ==> r == Err(ApiError(400, InvalidPlaylistIdMessage))
    ensures playlistId.WellFormed? && Lookup(playlists, playlistId.id).None? ==>
      r == Err(ApiError(400, PlaylistAbsentMessage))
    ensures playlistId.WellFormed? && Lookup(playlists, playlistId.id).Some? &&
            Lookup(playlists, playlistId.id).value.owner != requester ==>
      r == Err(ApiError(401, UnauthorizedMessage))
  {
    match playlistId
    case Missing => Err(ApiError(400, PlaylistIdMissingMessage))
    case Malformed(_) => Err(ApiError(400, InvalidPlaylistIdMessage))
    case WellFormed(pid) =>
      match Find(playlists, pid)
      case None => Err(ApiError(400, PlaylistAbsentMessage))
      case Some(i) =>
        if !AuthorizedOwner(playlists[i].body.owner, requester) then Err(ApiError(401, UnauthorizedMessage))
        else Ok(i)
  }

  /**
   * The update document `{name, description}`: a field the body left out is
   * stripped from the update and keeps its stored value.
   */
  function Renamed(playlist: Playlist, name: Option<string>, description: Option<string>): (r: Playlist)
    ensures r.owner == playlist.owner && r.videos == playlist.videos
    ensures r.name == (if name.Some? then name.value else playlist.name)
    ensures r.description == (if description.Some? then description.value else playlist.description)
  {
    var named := if name.Some? then playlist.(name := name.value) else playlist;
    if description.Some? then named.(description := description.value) else named
  }

  /** Sending the same update twice has the effect of sending it once. */
  lemma RenameIdempotent(playlist: Playlist, name: Option<string>, description: Option<string>)
    ensures Renamed(Renamed(playlist, name, description), name, description) == Renamed(playlist, name, description)
  {
  }

  /** `updatePlaylist`: the owner renames or re-describes a playlist; at least one field must be truthy. */
  method UpdatePlaylist(db: Db, requester: ObjectId, playlistId: PathId, name: Option<string>, description: Option<string>)
    returns (r: Result<Doc<Playlist>>)
    requires db.Valid()
    modifies db
    ensures db.Valid()
    ensures db.users == old(db.users) && db.videos == old(db.videos) && db.subscriptions == old(db.subscriptions)
    ensures var check := OwnedPlaylistCheck(old(db.playlists), requester, playlistId);
      && (check.Err? ==> r == Err(check.error))
      && (check.Ok? && !(Given(name) || Given(description)) ==>
            r == Err(ApiError(400, NoUpdateFieldMessage)))
      && (check.Ok? && (Given(name) || Given(description)) ==>
            var i := check.value;
            var before := old(db.playlists)[i];
            && r == Ok(Doc(before.id, Renamed(before.body, name, description)))
            && db.playlists == old(db.playlists)[i := r.value])
    ensures r.Err? ==> db.playlists == old(db.playlists)
  {
    match playlistId {
      case Missing =>
        return Err(ApiError(400, PlaylistIdMissingMessage));
      case Malformed(_) =>
        return Err(ApiError(400, InvalidPlaylistIdMessage));
      case WellFormed(pid) =>
        var found := Find(db.playlists, pid);
        if found.None? {
          return Err(ApiError(400, PlaylistAbsentMessage));
        }
        var i := found.value;
        var playlist := db.playlists[i];
        if !AuthorizedOwner(playlist.body.owner, requester) {
          return Err(ApiError(401, UnauthorizedMessage));
        }
        if !(Given(name) || Given(description)) {
          return Err(ApiError(400, NoUpdateFieldMessage));
        }
        var updated := Doc(playlist.id, Renamed(playlist.body, name, description));
        SameIdsKeepUnique(db.playlists, i, updated.body);
        db.playlists := db.playlists[i := updated];
        r := Ok(updated);
    }
  }

  /** `deletePlaylist`: the owner deletes the playlist; afterwards its id finds nothing. */
  method DeletePlaylist(db: Db, requester: ObjectId, playlistId: PathId) returns (r: Result<()>)
    requires db.Valid()
    modifies db
    ensures db.Valid()
    ensures db.users == old(db.users) && db.videos == old(db.videos) && db.subscriptions == old(db.subscriptions)
    ensures var check := OwnedPlaylistCheck(old(db.playlists), requester, playlistId);
      && (check.Err? ==> r == Err(check.error) && db.playlists == old(db.playlists))
      && (check.Ok? ==> r == Ok(()) && db.playlists == RemoveAt(old(db.playlists), check.value))
    ensures r.Ok? ==> Find(db.playlists, playlistId.id).None?
  {
    match playlistId {
      case Missing =>
        return Err(ApiError(400, PlaylistIdMissingMessage));
      case Malformed(_) =>
        return Err(ApiError(400, InvalidPlaylistIdMessage));
      case WellFormed(pid) =>
        var found := Find(db.playlists, pid);
        if found.None? {
          return Err(ApiError(400, PlaylistAbsentMessage));
        }
        var i := found.value;
        if !AuthorizedOwner(db.playlists[i].body.owner, requester) {
          return Err(ApiError(401, UnauthorizedMessage));
        }
        RemoveDoc(db.playlists, i);
        db.playlists := RemoveAt(db.playlists, i);
        r := Ok(());
    }
  }

  // ---------------------------------------------------------------------------
  // Listing a user's playlists
  // ---------------------------------------------------------------------------

  /** A playlist as the listing returns it, with its video ids replaced by the videos. */
  datatype PlaylistView = PlaylistView(id: ObjectId, name: string, description: string, videos: seq<Doc<Video>>)

  /** `$unwind` of the ids, `$lookup` of each, `$unwind` of the match: the listed videos that still exist, in list order. */
  function Resolve(ids: seq<ObjectId>, videos: seq<Doc<Video>>): seq<Doc<Video>> {
    if ids == [] then []
    else
      var rest := Resolve(ids[1..], videos);
      match Find(videos, ids[0])
      case None => rest
      case Some(k) => [videos[k]] + rest
  }

  /** At most one video per listed id, and only existing videos whose id is listed. */
  lemma {:induction false} ResolveSound(ids: seq<ObjectId>, videos: seq<Doc<Video>>)
    ensures |Resolve(ids, videos)| <= |ids|
    ensures forall d :: d in Resolve(ids, videos) ==> d in videos && d.id in ids
  {
    if ids != [] {
      ResolveSound(ids[1..], videos);
      assert forall id :: id in ids[1..] ==> id in ids;
    }
  }

  /** Every listed id that some video has brings that video into the result. */
  lemma {:induction false} ResolveComplete(ids: seq<ObjectId>, videos: seq<Doc<Video>>)
    ensures forall id :: id in ids && Find(videos, id).Some? ==> videos[Find(videos, id).value] in Resolve(ids, videos)
  {
    if ids != [] {
      ResolveComplete(ids[1..], videos);
      assert forall id :: id in ids ==> id == ids[0] || id in ids[1..];
    }
  }

  /** The video an id resolves to: none when no video has it. */
  function Looked(id: ObjectId, videos: seq<Doc<Video>>): seq<Doc<Video>> {
    match Find(videos, id)
    case None => []
    case Some(k) => [videos[k]]
  }

  lemma ResolveCons(ids: seq<ObjectId>, videos: seq<Doc<Video>>)
    requires ids != []
    ensures Resolve(ids, videos) == Looked(ids[0], videos) + Resolve(ids[1..], videos)
  {
  }

  /** Resolving a concatenation resolves each part in turn: the videos come in list order. */
  lemma {:induction false} ResolveConcat(a: seq<ObjectId>, b: seq<ObjectId>, videos: seq<Doc<Video>>)
    ensures Resolve(a + b, videos) == Resolve(a, videos) + Resolve(b, videos)
  {
    if a == [] {
      assert a + b == b;
    } else {
      calc {
        Resolve(a + b, videos);
      == { ResolveCons(a + b, videos); assert (a + b)[0] == a[0] && (a + b)[1..] == a[1..] + b; }
        Looked(a[0], videos) + Resolve(a[1..] + b, videos);
      == { ResolveConcat(a[1..], b, videos); }
        Looked(a[0], videos) + (Resolve(a[1..], videos) + Resolve(b, videos));
      == { ResolveCons(a, videos); }
        Resolve(a, videos) + Resolve(b, videos);
      }
    }
  }

  /** With unique video ids, each existing video appears once per listing of its id. */
  lemma {:induction false} ResolveCount(ids: seq<ObjectId>, videos: seq<Doc<Video>>)
    requires UniqueIds(videos)
    ensures forall d :: d in videos ==> multiset(Resolve(ids, videos))[d] == multiset(ids)[d.id]
  {
    if ids != [] {
      ResolveCount(ids[1..], videos);
      assert ids == [ids[0]] + ids[1..];
      var rest := Resolve(ids[1..], videos);
      forall d | d in videos ensures multiset(Resolve(ids, videos))[d] == multiset(ids)[d.id] {
        assert multiset(ids)[d.id] == multiset([ids[0]])[d.id] + multiset(ids[1..])[d.id];
        match Find(videos, ids[0])
        case None =>
          assert Resolve(ids, videos) == rest;
          assert d.id != ids[0];
        case Some(k) =>
          assert Resolve(ids, videos) == [videos[k]] + rest;
          assert multiset(Resolve(ids, videos))[d] == multiset([videos[k]])[d] + multiset(rest)[d];
          assert videos[k] == d <==> ids[0] == d.id by {
            var j :| 0 <= j < |videos| && videos[j] == d;
            assert videos[k].id == ids[0];
          }
      }
    }
  }

  function ViewOf(playlist: Doc<Playlist>, videos: seq<Doc<Video>>): PlaylistView {
    PlaylistView(playlist.id, playlist.body.name, playlist.body.description, Resolve(playlist.body.videos, videos))
  }

  /**
   * The playlists of `owner`, each with its resolved videos; a playlist none
   * of whose videos exists drops out at the first `$unwind`.
   */
  function UserPlaylists(playlists: seq<Doc<Playlist>>, videos: seq<Doc<Video>>, owner: ObjectId): (r: seq<PlaylistView>)
    ensures forall v :: v in r ==> v.videos != [] && exists p :: p in playlists && p.body.owner == owner && v == ViewOf(p, videos)
    ensures forall p :: p in playlists && p.body.owner == owner && ViewOf(p, videos).videos != [] ==> ViewOf(p, videos) in r
  {
    if playlists == [] then []
    else
      var rest := UserPlaylists(playlists[1..], videos, owner);
      assert forall p :: p in playlists[1..] ==> p in playlists;
      var view := ViewOf(playlists[0], videos);
      if playlists[0].body.owner == owner && view.videos != [] then [view] + rest else rest
  }

  /** `$group` by `_id`: with unique playlist ids, no playlist is listed twice. */
  lemma {:induction false} UserPlaylistsDistinct(playlists: seq<Doc<Playlist>>, videos: seq<Doc<Video>>, owner: ObjectId)
    requires UniqueIds(playlists)
    ensures forall i, j | 0 <= i < j < |UserPlaylists(playlists, videos, owner)| ::
      UserPlaylists(playlists, videos, owner)[i].id != UserPlaylists(playlists, videos, owner)[j].id
  {
    if playlists != [] {
      var tail := playlists[1..];
      assert UniqueIds(tail) by {
        forall i, j | 0 <= i < j < |tail| ensures tail[i].id != tail[j].id {
          assert tail[i] == playlists[i + 1] && tail[j] == playlists[j + 1];
        }
      }
      UserPlaylistsDistinct(tail, videos, owner);
      var rest := UserPlaylists(tail, videos, owner);
      var view := ViewOf(playlists[0], videos);
      if playlists[0].body.owner == owner && view.videos != [] {
        forall k | 0 <= k < |rest| ensures rest[k].id != view.id {
          assert rest[k] in rest;
          var p :| p in tail && p.body.owner == owner && rest[k] == ViewOf(p, videos);
          var m :| 0 <= m < |tail| && tail[m] == p;
          assert p == playlists[m + 1];
        }
        var r := [view] + rest;
        forall i, j | 0 <= i < j < |r| ensures r[i].id != r[j].id {
          if i == 0 {
            assert r[0] == view && r[j] == rest[j - 1];
          } else {
            assert r[i] == rest[i - 1] && r[j] == rest[j - 1];
          }
        }
      }
    }
  }

  /** `getUserPlaylists`: only the user themself may list their playlists. */
  method GetUserPlaylists(db: Db, requester: ObjectId, userId: PathId) returns (r: Result<seq<PlaylistView>>)
    ensures userId.Missing? ==> r == Err(ApiError(400, "user Id is missing"))
    ensures userId.Malformed? ==> r == Err(ApiError(400, "Invalid user Id"))
    ensures userId.WellFormed? && userId.id != requester ==>
      r == Err(ApiError(401, NotOwnUserMessage))
    ensures r.Ok? <==> userId.WellFormed? && userId.id == requester
    ensures r.Ok? ==> forall v :: v in r.value ==>
      v.videos != [] && exists p :: p in db.playlists && p.body.owner == requester && v == ViewOf(p, db.videos)
    ensures r.Ok? ==> forall p :: p in db.playlists && p.body.owner == requester && ViewOf(p, db.videos).videos != [] ==>
      ViewOf(p, db.videos) in r.value
    ensures r.Ok? && UniqueIds(db.playlists) ==> forall i, j | 0 <= i < j < |r.value| :: r.value[i].id != r.value[j].id
  {
    match userId {
      case Missing =>
        return Err(ApiError(400, "user Id is missing"));
      case Malformed(_) =>
        return Err(ApiError(400, "Invalid user Id"));
      case WellFormed(id) =>
        if !AuthorizedOwner(id, requester) {
          return Err(ApiError(401, NotOwnUserMessage));
        }
        var listing := UserPlaylists(db.playlists, db.videos, id);
        if UniqueIds(db.playlists) {
          UserPlaylistsDistinct(db.playlists, db.videos, id);
          assert forall i, j | 0 <= i < j < |listing| :: listing[i].id != listing[j].id;
        }
        r := Ok(listing);
    }
  }
}
