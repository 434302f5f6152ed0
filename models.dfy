/**
 * The backend's MongoDB collections as in-memory data. A document is an `_id`
 * plus a body, a collection is the sequence of its documents in natural
 * order, and an `ApiError` is an HTTP status code with a message. Route
 * parameters arrive already classified by mongoose's `isValidObjectId`, which
 * itself stays outside the model.
 */
module Models {
  import opened Wrappers

  /** A MongoDB ObjectId; the model only compares them and prints them. */
  datatype ObjectId = ObjectId(hex: string)

  /** `id.toString()` */
  function IdString(id: ObjectId): string { id.hex }

  /** An id taken from `req.params`: absent (or empty), rejected by `isValidObjectId`, or a well-formed id. */
  datatype PathId = Missing | Malformed(raw: string) | WellFormed(id: ObjectId)

  /** `new ApiError(statusCode, message)` */
  datatype ApiError = ApiError(statusCode: int, message: string)

  /** What a handler answers: the response data, or the error it passes to `next`. */
  datatype Result<+T> = Ok(value: T) | Err(error: ApiError)

  datatype Doc<+T> = Doc(id: ObjectId, body: T)

  datatype User = User(userName: string, fullName: string, watchHistory: seq<ObjectId>)

  datatype Video = Video(
    owner: ObjectId,
    title: string,
    description: string,
    videoFile: string,
    thumbnail: string,
    duration: int,
    views: int,
    isPublished: bool,
    createdAt: int)

  datatype Playlist = Playlist(name: string, description: string, owner: ObjectId, videos: seq<ObjectId>)

  /** One row of the subscriptions collection: `subscriber` follows `channel`. */
  datatype Subscription = Subscription(subscriber: ObjectId, channel: ObjectId)

  predicate NoDup<T(==)>(s: seq<T>) {
    forall i, j :: 0 <= i < j < |s| ==> s[i] != s[j]
  }

  predicate UniqueIds<T>(docs: seq<Doc<T>>) {
    forall i, j :: 0 <= i < j < |docs| ==> docs[i].id != docs[j].id
  }

  /** `Array.prototype.findIndex` with an equality test: the first position of `x`, or -1. */
  function IndexOf<T(==)>(s: seq<T>, x: T): (r: int)
    ensures -1 <= r < |s|
    ensures r == -1 <==> x !in s
    ensures 0 <= r ==> s[r] == x && x !in s[..r]
  {
    if s == [] then -1
    else if s[0] == x then 0
    else
      var k := IndexOf(s[1..], x);
      if k == -1 then -1
      else
        assert s[..k + 1] == [s[0]] + s[1..][..k];
        k + 1
  }

  /** `s.splice(i, 1)` on a copy: the sequence without its element at position `i`. */
  function RemoveAt<T>(s: seq<T>, i: nat): (r: seq<T>)
    requires i < |s|
    ensures |r| == |s| - 1
    ensures forall k :: 0 <= k < |r| ==> r[k] == if k < i then s[k] else s[k + 1]
  {
    s[..i] + s[i + 1..]
  }

  /** `s` without any occurrence of `x`, the rest in order (`$pull` on an array field). */
  function Without(s: seq<ObjectId>, x: ObjectId): seq<ObjectId> {
    if s == [] then []
    else (if s[0] == x then [] else [s[0]]) + Without(s[1..], x)
  }

  lemma {:induction false} WithoutConcat(a: seq<ObjectId>, b: seq<ObjectId>, x: ObjectId)
    ensures Without(a + b, x) == Without(a, x) + Without(b, x)
  {
    if a == [] {
      assert a + b == b;
    } else {
      var head := if a[0] == x then [] else [a[0]];
      assert (a + b)[0] == a[0];
      assert (a + b)[1..] == a[1..] + b;
      WithoutConcat(a[1..], b, x);
      assert Without(a + b, x) == head + (Without(a[1..], x) + Without(b, x));
    }
  }

  lemma WithoutConsSelf(s: seq<ObjectId>, x: ObjectId)
    ensures Without([x] + s, x) == Without(s, x)
  {
    assert ([x] + s)[0] == x;
    assert ([x] + s)[1..] == s;
  }

  /** `$pull` removes every occurrence of `x` and keeps every other element. */
  lemma {:induction false} WithoutMembership(s: seq<ObjectId>, x: ObjectId)
    ensures x !in Without(s, x)
    ensures forall y :: y != x ==> (y in Without(s, x) <==> y in s)
    ensures |Without(s, x)| <= |s|
  {
    if s != [] {
      WithoutMembership(s[1..], x);
      assert s == [s[0]] + s[1..];
    }
  }

  lemma {:induction false} WithoutAbsent(s: seq<ObjectId>, x: ObjectId)
    requires x !in s
    ensures Without(s, x) == s
  {
    if s != [] {
      assert s == [s[0]] + s[1..];
      WithoutAbsent(s[1..], x);
    }
  }

  /** `findById`: the position of the document whose `_id` is `id`, if any. */
  function Find<T>(docs: seq<Doc<T>>, id: ObjectId): (r: Option<nat>)
    ensures r.Some? ==> r.value < |docs| && docs[r.value].id == id
    ensures r.Some? ==> forall k :: 0 <= k < r.value ==> docs[k].id != id
    ensures r.None? <==> forall k :: 0 <= k < |docs| ==> docs[k].id != id
  {
    if docs == [] then None
    else if docs[0].id == id then Some(0)
    else
      match Find(docs[1..], id)
      case None => None
      case Some(k) => Some(k + 1)
  }

  /** The body of the document with that `_id`, if any. */
  function Lookup<T>(docs: seq<Doc<T>>, id: ObjectId): Option<T> {
    match Find(docs, id)
    case None => None
    case Some(k) => Some(docs[k].body)
  }

  /** In a collection with unique ids, `findById` finds each document at its own position. */
  lemma FindUnique<T>(docs: seq<Doc<T>>, k: nat)
    requires UniqueIds(docs) && k < |docs|
    ensures Find(docs, docs[k].id) == Some(k)
  {
  }

  /** Replacing a document's body keeps every `_id` where it was. */
  lemma FindAfterReplace<T>(docs: seq<Doc<T>>, i: nat, body: T, id: ObjectId)
    requires i < |docs|
    ensures Find(docs[i := Doc(docs[i].id, body)], id) == Find(docs, id)
  {
    var replaced := docs[i := Doc(docs[i].id, body)];
    assert forall k :: 0 <= k < |docs| ==> replaced[k].id == docs[k].id;
    match Find(docs, id)
    case None =>
    case Some(k) =>
      var k' := Find(replaced, id);
      assert k'.Some? && k'.value == k by {
        assert replaced[k].id == id;
      }
  }

  /** Deleting a document keeps the other ids unique and leaves its own id unfindable. */
  lemma RemoveDoc<T>(docs: seq<Doc<T>>, i: nat)
    requires UniqueIds(docs) && i < |docs|
    ensures UniqueIds(RemoveAt(docs, i))
    ensures Find(RemoveAt(docs, i), docs[i].id).None?
  {
    var r := RemoveAt(docs, i);
    forall a, b | 0 <= a < b < |r| ensures r[a].id != r[b].id {
      var a', b' := if a < i then a else a + 1, if b < i then b else b + 1;
      assert r[a] == docs[a'] && r[b] == docs[b'];
    }
    forall k | 0 <= k < |r| ensures r[k].id != docs[i].id {
      var k' := if k < i then k else k + 1;
      assert r[k] == docs[k'];
    }
  }

  /** The four collections the controllers read and write. */
  class Db {
    var users: seq<Doc<User>>
    var videos: seq<Doc<Video>>
    var playlists: seq<Doc<Playlist>>
    var subscriptions: seq<Subscription>

    /** `_id` is unique within each collection. */
    ghost predicate Valid()
      reads this
    {
      UniqueIds(users) && UniqueIds(videos) && UniqueIds(playlists)
    }

    constructor (users: seq<Doc<User>>, videos: seq<Doc<Video>>, playlists: seq<Doc<Playlist>>, subscriptions: seq<Subscription>)
      requires UniqueIds(users) && UniqueIds(videos) && UniqueIds(playlists)
      ensures Valid()
      ensures this.users == users && this.videos == videos
      ensures this.playlists == playlists && this.subscriptions == subscriptions
    {
      this.users := users;
      this.videos := videos;
      this.playlists := playlists;
      this.subscriptions := subscriptions;
    }
  }
}
