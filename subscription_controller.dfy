/**
 * The subscription controller: toggling a subscription, the subscriber and
 * subscription listings with their totals, and the newest video of every
 * subscribed channel.
 */
module SubscriptionController {
  import opened Wrappers
  import opened Models
  import opened Aggregation

  // Messages of the errors and answers
  const SubscriptionAddedMessage := "Subscription added successfully"
  const SubscriptionRemovedMessage := "Subscription removed successfully"
  const SubscriberAbsentMessage := "Subscriber doesn't exist in DB"
  const SubscriberIdMissingMessage := "Subscriber Id is missing"
  const InvalidSubscriberIdMessage := "Invlaid  Subscriber ID"
  const ChannelIdMissingMessage := "channeId is missing"

  // ---------------------------------------------------------------------------
  // Toggling
  // ---------------------------------------------------------------------------

  lemma MultisetRemoveAt<T>(s: seq<T>, i: nat)
    requires i < |s|
    ensures multiset(RemoveAt(s, i)) == multiset(s) - multiset{s[i]}
  {
    assert s == s[..i] + [s[i]] + s[i + 1..];
  }

  /**
   * The rows after a toggle of `pair`: the first matching row deleted when
   * there is one (`findOne` then `findByIdAndDelete`), else the pair appended.
   */
  function Toggled(subs: seq<Subscription>, pair: Subscription): (r: seq<Subscription>)
    ensures pair in subs ==> multiset(r) == multiset(subs) - multiset{pair}
    ensures pair !in subs ==> r == subs + [pair]
  {
    var i := IndexOf(subs, pair);
    if i > -1 then
      MultisetRemoveAt(subs, i);
      RemoveAt(subs, i)
    else
      subs + [pair]
  }

  /** Rows other than the toggled pair are untouched. */
  lemma ToggleKeepsOtherRows(subs: seq<Subscription>, pair: Subscription, other: Subscription)
    requires other != pair
    ensures multiset(Toggled(subs, pair))[other] == multiset(subs)[other]
  {
  }

  /** Without duplicate rows, a toggle flips whether the pair is subscribed and keeps the rows duplicate-free. */
  lemma ToggleFlips(subs: seq<Subscription>, pair: Subscription)
    requires NoDup(subs)
    ensures pair in Toggled(subs, pair) <==> pair !in subs
    ensures NoDup(Toggled(subs, pair))
  {
    var r := Toggled(subs, pair);
    if pair in subs {
      var i := IndexOf(subs, pair);
      assert forall k :: 0 <= k < |r| ==> r[k] == subs[if k < i then k else k + 1];
      assert pair !in r;
    } else {
      forall i, j | 0 <= i < j < |r| ensures r[i] != r[j] {
        if j == |subs| {
          assert r[i] in subs;
        }
      }
    }
  }

  /** Toggling twice restores the rows: exactly when the pair was absent, and up to order when it was present. */
  lemma ToggleTwiceRestores(subs: seq<Subscription>, pair: Subscription)
    requires NoDup(subs)
    ensures multiset(Toggled(Toggled(subs, pair), pair)) == multiset(subs)
    ensures pair !in subs ==> Toggled(Toggled(subs, pair), pair) == subs
  {
    ToggleFlips(subs, pair);
    var once := Toggled(subs, pair);
    if pair !in subs {
      assert IndexOf(once, pair) == |subs|;
      assert RemoveAt(once, |subs|) == subs;
    } else {
      assert multiset(subs) == multiset(once) + multiset{pair};
    }
  }

  /** The guards of `toogleSubscription`: the channel id must be given, well formed, and a user's. */
  function ChannelCheck(users: seq<Doc<User>>, channelId: PathId): (r: Result<ObjectId>)
    ensures channelId.Missing? ==> r == Err(ApiError(400, ChannelIdMissingMessage))
    ensures channelId.Malformed? ==> r == Err(ApiError(400, channelId.raw + " is not a valid channel id"))
    ensures channelId.WellFormed? && Find(users, channelId.id).None? ==>
      r == Err(ApiError(400, "channel Id " + IdString(channelId.id) + " is not available in DB"))
    ensures r.Ok? <==> channelId.WellFormed? && Find(users, channelId.id).Some?
    ensures r.Ok? ==> r.value == channelId.id
  {
    match channelId
    case Missing => Err(ApiError(400, ChannelIdMissingMessage))
    case Malformed(raw) => Err(ApiError(400, raw + " is not a valid channel id"))
    case WellFormed(id) =>
      if Find(users, id).None? then Err(ApiError(400, "channel Id " + IdString(id) + " is not available in DB"))
      else Ok(id)
  }

  /** `toogleSubscription`: the requester follows or unfollows an existing channel. */
  method ToggleSubscription(db: Db, requester: ObjectId, channelId: PathId) returns (r: Result<string>)
    requires db.Valid()
    modifies db
    ensures db.Valid()
    ensures db.users == old(db.users) && db.videos == old(db.videos) && db.playlists == old(db.playlists)
    ensures ChannelCheck(db.users, channelId).Err? ==>
      r == Err(ChannelCheck(db.users, channelId).error) && db.subscriptions == old(db.subscriptions)
    ensures r.Ok? <==> ChannelCheck(db.users, channelId).Ok?
    ensures r.Ok? ==>
      var pair := Subscription(requester, channelId.id);
      && db.subscriptions == Toggled(old(db.subscriptions), pair)
      && r.value == if pair in old(db.subscriptions) then SubscriptionRemovedMessage else SubscriptionAddedMessage
  {
    var channel := ChannelCheck(db.users, channelId);
    if channel.Err? {
      return Err(channel.error);
    }
    var pair := Subscription(requester, channel.value);
    var isSubscribed := IndexOf(db.subscriptions, pair);
    if isSubscribed > -1 {
      db.subscriptions := RemoveAt(db.subscriptions, isSubscribed);
      assert db.subscriptions == Toggled(old(db.subscriptions), pair);
      return Ok(SubscriptionRemovedMessage);
    }
    db.subscriptions := db.subscriptions + [pair];
    assert db.subscriptions == Toggled(old(db.subscriptions), pair);
    r := Ok(SubscriptionAddedMessage);
  }

  // ---------------------------------------------------------------------------
  // Subscriber and subscription listings
  // ---------------------------------------------------------------------------

  /** `$match: {channel}` then `$group` pushing `$subscriber`: one entry per row. */
  function SubscribersOf(subs: seq<Subscription>, channel: ObjectId): (r: seq<ObjectId>)
    ensures |r| <= |subs|
    ensures forall s :: s in r <==> Subscription(s, channel) in subs
  {
    if subs == [] then []
    else
      var rest := SubscribersOf(subs[1..], channel);
      assert subs == [subs[0]] + subs[1..];
      if subs[0].channel == channel then [subs[0].subscriber] + rest else rest
  }

  /** `$match: {subscriber}` then `$group` pushing `$channel`: one entry per row. */
  function ChannelsOf(subs: seq<Subscription>, subscriber: ObjectId): (r: seq<ObjectId>)
    ensures |r| <= |subs|
    ensures forall c :: c in r <==> Subscription(subscriber, c) in subs
  {
    if subs == [] then []
    else
      var rest := ChannelsOf(subs[1..], subscriber);
      assert subs == [subs[0]] + subs[1..];
      if subs[0].subscriber == subscriber then [subs[0].channel] + rest else rest
  }

  /** The subscriber list holds each user as many times as there are rows of that user following the channel. */
  lemma {:induction false} SubscribersOfRows(subs: seq<Subscription>, channel: ObjectId)
    ensures forall s :: multiset(SubscribersOf(subs, channel))[s] == multiset(subs)[Subscription(s, channel)]
  {
    if subs != [] {
      SubscribersOfRows(subs[1..], channel);
      assert subs == [subs[0]] + subs[1..];
    }
  }

  /** The channel list holds each channel as many times as there are rows of the subscriber following it. */
  lemma {:induction false} ChannelsOfRows(subs: seq<Subscription>, subscriber: ObjectId)
    ensures forall c :: multiset(ChannelsOf(subs, subscriber))[c] == multiset(subs)[Subscription(subscriber, c)]
  {
    if subs != [] {
      ChannelsOfRows(subs[1..], subscriber);
      assert subs == [subs[0]] + subs[1..];
    }
  }

  lemma {:induction false} SubscribersOfConcat(a: seq<Subscription>, b: seq<Subscription>, channel: ObjectId)
    ensures SubscribersOf(a + b, channel) == SubscribersOf(a, channel) + SubscribersOf(b, channel)
  {
    if a == [] {
      assert a + b == b;
    } else {
      assert (a + b)[0] == a[0];
      assert (a + b)[1..] == a[1..] + b;
      SubscribersOfConcat(a[1..], b, channel);
    }
  }

  /** A toggle moves the channel's subscriber total by exactly one and leaves every other channel's total alone. */
  lemma ToggleCount(subs: seq<Subscription>, pair: Subscription, channel: ObjectId)
    ensures |SubscribersOf(Toggled(subs, pair), channel)| ==
      if channel != pair.channel then |SubscribersOf(subs, channel)|
      else if pair in subs then |SubscribersOf(subs, channel)| - 1
      else |SubscribersOf(subs, channel)| + 1
  {
    var i := IndexOf(subs, pair);
    assert [pair][1..] == [];
    var own := SubscribersOf([pair], channel);
    assert own == if pair.channel == channel then [pair.subscriber] else [];
    if i > -1 {
      var before, after := subs[..i], subs[i + 1..];
      assert subs == before + ([pair] + after);
      assert Toggled(subs, pair) == before + after;
      SubscribersOfConcat(before, after, channel);
      SubscribersOfConcat(before, [pair] + after, channel);
      SubscribersOfConcat([pair], after, channel);
      assert |SubscribersOf(subs, channel)| == |SubscribersOf(before, channel)| + |own| + |SubscribersOf(after, channel)|;
    } else {
      SubscribersOfConcat(subs, [pair], channel);
    }
  }

  /** The fields of a user the listings project. */
  datatype Profile = Profile(userName: string, fullName: string)

  function ProfileOf(u: User): Profile {
    Profile(u.userName, u.fullName)
  }

  /** `$lookup` with an array `localField`: the users whose `_id` is listed, each once, in collection order. */
  function UsersAmong(users: seq<Doc<User>>, ids: seq<ObjectId>): (r: seq<Doc<User>>)
    ensures |r| <= |users|
    ensures forall d :: d in r ==> d in users && d.id in ids
    ensures forall d :: d in users && d.id in ids ==> d in r
    ensures UniqueIds(users) ==> UniqueIds(r)
    ensures ids == [] ==> r == []
  {
    if users == [] then []
    else
      var rest := UsersAmong(users[1..], ids);
      assert users == [users[0]] + users[1..];
      assert forall d :: d in rest ==> d in users[1..];
      if users[0].id in ids then [users[0]] + rest else rest
  }

  /** The ids of a sequence of documents, as a set. */
  function IdSet(docs: seq<Doc<User>>): set<ObjectId> {
    set d | d in docs :: d.id
  }

  lemma IdSetCons(docs: seq<Doc<User>>)
    requires docs != []
    ensures IdSet(docs) == {docs[0].id} + IdSet(docs[1..])
  {
    assert docs == [docs[0]] + docs[1..];
  }

  lemma {:induction false} IdSetSize(docs: seq<Doc<User>>)
    requires UniqueIds(docs)
    ensures |IdSet(docs)| == |docs|
  {
    if docs != [] {
      var rest := docs[1..];
      IdSetSize(rest);
      IdSetCons(docs);
      assert docs[0].id !in IdSet(rest) by {
        forall k | 0 <= k < |rest| ensures rest[k].id != docs[0].id {
          assert rest[k] == docs[k + 1];
        }
      }
    }
  }

  lemma {:induction false} SetSizeAtMostLength(s: seq<ObjectId>)
    ensures |set x | x in s| <= |s|
  {
    if s != [] {
      SetSizeAtMostLength(s[1..]);
      assert (set x | x in s) == {s[0]} + (set x | x in s[1..]);
    }
  }

  lemma {:induction false} SubsetSize(a: set<ObjectId>, b: set<ObjectId>)
    requires a <= b
    ensures |a| <= |b|
  {
    if a != {} {
      var x :| x in a;
      SubsetSize(a - {x}, b - {x});
    }
  }

  /** The listed users never outnumber the rows they were looked up from. */
  lemma UsersAmongFitsRows(users: seq<Doc<User>>, ids: seq<ObjectId>)
    requires UniqueIds(users)
    ensures |UsersAmong(users, ids)| <= |ids|
  {
    var r := UsersAmong(users, ids);
    IdSetSize(r);
    SubsetSize(IdSet(r), set x | x in ids);
    SetSizeAtMostLength(ids);
  }

  /** What `getChannelSubscribers` answers. */
  datatype ChannelSubscribers = ChannelSubscribers(subscribers: seq<Profile>, totalSubscribers: nat)

  /** The body of a successful `getChannelSubscribers` for an existing channel. */
  function SubscribersListing(users: seq<Doc<User>>, subs: seq<Subscription>, channel: ObjectId): (r: ChannelSubscribers)
    ensures r.totalSubscribers == |SubscribersOf(subs, channel)|
    ensures forall u :: u in users && Subscription(u.id, channel) in subs ==> ProfileOf(u.body) in r.subscribers
    ensures forall p :: p in r.subscribers ==> exists u :: u in users && Subscription(u.id, channel) in subs && p == ProfileOf(u.body)
    ensures UniqueIds(users) ==> |r.subscribers| <= r.totalSubscribers
    ensures r.totalSubscribers == 0 ==> r.subscribers == []
  {
    var rows := SubscribersOf(subs, channel);
    var found := UsersAmong(users, rows);
    assert UniqueIds(users) ==> |found| <= |rows| by {
      if UniqueIds(users) {
        UsersAmongFitsRows(users, rows);
      }
    }
    var profiles := seq(|found|, k requires 0 <= k < |found| => ProfileOf(found[k].body));
    assert forall u :: u in found ==> ProfileOf(u.body) in profiles by {
      forall u | u in found ensures ProfileOf(u.body) in profiles {
        var k :| 0 <= k < |found| && found[k] == u;
        assert profiles[k] == ProfileOf(u.body);
      }
    }
    ChannelSubscribers(profiles, |rows|)
  }

  /** `getChannelSubscribers` */
  method GetChannelSubscribers(db: Db, channelId: PathId) returns (r: Result<ChannelSubscribers>)
    ensures channelId.Missing? ==> r == Err(ApiError(400, ChannelIdMissingMessage))
    ensures channelId.Malformed? ==> r == Err(ApiError(400, channelId.raw + " is not a valid channel id"))
    ensures channelId.WellFormed? && Find(db.users, channelId.id).None? ==>
      r == Err(ApiError(400, "channel Id " + IdString(channelId.id) + " is not available in DB"))
    ensures r.Ok? <==> channelId.WellFormed? && Find(db.users, channelId.id).Some?
    ensures r.Ok? ==> r.value == SubscribersListing(db.users, db.subscriptions, channelId.id)
  {
    match channelId {
      case Missing =>
        return Err(ApiError(400, ChannelIdMissingMessage));
      case Malformed(raw) =>
        return Err(ApiError(400, raw + " is not a valid channel id"));
      case WellFormed(id) =>
        if Find(db.users, id).None? {
          return Err(ApiError(400, "channel Id " + IdString(id) + " is not available in DB"));
        }
        r := Ok(SubscribersListing(db.users, db.subscriptions, id));
    }
  }

  /** What `getUserSubscriptions` answers. */
  datatype UserSubscriptions = UserSubscriptions(subscribedChannels: seq<Doc<Profile>>, totalSubscribedChannels: nat)

  /** The body of a successful `getUserSubscriptions` for an existing subscriber. */
  function SubscriptionsListing(users: seq<Doc<User>>, subs: seq<Subscription>, subscriber: ObjectId): (r: UserSubscriptions)
    ensures r.totalSubscribedChannels == |ChannelsOf(subs, subscriber)|
    ensures forall u :: u in users && Subscription(subscriber, u.id) in subs ==> Doc(u.id, ProfileOf(u.body)) in r.subscribedChannels
    ensures forall c :: c in r.subscribedChannels ==>
      exists u :: u in users && Subscription(subscriber, u.id) in subs && c == Doc(u.id, ProfileOf(u.body))
    ensures UniqueIds(users) ==> |r.subscribedChannels| <= r.totalSubscribedChannels
    ensures r.totalSubscribedChannels == 0 ==> r.subscribedChannels == []
  {
    var rows := ChannelsOf(subs, subscriber);
    var found := UsersAmong(users, rows);
    assert UniqueIds(users) ==> |found| <= |rows| by {
      if UniqueIds(users) {
        UsersAmongFitsRows(users, rows);
      }
    }
    var channels := seq(|found|, k requires 0 <= k < |found| => Doc(found[k].id, ProfileOf(found[k].body)));
    assert forall u :: u in found ==> Doc(u.id, ProfileOf(u.body)) in channels by {
      forall u | u in found ensures Doc(u.id, ProfileOf(u.body)) in channels {
        var k :| 0 <= k < |found| && found[k] == u;
        assert channels[k] == Doc(u.id, ProfileOf(u.body));
      }
    }
    UserSubscriptions(channels, |rows|)
  }

  /** The guards `getUserSubscriptions` and `getLatestVideoFromSubscribedChannels` share. */
  function SubscriberCheck(users: seq<Doc<User>>, subscriberId: PathId): (r: Result<ObjectId>)
    ensures r.Ok? <==> subscriberId.WellFormed? && Find(users, subscriberId.id).Some?
    ensures r.Ok? ==> r.value == subscriberId.id
    ensures subscriberId.Missing? ==> r == Err(ApiError(400, SubscriberIdMissingMessage))
    ensures subscriberId.Malformed? ==> r == Err(ApiError(400, InvalidSubscriberIdMessage))
    ensures subscriberId.WellFormed? && Find(users, subscriberId.id).None? ==>
      r == Err(ApiError(400, SubscriberAbsentMessage))
  {
    match subscriberId
    case Missing => Err(ApiError(400, SubscriberIdMissingMessage))
    case Malformed(_) => Err(ApiError(400, InvalidSubscriberIdMessage))
    case WellFormed(id) =>
      if Find(users, id).None? then Err(ApiError(400, SubscriberAbsentMessage)) else Ok(id)
  }

  /** `getUserSubscriptions` */
  method GetUserSubscriptions(db: Db, subscriberId: PathId) returns (r: Result<UserSubscriptions>)
    ensures SubscriberCheck(db.users, subscriberId).Err? ==> r == Err(SubscriberCheck(db.users, subscriberId).error)
    ensures SubscriberCheck(db.users, subscriberId).Ok? ==>
      r == Ok(SubscriptionsListing(db.users, db.subscriptions, subscriberId.id))
  {
    match subscriberId {
      case Missing =>
        return Err(ApiError(400, SubscriberIdMissingMessage));
      case Malformed(_) =>
        return Err(ApiError(400, InvalidSubscriberIdMessage));
      case WellFormed(id) =>
        if Find(db.users, id).None? {
          return Err(ApiError(400, SubscriberAbsentMessage));
        }
        r := Ok(SubscriptionsListing(db.users, db.subscriptions, id));
    }
  }

  // ---------------------------------------------------------------------------
  // Latest video of every subscribed channel
  // ---------------------------------------------------------------------------

  /** The distinct elements of `s` (`$group` by channel). */
  function Distinct(s: seq<ObjectId>): (r: seq<ObjectId>)
    ensures NoDup(r)
    ensures forall x :: x in r <==> x in s
  {
    if s == [] then []
    else
      var rest := Distinct(s[1..]);
      assert s == [s[0]] + s[1..];
      if s[0] in rest then rest else [s[0]] + rest
  }

  /** `$sort: {createdAt: -1}` then `$first`: a video no other video of the group is newer than. */
  function Newest(videos: seq<Doc<Video>>): (r: Doc<Video>)
    requires videos != []
    ensures r in videos
    ensures forall v :: v in videos ==> v.body.createdAt <= r.body.createdAt
  {
    if |videos| == 1 then videos[0]
    else
      var rest := Newest(videos[1..]);
      assert videos == [videos[0]] + videos[1..];
      if videos[0].body.createdAt >= rest.body.createdAt then videos[0] else rest
  }

  /** No video of the same channel is newer than `d`. */
  predicate NewestOfItsChannel(d: Doc<Video>, videos: seq<Doc<Video>>) {
    forall v :: v in videos && v.body.owner == d.body.owner ==> v.body.createdAt <= d.body.createdAt
  }

  /** The channels the listed videos belong to, position by position. */
  function Owners(docs: seq<Doc<Video>>): (r: seq<ObjectId>)
    ensures |r| == |docs| && forall k :: 0 <= k < |r| ==> r[k] == docs[k].body.owner
  {
    if docs == [] then [] else [docs[0].body.owner] + Owners(docs[1..])
  }

  /** For every channel, in turn, its newest video, skipping channels that own none. */
  function LatestPerChannel(channels: seq<ObjectId>, videos: seq<Doc<Video>>): (r: seq<Doc<Video>>)
    ensures forall d :: d in r ==> d in videos && d.body.owner in channels && NewestOfItsChannel(d, videos)
  {
    if channels == [] then []
    else
      var rest := LatestPerChannel(channels[1..], videos);
      var owned := MatchDocs(videos, OwnerIs(channels[0]));
      if owned == [] then rest
      else
        var newest := Newest(owned);
        assert NewestOfItsChannel(newest, videos) by {
          forall v | v in videos && v.body.owner == newest.body.owner ensures v.body.createdAt <= newest.body.createdAt {
            assert multiset(owned)[v] == multiset(videos)[v];
          }
        }
        [newest] + rest
  }

  /** Every channel that owns a video is represented. */
  lemma {:induction false} LatestPerChannelCovers(channels: seq<ObjectId>, videos: seq<Doc<Video>>, v: Doc<Video>)
    requires v in videos && v.body.owner in channels
    ensures v.body.owner in Owners(LatestPerChannel(channels, videos))
  {
    var owned := MatchDocs(videos, OwnerIs(channels[0]));
    var r := LatestPerChannel(channels, videos);
    var rest := LatestPerChannel(channels[1..], videos);
    if owned != [] {
      assert r == [Newest(owned)] + rest;
      assert r[1..] == rest;
      assert Owners(r) == [Newest(owned).body.owner] + Owners(rest);
    }
    if v.body.owner == channels[0] {
      assert multiset(owned)[v] == multiset(videos)[v];
      assert Newest(owned) in owned;
    } else {
      LatestPerChannelCovers(channels[1..], videos, v);
    }
  }

  /** Distinct channels give one video per channel. */
  lemma {:induction false} LatestPerChannelDistinct(channels: seq<ObjectId>, videos: seq<Doc<Video>>)
    requires NoDup(channels)
    ensures NoDup(Owners(LatestPerChannel(channels, videos)))
  {
    if channels != [] {
      var rest := LatestPerChannel(channels[1..], videos);
      var owned := MatchDocs(videos, OwnerIs(channels[0]));
      assert NoDup(channels[1..]);
      LatestPerChannelDistinct(channels[1..], videos);
      if owned != [] {
        var r := LatestPerChannel(channels, videos);
        assert r == [Newest(owned)] + rest;
        forall i, j | 0 <= i < j < |r| ensures Owners(r)[i] != Owners(r)[j] {
          assert Owners(r)[j] == Owners(rest)[j - 1];
          if i == 0 {
            assert Newest(owned).body.owner == channels[0];
            assert rest[j - 1] in rest;
          } else {
            assert Owners(r)[i] == Owners(rest)[i - 1];
          }
        }
      }
    }
  }

  /**
   * The newest video of every channel `subscriber` follows that owns one;
   * published or not, the pipeline does not ask.
   */
  function LatestVideos(subs: seq<Subscription>, videos: seq<Doc<Video>>, subscriber: ObjectId): (r: seq<Doc<Video>>)
    ensures forall d :: d in r ==> d in videos && Subscription(subscriber, d.body.owner) in subs && NewestOfItsChannel(d, videos)
    ensures ChannelsOf(subs, subscriber) == [] ==> r == []
  {
    LatestPerChannel(Distinct(ChannelsOf(subs, subscriber)), videos)
  }

  /** One entry per subscribed channel that owns a video, and no channel twice. */
  lemma LatestVideosComplete(subs: seq<Subscription>, videos: seq<Doc<Video>>, subscriber: ObjectId)
    ensures NoDup(Owners(LatestVideos(subs, videos, subscriber)))
    ensures forall v :: v in videos && Subscription(subscriber, v.body.owner) in subs ==>
      v.body.owner in Owners(LatestVideos(subs, videos, subscriber))
  {
    var channels := Distinct(ChannelsOf(subs, subscriber));
    LatestPerChannelDistinct(channels, videos);
    forall v | v in videos && Subscription(subscriber, v.body.owner) in subs
      ensures v.body.owner in Owners(LatestVideos(subs, videos, subscriber))
    {
      LatestPerChannelCovers(channels, videos, v);
    }
  }

  /** `getLatestVideoFromSubscribedChannels` */
  method GetLatestVideoFromSubscribedChannels(db: Db, subscriberId: PathId) returns (r: Result<seq<Doc<Video>>>)
    ensures SubscriberCheck(db.users, subscriberId).Err? ==> r == Err(SubscriberCheck(db.users, subscriberId).error)
    ensures SubscriberCheck(db.users, subscriberId).Ok? ==>
      r == Ok(LatestVideos(db.subscriptions, db.videos, subscriberId.id))
  {
    match subscriberId {
      case Missing =>
        return Err(ApiError(400, SubscriberIdMissingMessage));
      case Malformed(_) =>
        return Err(ApiError(400, InvalidSubscriberIdMessage));
      case WellFormed(id) =>
        if Find(db.users, id).None? {
          return Err(ApiError(400, SubscriberAbsentMessage));
        }
        r := Ok(LatestVideos(db.subscriptions, db.videos, id));
    }
  }
}
