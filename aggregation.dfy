/**
 * The aggregation stages whose meaning the video listings depend on: `$sort`
 * over video fields, and `$skip`/`$limit` with the page arithmetic the
 * handlers report next to them.
 */
module Aggregation {
  import opened Models

  /** The conditions of the `$match` stages the listings use. */
  datatype Condition = OwnerIs(owner: ObjectId) | PublishedIs(flag: bool)

  predicate Satisfies(v: Video, c: Condition) {
    match c
    case OwnerIs(owner) => v.owner == owner
    case PublishedIs(flag) => v.isPublished == flag
  }

  /** The output of a `$match` stage: the documents satisfying the condition, in their order. */
  function MatchDocs(docs: seq<Doc<Video>>, c: Condition): (r: seq<Doc<Video>>)
    ensures forall d :: d in r ==> d in docs && Satisfies(d.body, c)
    ensures forall d :: multiset(r)[d] == if Satisfies(d.body, c) then multiset(docs)[d] else 0
  {
    if docs == [] then []
    else
      assert docs == [docs[0]] + docs[1..];
      (if Satisfies(docs[0].body, c) then [docs[0]] else []) + MatchDocs(docs[1..], c)
  }

  /** The video fields a listing sorts on. */
  datatype Field = CreatedAt | Views | IsPublished

  /** One entry of a `$sort` document: `{field: 1}` is ascending, `{field: -1}` descending. */
  datatype SortKey = SortKey(field: Field, ascending: bool)

  /** A field's value in the order MongoDB sorts it (`false` before `true`). */
  function FieldValue(v: Video, f: Field): int {
    match f
    case CreatedAt => v.createdAt
    case Views => v.views
    case IsPublished => if v.isPublished then 1 else 0
  }

  /** Lexicographic comparison under a `$sort` document: negative when `a` may come first, 0 on a tie. */
  function Compare(a: Video, b: Video, keys: seq<SortKey>): (c: int)
    ensures -1 <= c <= 1
  {
    if keys == [] then 0
    else
      var x, y := FieldValue(a, keys[0].field), FieldValue(b, keys[0].field);
      if x == y then Compare(a, b, keys[1..])
      else if (x < y) == keys[0].ascending then -1
      else 1
  }

  /** Swapping the operands negates the comparison, so any two documents can be ordered. */
  lemma {:induction false} CompareAntisymmetric(a: Video, b: Video, keys: seq<SortKey>)
    ensures Compare(a, b, keys) == -Compare(b, a, keys)
  {
    if keys != [] {
      CompareAntisymmetric(a, b, keys[1..]);
    }
  }

  /** Under a single key, `$sort` order is the order of that field in the key's direction. */
  lemma SingleKeyOrder(a: Video, b: Video, key: SortKey)
    ensures Compare(a, b, [key]) <= 0 <==>
      if key.ascending then FieldValue(a, key.field) <= FieldValue(b, key.field)
      else FieldValue(a, key.field) >= FieldValue(b, key.field)
  {
    assert [key][1..] == [];
  }

  /** Under two keys, the second only breaks ties of the first. */
  lemma TwoKeyOrder(a: Video, b: Video, first: SortKey, second: SortKey)
    ensures Compare(a, b, [first, second]) <= 0 <==>
      var x, y := FieldValue(a, first.field), FieldValue(b, first.field);
      (if first.ascending then x < y else x > y) || (x == y && Compare(a, b, [second]) <= 0)
  {
    assert [first, second][1..] == [second];
  }

  /** Every neighbouring pair is in `$sort` order. */
  predicate SortedBy(docs: seq<Doc<Video>>, keys: seq<SortKey>) {
    forall i :: 0 < i < |docs| ==> Compare(docs[i - 1].body, docs[i].body, keys) <= 0
  }

  /** Places `d` into an already sorted sequence. */
  function Insert(d: Doc<Video>, docs: seq<Doc<Video>>, keys: seq<SortKey>): (r: seq<Doc<Video>>)
    requires SortedBy(docs, keys)
    ensures SortedBy(r, keys)
    ensures multiset(r) == multiset(docs) + multiset{d}
    ensures |r| > 0 && (r[0] == d || (docs != [] && r[0] == docs[0]))
  {
    if docs == [] then [d]
    else if Compare(d.body, docs[0].body, keys) <= 0 then
      ConsSorted(d, docs, keys);
      [d] + docs
    else
      CompareAntisymmetric(d.body, docs[0].body, keys);
      assert docs == [docs[0]] + docs[1..];
      SortedTail(docs, keys);
      var rest := Insert(d, docs[1..], keys);
      ConsSorted(docs[0], rest, keys);
      [docs[0]] + rest
  }

  lemma SortedTail(docs: seq<Doc<Video>>, keys: seq<SortKey>)
    requires SortedBy(docs, keys) && docs != []
    ensures SortedBy(docs[1..], keys)
  {
    var tail := docs[1..];
    forall i | 0 < i < |tail| ensures Compare(tail[i - 1].body, tail[i].body, keys) <= 0 {
      assert tail[i - 1] == docs[i] && tail[i] == docs[i + 1];
    }
  }

  lemma ConsSorted(d: Doc<Video>, docs: seq<Doc<Video>>, keys: seq<SortKey>)
    requires SortedBy(docs, keys)
    requires docs != [] ==> Compare(d.body, docs[0].body, keys) <= 0
    ensures SortedBy([d] + docs, keys)
  {
    var r := [d] + docs;
    forall i | 0 < i < |r| ensures Compare(r[i - 1].body, r[i].body, keys) <= 0 {
      if i > 1 {
        assert r[i - 1] == docs[i - 2] && r[i] == docs[i - 1];
      }
    }
  }

  /** The output of a `$sort` stage: the same documents, in `$sort` order (ties in some order). */
  function SortDocs(docs: seq<Doc<Video>>, keys: seq<SortKey>): (r: seq<Doc<Video>>)
    ensures SortedBy(r, keys)
    ensures multiset(r) == multiset(docs)
  {
    if docs == [] then []
    else
      assert docs == [docs[0]] + docs[1..];
      Insert(docs[0], SortDocs(docs[1..], keys), keys)
  }

  /**
   * The error the model gives a MongoDB command that refuses its arguments (a
   * `$skip` below 0, a `$limit` below 1, a `$sort` direction other than 1 or
   * -1). The handlers do not catch it; the error middleware that answers it is
   * not part of this model, so its status and message stand for whatever that
   * middleware sends.
   */
  const DatabaseError := ApiError(500, "database error")

  /** `$skip: (page - 1) * limit` then `$limit: limit`; MongoDB refuses a negative skip or a limit below 1. */
  function SkipLimit<T>(items: seq<T>, page: int, limit: int): (r: Result<seq<T>>)
    ensures r.Ok? <==> page >= 1 && limit >= 1
    ensures r.Err? ==> r.error == DatabaseError
    ensures r.Ok? ==> |r.value| <= limit
    ensures r.Ok? ==> forall k :: 0 <= k < |r.value| ==> (page - 1) * limit + k < |items| && r.value[k] == items[(page - 1) * limit + k]
    ensures r.Ok? && (page - 1) * limit < |items| ==>
      |r.value| == if (page - 1) * limit + limit <= |items| then limit else |items| - (page - 1) * limit
    ensures r.Ok? && (page - 1) * limit >= |items| ==> r.value == []
  {
    if page < 1 || limit < 1 then Err(DatabaseError)
    else
      var skip := (page - 1) * limit;
      assert skip >= 0 by { NonNegativeProduct(page - 1, limit); }
      var from := if skip < |items| then skip else |items|;
      var to := if from + limit < |items| then from + limit else |items|;
      Ok(items[from..to])
  }

  lemma NonNegativeProduct(x: int, y: int)
    requires x >= 0 && y >= 0
    ensures x * y >= 0
  {
  }

  /** `Math.ceil(total / limit)` */
  function TotalPages(total: nat, limit: int): (r: nat)
    requires limit >= 1
    ensures total <= r * limit
    ensures r > 0 ==> (r - 1) * limit < total
  {
    var r := (total + limit - 1) / limit;
    CeilBounds(total, limit, r);
    r
  }

  lemma CeilBounds(total: nat, limit: int, r: int)
    requires limit >= 1 && r == (total + limit - 1) / limit
    ensures r >= 0 && total <= r * limit && (r > 0 ==> (r - 1) * limit < total)
  {
    var m := (total + limit - 1) % limit;
    assert total + limit - 1 == r * limit + m;
    assert 0 <= m < limit;
  }

  /** What a paginated listing reports. */
  datatype Listing<T> = Listing(videos: seq<T>, currentPage: int, totalPages: nat, totalVideos: nat)

  /** The page `page` of `matches`, with `totalPages = Math.ceil(totalVideos / limit)`. */
  function Paginate<T>(matches: seq<T>, page: int, limit: int): (r: Result<Listing<T>>)
    ensures r.Ok? <==> page >= 1 && limit >= 1
    ensures r.Ok? ==> r.value.currentPage == page && r.value.totalVideos == |matches|
    ensures r.Ok? ==> r.value.totalPages * limit >= |matches| && (r.value.totalPages > 0 ==> (r.value.totalPages - 1) * limit < |matches|)
    ensures r.Ok? ==> SkipLimit(matches, page, limit) == Ok(r.value.videos)
  {
    match SkipLimit(matches, page, limit)
    case Err(e) => Err(e)
    case Ok(videos) => Ok(Listing(videos, page, TotalPages(|matches|, limit), |matches|))
  }

  /**
   * The item at offset `offset` of page `page` exists exactly when its index
   * `(page - 1) * limit + offset` is below the total, and then the page is at
   * most `totalPages`: the pages up to `totalPages` cover every item.
   */
  lemma {:induction false} ItemOnItsPage<T>(items: seq<T>, limit: int, page: int, offset: int)
    requires limit >= 1 && page >= 1 && 0 <= offset < limit
    requires (page - 1) * limit + offset < |items|
    ensures page <= TotalPages(|items|, limit)
    ensures SkipLimit(items, page, limit).Ok?
    ensures offset < |SkipLimit(items, page, limit).value|
    ensures SkipLimit(items, page, limit).value[offset] == items[(page - 1) * limit + offset]
  {
    var total := TotalPages(|items|, limit);
    var skip := (page - 1) * limit;
    assert total * limit > skip;
    CancelFactor(total, page - 1, limit);
  }

  lemma CancelFactor(x: int, y: int, z: int)
    requires z >= 1 && x * z > y * z
    ensures x > y
  {
    if x <= y {
      MonotoneProduct(x, y, z);
    }
  }

  lemma MonotoneProduct(x: int, y: int, z: int)
    requires x <= y && z >= 0
    ensures x * z <= y * z
  {
  }

  /** A page of a sorted listing is sorted and holds only documents of the listing. */
  lemma PageOfSorted(items: seq<Doc<Video>>, page: int, limit: int, keys: seq<SortKey>)
    requires SortedBy(items, keys) && page >= 1 && limit >= 1
    ensures SortedBy(SkipLimit(items, page, limit).value, keys)
    ensures forall d :: d in SkipLimit(items, page, limit).value ==> d in items
  {
    var window := SkipLimit(items, page, limit).value;
    var skip := (page - 1) * limit;
    forall i | 0 < i < |window| ensures Compare(window[i - 1].body, window[i].body, keys) <= 0 {
      assert window[i - 1] == items[skip + i - 1] && window[i] == items[skip + i];
    }
  }

  /** A page past the last one is empty. */
  lemma PageBeyondLastIsEmpty<T>(items: seq<T>, page: int, limit: int)
    requires limit >= 1 && page > TotalPages(|items|, limit)
    ensures SkipLimit(items, page, limit) == Ok([])
  {
    var total := TotalPages(|items|, limit);
    assert total <= page - 1;
    MonotoneProduct(total, page - 1, limit);
  }
}
