/**
 * The rating upsert-and-recompute: the rating table and the queries the
 * operation runs on it, the invariant that ties each post's cached
 * aggregates to its ratings, and the database class whose `Rate` method
 * performs the operation.
 */
module Utils {
  import opened Models

  /** The range check of `rate`: inclusive at both ends. */
  predicate Accepts(n: int)
  {
    0 <= n <= 5
  }

  /** `row` is the rating of user `u` for post `p`. */
  predicate IsFor(row: Rating, u: UserId, p: PostId)
  {
    row.owner == u && row.post == p
  }

  /** At most one row per (owner, post): the schema does not enforce it, `Rate` keeps it. */
  predicate Unique(rows: seq<Rating>)
  {
    forall i, j :: 0 <= i < j < |rows| ==> !IsFor(rows[j], rows[i].owner, rows[i].post)
  }

  // ---------------------------------------------------------------------------
  // Queries on the rating table
  // ---------------------------------------------------------------------------

  /** The position of the first row for (u, p) in table order, if there is one. */
  function FindIndex(rows: seq<Rating>, u: UserId, p: PostId): (r: Option<nat>)
    ensures r.Some? ==> r.value < |rows| && IsFor(rows[r.value], u, p)
    ensures r.Some? ==> forall j :: 0 <= j < r.value ==> !IsFor(rows[j], u, p)
    ensures r.None? ==> forall j :: 0 <= j < |rows| ==> !IsFor(rows[j], u, p)
  {
    if rows == [] then None
    else if IsFor(rows[0], u, p) then Some(0)
    else match FindIndex(rows[1..], u, p)
      case Some(i) => Some(i + 1)
      case None => None
  }

  /** The rate of the first row for (u, p): `filter(owner=u, post=p).values('rate').first()`. */
  function Lookup(rows: seq<Rating>, u: UserId, p: PostId): (r: Option<nat>)
    ensures r.Some? <==> exists i :: 0 <= i < |rows| && IsFor(rows[i], u, p)
    ensures r.Some? ==> exists i :: 0 <= i < |rows| && rows[i] == Rating(u, p, r.value)
  {
    match FindIndex(rows, u, p)
    case Some(i) => Some(rows[i].rate)
    case None => None
  }

  /** The rates of the rows of post `p`, in table order: `filter(post__id=p)`. */
  function RatesOf(rows: seq<Rating>, p: PostId): (rs: seq<nat>)
    ensures |rs| <= |rows|
    ensures rs == [] <==> forall i :: 0 <= i < |rows| ==> rows[i].post != p
  {
    if rows == [] then []
    else
      var rest := RatesOf(rows[1..], p);
      assert forall i :: 1 <= i < |rows| ==> rows[i] == rows[1..][i - 1];
      (if rows[0].post == p then [rows[0].rate] else []) + rest
  }

  function Sum(rs: seq<nat>): nat
  {
    if rs == [] then 0 else rs[0] + Sum(rs[1..])
  }

  /** The number of ratings of post `p`: `filter(post__id=p).count()`. */
  function Count(rows: seq<Rating>, p: PostId): (c: nat)
    ensures c <= |rows|
    ensures c == 0 <==> forall i :: 0 <= i < |rows| ==> rows[i].post != p
  {
    |RatesOf(rows, p)|
  }

  /** `a` is the average of n values that add up to total. */
  predicate IsAverage(a: real, total: nat, n: nat)
  {
    a * n as real == total as real
  }

  /** The exact average of n values that add up to total; 0 for no values. */
  function Average(total: nat, n: nat): (a: real)
    ensures n == 0 ==> a == 0.0
    ensures n > 0 ==> IsAverage(a, total, n)
  {
    if n == 0 then 0.0
    else
      var s, c := total as real, n as real;
      assert (s / c) * c == s;
      s / c
  }

  /**
   * The mean rate of post `p`, exactly; 0 when the post has no rating
   * (the aggregate is then None, and `or 0.0` turns it into 0).
   */
  function Mean(rows: seq<Rating>, p: PostId): (m: real)
    ensures Count(rows, p) == 0 ==> m == 0.0
    ensures Count(rows, p) > 0 ==> IsAverage(m, Sum(RatesOf(rows, p)), Count(rows, p))
  {
    Average(Sum(RatesOf(rows, p)), Count(rows, p))
  }

  // ---------------------------------------------------------------------------
  // The operation on values
  // ---------------------------------------------------------------------------

  /**
   * `update_or_create(owner=u, post=p, defaults={'rate': v})`: the row for
   * (u, p) takes rate v in place; when there is none, a row is appended.
   */
  function Upsert(rows: seq<Rating>, u: UserId, p: PostId, v: nat): (r: seq<Rating>)
    ensures |r| == |rows| + (if Lookup(rows, u, p).None? then 1 else 0)
    ensures forall i :: 0 <= i < |rows| && !IsFor(rows[i], u, p) ==> r[i] == rows[i]
    ensures forall i :: |rows| <= i < |r| ==> r[i] == Rating(u, p, v)
    ensures Lookup(r, u, p) == Some(v)
  {
    match FindIndex(rows, u, p)
    case Some(i) =>
      var r := rows[i := Rating(u, p, v)];
      assert IsFor(r[i], u, p);
      r
    case None =>
      var r := rows + [Rating(u, p, v)];
      assert IsFor(r[|rows|], u, p);
      r
  }

  /** The post with its cached aggregates recomputed from the whole table. */
  function Recompute(post: Post, rows: seq<Rating>, p: PostId): (r: Post)
    ensures CacheAgrees(r, rows, p)
    ensures r.title == post.title && r.content == post.content
    ensures r.ratingCount == 0 <==> forall i :: 0 <= i < |rows| ==> rows[i].post != p
    ensures r.ratingCount == 0 ==> r.ratingAvg == 0.0
  {
    post.(ratingAvg := Mean(rows, p), ratingCount := Count(rows, p))
  }

  /** What `rate` returns: the pair (True, row) on acceptance, Python's None otherwise. */
  function RateReturn(u: UserId, p: PostId, n: int): (r: Option<Rating>)
    ensures r.Some? <==> Accepts(n)
    ensures r.Some? ==> r.value.owner == u && r.value.post == p && r.value.rate == n
  {
    if Accepts(n) then Some(Rating(u, p, n)) else None
  }

  /** The cached aggregates of `post` are those of the ratings of `p`. */
  predicate CacheAgrees(post: Post, rows: seq<Rating>, p: PostId)
  {
    post.ratingAvg == Mean(rows, p) && post.ratingCount == Count(rows, p)
  }

  /**
   * The database invariant: one row per (owner, post), every row refers to
   * an existing post with an accepted rate, and every post's cache is the
   * recomputation over the table.
   */
  predicate Consistent(posts: map<PostId, Post>, rows: seq<Rating>)
  {
    && Unique(rows)
    && (forall i :: 0 <= i < |rows| ==> rows[i].post in posts && Accepts(rows[i].rate))
    && (forall p :: p in posts ==> CacheAgrees(posts[p], rows, p))
  }

  // ---------------------------------------------------------------------------
  // Lemmas about the aggregates
  // ---------------------------------------------------------------------------

  lemma {:induction false} RatesOfConcat(a: seq<Rating>, b: seq<Rating>, p: PostId)
    ensures RatesOf(a + b, p) == RatesOf(a, p) + RatesOf(b, p)
  {
    if a == [] {
      assert a + b == b;
    } else {
      var head := if a[0].post == p then [a[0].rate] else [];
      assert (a + b)[0] == a[0] && (a + b)[1..] == a[1..] + b;
      RatesOfConcat(a[1..], b, p);
      assert RatesOf(a + b, p) == head + RatesOf(a[1..] + b, p);
    }
  }

  lemma {:induction false} SumConcat(a: seq<nat>, b: seq<nat>)
    ensures Sum(a + b) == Sum(a) + Sum(b)
  {
    if a == [] {
      assert a + b == b;
    } else {
      assert (a + b)[1..] == a[1..] + b;
      SumConcat(a[1..], b);
    }
  }

  lemma SumAround(a: seq<nat>, x: nat, b: seq<nat>)
    ensures Sum(a + [x] + b) == Sum(a) + x + Sum(b)
  {
    SumConcat(a + [x], b);
    SumConcat(a, [x]);
    assert [x][1..] == [];
  }

  /** The rates of a table split around position i. */
  lemma RatesOfAround(rows: seq<Rating>, i: nat, q: PostId)
    requires i < |rows|
    ensures RatesOf(rows, q) == RatesOf(rows[..i], q) + RatesOf([rows[i]], q) + RatesOf(rows[i + 1..], q)
  {
    assert rows == rows[..i] + [rows[i]] + rows[i + 1..];
    RatesOfConcat(rows[..i] + [rows[i]], rows[i + 1..], q);
    RatesOfConcat(rows[..i], [rows[i]], q);
  }

  /** With every rate at most 5, the sum of a post's rates is at most 5 times their count. */
  lemma {:induction false} SumOfRatesBound(rows: seq<Rating>, p: PostId)
    requires forall i :: 0 <= i < |rows| ==> Accepts(rows[i].rate)
    ensures Sum(RatesOf(rows, p)) <= 5 * Count(rows, p)
  {
    if rows != [] {
      var head: seq<nat> := if rows[0].post == p then [rows[0].rate] else [];
      SumOfRatesBound(rows[1..], p);
      SumConcat(head, RatesOf(rows[1..], p));
    }
  }

  lemma QuotientAtMostFive(s: real, c: real)
    requires 0.0 <= s <= 5.0 * c && c > 0.0
    ensures 0.0 <= s / c <= 5.0
  {
    assert (s / c) * c == s;
  }

  /** The mean of accepted rates lies in 0 .. 5, so it fits the decimal column. */
  lemma MeanInRange(rows: seq<Rating>, p: PostId)
    requires forall i :: 0 <= i < |rows| ==> Accepts(rows[i].rate)
    ensures 0.0 <= Mean(rows, p) <= 5.0
    ensures FitsRatingAvg(Mean(rows, p))
  {
    var rs := RatesOf(rows, p);
    if rs != [] {
      SumOfRatesBound(rows, p);
      var s, c := Sum(rs) as real, |rs| as real;
      assert Mean(rows, p) == s / c;
      QuotientAtMostFive(s, c);
    }
  }

  // ---------------------------------------------------------------------------
  // Lemmas about the upsert
  // ---------------------------------------------------------------------------

  /** After the upsert the table holds exactly one row for (u, p), with rate v, and no duplicate pair. */
  lemma UpsertSingleRow(rows: seq<Rating>, u: UserId, p: PostId, v: nat)
    requires Unique(rows)
    ensures Unique(Upsert(rows, u, p, v))
    ensures var r := Upsert(rows, u, p, v);
      exists i :: 0 <= i < |r| && r[i] == Rating(u, p, v) &&
        forall j :: 0 <= j < |r| && IsFor(r[j], u, p) ==> j == i
  {
    var r := Upsert(rows, u, p, v);
    match FindIndex(rows, u, p)
    case Some(k) =>
      assert forall i :: 0 <= i < |r| ==> IsFor(r[i], rows[i].owner, rows[i].post) && IsFor(rows[i], r[i].owner, r[i].post);
      assert r[k] == Rating(u, p, v);
    case None =>
      assert r == rows + [Rating(u, p, v)];
      assert r[|rows|] == Rating(u, p, v);
  }

  /** Other users' and other posts' ratings read the same after the upsert. */
  lemma UpsertKeepsOthers(rows: seq<Rating>, u: UserId, p: PostId, v: nat, u': UserId, p': PostId)
    requires u' != u || p' != p
    ensures Lookup(Upsert(rows, u, p, v), u', p') == Lookup(rows, u', p')
  {
    var r := Upsert(rows, u, p, v);
    assert forall i :: 0 <= i < |r| && IsFor(r[i], u', p') ==> i < |rows| && r[i] == rows[i];
    assert forall i :: 0 <= i < |rows| && IsFor(rows[i], u', p') ==> r[i] == rows[i];
    match FindIndex(rows, u', p')
    case Some(k) =>
      assert FindIndex(r, u', p') == Some(k);
    case None =>
      assert FindIndex(r, u', p') == None;
  }

  /** The upsert writes only rows of post p: every other post keeps its ratings. */
  lemma UpsertKeepsOtherPosts(rows: seq<Rating>, u: UserId, p: PostId, v: nat, q: PostId)
    requires q != p
    ensures RatesOf(Upsert(rows, u, p, v), q) == RatesOf(rows, q)
  {
    var r := Upsert(rows, u, p, v);
    match FindIndex(rows, u, p)
    case Some(k) =>
      RatesOfAround(r, k, q);
      RatesOfAround(rows, k, q);
      assert r[..k] == rows[..k] && r[k + 1..] == rows[k + 1..];
    case None =>
      RatesOfConcat(rows, [Rating(u, p, v)], q);
  }

  /**
   * The count of post p rises by one exactly when u had not rated p, and is
   * unchanged otherwise; either way p has a rating afterwards.
   */
  lemma UpsertCount(rows: seq<Rating>, u: UserId, p: PostId, v: nat)
    ensures Count(Upsert(rows, u, p, v), p) == Count(rows, p) + (if Lookup(rows, u, p).None? then 1 else 0)
    ensures Count(Upsert(rows, u, p, v), p) >= 1
  {
    var r := Upsert(rows, u, p, v);
    match FindIndex(rows, u, p)
    case Some(k) =>
      RatesOfAround(r, k, p);
      RatesOfAround(rows, k, p);
      assert r[..k] == rows[..k] && r[k + 1..] == rows[k + 1..];
    case None =>
      RatesOfConcat(rows, [Rating(u, p, v)], p);
  }

  /** Replacing a row of post p by another row of p swaps its rate in the sum of p's rates. */
  lemma SumReplaced(rows: seq<Rating>, k: nat, row: Rating, p: PostId)
    requires k < |rows| && rows[k].post == p && row.post == p
    ensures Sum(RatesOf(rows[k := row], p)) + rows[k].rate == Sum(RatesOf(rows, p)) + row.rate
  {
    var r := rows[k := row];
    RatesOfAround(r, k, p);
    RatesOfAround(rows, k, p);
    assert r[..k] == rows[..k] && r[k + 1..] == rows[k + 1..];
    var a, b := RatesOf(rows[..k], p), RatesOf(rows[k + 1..], p);
    assert [r[k]][1..] == [] && [rows[k]][1..] == [];
    assert RatesOf(r, p) == a + [row.rate] + b;
    assert RatesOf(rows, p) == a + [rows[k].rate] + b;
    SumAround(a, row.rate, b);
    SumAround(a, rows[k].rate, b);
  }

  /**
   * The sum of p's rates moves from u's old rate (0 if none) to v: the full
   * recomputation agrees with a running sum kept beside the count.
   */
  lemma UpsertSum(rows: seq<Rating>, u: UserId, p: PostId, v: nat)
    ensures Sum(RatesOf(Upsert(rows, u, p, v), p)) + (match Lookup(rows, u, p) case Some(w) => w case None => 0)
         == Sum(RatesOf(rows, p)) + v
  {
    var r := Upsert(rows, u, p, v);
    match FindIndex(rows, u, p)
    case Some(k) =>
      SumReplaced(rows, k, Rating(u, p, v), p);
    case None =>
      RatesOfConcat(rows, [Rating(u, p, v)], p);
      assert [Rating(u, p, v)][1..] == [];
      assert RatesOf(r, p) == RatesOf(rows, p) + [v];
      SumConcat(RatesOf(rows, p), [v]);
      assert Sum([v]) == v;
      assert Lookup(rows, u, p) == None;
  }

  /** The first rating of a post that no row refers to: count 1, and the average is that rate. */
  lemma FirstRatingOfUnratedPost(rows: seq<Rating>, u: UserId, p: PostId, v: nat)
    requires forall i :: 0 <= i < |rows| ==> rows[i].post != p
    ensures Count(Upsert(rows, u, p, v), p) == 1 && Mean(Upsert(rows, u, p, v), p) == v as real
  {
    assert Lookup(rows, u, p).None?;
    UpsertCount(rows, u, p, v);
    UpsertSum(rows, u, p, v);
    assert RatesOf(rows, p) == [];
  }

  /** A second upsert of the same pair overwrites the first: only the last value remains. */
  lemma UpsertOverwrites(rows: seq<Rating>, u: UserId, p: PostId, v1: nat, v2: nat)
    ensures Upsert(Upsert(rows, u, p, v1), u, p, v2) == Upsert(rows, u, p, v2)
  {
    var r1 := Upsert(rows, u, p, v1);
    match FindIndex(rows, u, p)
    case Some(k) =>
      assert r1[k] == Rating(u, p, v1);
      assert FindIndex(r1, u, p) == Some(k);
    case None =>
      assert r1[|rows|] == Rating(u, p, v1);
      assert FindIndex(r1, u, p) == Some(|rows|);
      assert r1[|rows| := Rating(u, p, v2)] == rows + [Rating(u, p, v2)];
  }

  /** Repeating an accepted rating with the same value leaves the post's average and count as they were. */
  lemma RepeatedRateKeepsCache(rows: seq<Rating>, post: Post, u: UserId, p: PostId, v: nat)
    ensures var r1 := Upsert(rows, u, p, v);
      var once := Recompute(post, r1, p);
      Upsert(r1, u, p, v) == r1 &&
      Recompute(once, Upsert(r1, u, p, v), p) == once
  {
    UpsertOverwrites(rows, u, p, v, v);
  }

  // ---------------------------------------------------------------------------
  // The invariant
  // ---------------------------------------------------------------------------

  /** A new post agrees with the table as long as no row refers to its id. */
  lemma NewPostAgrees(rows: seq<Rating>, p: PostId, title: Option<string>, content: Option<string>)
    requires forall i :: 0 <= i < |rows| ==> rows[i].post != p
    ensures CacheAgrees(NewPost(title, content), rows, p)
  {
  }

  /** Adding a post under a fresh id keeps the database consistent. */
  lemma CreatePostKeepsConsistent(posts: map<PostId, Post>, rows: seq<Rating>, id: PostId,
                                  title: Option<string>, content: Option<string>)
    requires Consistent(posts, rows) && id !in posts
    ensures Consistent(posts[id := NewPost(title, content)], rows)
  {
    NewPostAgrees(rows, id, title, content);
  }

  /**
   * An accepted rating keeps the database consistent: the upsert keeps one
   * row per pair, and recomputing the rated post's cache makes it agree
   * again while every other post's ratings, and so its cache, are untouched.
   */
  lemma RateKeepsConsistent(posts: map<PostId, Post>, rows: seq<Rating>, u: UserId, p: PostId, v: nat)
    requires Consistent(posts, rows) && p in posts && Accepts(v)
    ensures var r := Upsert(rows, u, p, v);
      Consistent(posts[p := Recompute(posts[p], r, p)], r)
  {
    var r := Upsert(rows, u, p, v);
    var posts' := posts[p := Recompute(posts[p], r, p)];
    UpsertSingleRow(rows, u, p, v);
    forall i | 0 <= i < |r|
      ensures r[i].post in posts' && Accepts(r[i].rate)
    {
      if i < |rows| && !IsFor(rows[i], u, p) {
        assert r[i] == rows[i];
      }
    }
    forall q | q in posts'
      ensures CacheAgrees(posts'[q], r, q)
    {
      if q != p {
        UpsertKeepsOtherPosts(rows, u, p, v, q);
        assert posts'[q] == posts[q];
      }
    }
  }

  /** In a consistent database every cached average lies in 0 .. 5 and fits its column. */
  lemma ConsistentAveragesInRange(posts: map<PostId, Post>, rows: seq<Rating>, p: PostId)
    requires Consistent(posts, rows) && p in posts
    ensures 0.0 <= posts[p].ratingAvg <= 5.0 && FitsRatingAvg(posts[p].ratingAvg)
  {
    MeanInRange(rows, p);
  }

  // ---------------------------------------------------------------------------
  // The database
  // ---------------------------------------------------------------------------

  /** The two tables, with the ids handed out to new posts. */
  class Database {
    var posts: map<PostId, Post>
    var ratings: seq<Rating>
    var nextPostId: PostId

    ghost predicate Valid()
      reads this
    {
      Consistent(posts, ratings) && forall p :: p in posts ==> p < nextPostId
    }

    constructor ()
      ensures Valid()
      ensures posts == map[] && ratings == []
    {
      posts := map[];
      ratings := [];
      nextPostId := 1;
    }

    /** `Post.objects.create(title=..., content=...)`: a post with default aggregates. */
    method CreatePost(title: Option<string>, content: Option<string>) returns (id: PostId)
      requires Valid()
      modifies this
      ensures Valid()
      ensures id !in old(posts) && posts == old(posts)[id := NewPost(title, content)]
      ensures ratings == old(ratings)
    {
      id := nextPostId;
      CreatePostKeepsConsistent(posts, ratings, id, title, content);
      posts := posts[id := NewPost(title, content)];
      nextPostId := nextPostId + 1;
    }

    /**
     * `rate(user, post, rate_num)`: on an accepted value, upsert the row
     * and write the post's recomputed average and count; otherwise change
     * nothing and return None.
     */
    method Rate(user: UserId, post: PostId, rateNum: int) returns (r: Option<Rating>)
      requires Valid() && post in posts
      modifies this
      ensures Valid() && nextPostId == old(nextPostId)
      ensures r == RateReturn(user, post, rateNum)
      ensures Accepts(rateNum) ==>
        && ratings == Upsert(old(ratings), user, post, rateNum)
        && posts == old(posts)[post := Recompute(old(posts)[post], ratings, post)]
      ensures !Accepts(rateNum) ==> ratings == old(ratings) && posts == old(posts)
    {
      if Accepts(rateNum) {
        var rows := Upsert(ratings, user, post, rateNum);
        var average := Mean(rows, post);
        var count := Count(rows, post);
        var updated := posts[post].(ratingAvg := average, ratingCount := count);
        assert updated == Recompute(posts[post], rows, post);
        RateKeepsConsistent(posts, ratings, user, post, rateNum);
        assert posts[post := updated].Keys == posts.Keys;
        ratings, posts := rows, posts[post := updated];
        r := Some(Rating(user, post, rateNum));
      } else {
        r := None;
      }
    }
  }
}
