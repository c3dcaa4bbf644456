/**
 * The read-only projection of a post that the listing shows: its text, its
 * cached aggregates, and the requesting user's own rating.
 */
module Serializers {
  import opened Models
  import opened Utils

  /** The user of the request in the serializer's context. */
  datatype Requester = Anonymous | Authenticated(user: UserId)

  /**
   * One projected post, with the fields `title`, `content`, `rating_avg`,
   * `rating_count` and `user_rating` of the serializer, in that order.
   */
  datatype PostRepresentation = PostRepresentation(
    title: Option<string>,
    content: Option<string>,
    ratingAvg: real,
    ratingCount: nat,
    userRating: Option<nat>
  )

  /**
   * `get_user_rating`: without a request or for an anonymous user, none;
   * otherwise the rate of that user's row for the post, if there is one.
   */
  function GetUserRating(rows: seq<Rating>, request: Option<Requester>, post: PostId): (r: Option<nat>)
    ensures request.None? || request.value.Anonymous? ==> r == None
    ensures request.Some? && request.value.Authenticated? ==>
      (r.Some? <==> exists i :: 0 <= i < |rows| && IsFor(rows[i], request.value.user, post))
    ensures r.Some? ==>
      && request.Some? && request.value.Authenticated?
      && exists i :: 0 <= i < |rows| && rows[i] == Rating(request.value.user, post, r.value)
  {
    match request
    case Some(Authenticated(u)) => Lookup(rows, u, post)
    case _ => None
  }

  /** In a table with one row per pair, the user's rating is the rate of their (only) row. */
  lemma UserRatingIsTheRow(rows: seq<Rating>, u: UserId, post: PostId, i: nat)
    requires Unique(rows) && i < |rows| && IsFor(rows[i], u, post)
    ensures GetUserRating(rows, Some(Authenticated(u)), post) == Some(rows[i].rate)
  {
    var r := GetUserRating(rows, Some(Authenticated(u)), post);
    var j :| 0 <= j < |rows| && rows[j] == Rating(u, post, r.value);
    assert !(i < j) && !(j < i);
  }

  /** After an accepted rating, the user sees exactly the value they gave; every other user's view is unchanged. */
  lemma RatedValueIsShown(rows: seq<Rating>, u: UserId, p: PostId, v: nat, u': UserId, p': PostId)
    ensures GetUserRating(Upsert(rows, u, p, v), Some(Authenticated(u)), p) == Some(v)
    ensures u' != u || p' != p ==>
      GetUserRating(Upsert(rows, u, p, v), Some(Authenticated(u')), p') == GetUserRating(rows, Some(Authenticated(u')), p')
  {
    if u' != u || p' != p {
      UpsertKeepsOthers(rows, u, p, v, u', p');
    }
  }

  /**
   * The projection of post `id`: the stored text and cached aggregates as
   * they are, and the requester's own rating, absent for an anonymous
   * request or a user who has not rated the post.
   */
  function Serialize(post: Post, id: PostId, rows: seq<Rating>, request: Option<Requester>): (s: PostRepresentation)
    ensures s.title == post.title && s.content == post.content
    ensures s.ratingAvg == post.ratingAvg && s.ratingCount == post.ratingCount
    ensures request.None? || request.value.Anonymous? ==> s.userRating == None
    ensures s.userRating.Some? ==>
      && request.Some? && request.value.Authenticated?
      && exists i :: 0 <= i < |rows| && rows[i] == Rating(request.value.user, id, s.userRating.value)
    ensures request.Some? && request.value.Authenticated? ==>
      (s.userRating.None? <==> forall i :: 0 <= i < |rows| ==> !IsFor(rows[i], request.value.user, id))
  {
    PostRepresentation(post.title, post.content, post.ratingAvg, post.ratingCount,
                       GetUserRating(rows, request, id))
  }

  /**
   * In a consistent database the listing shows, for each post, the mean and
   * number of its ratings, an average within 0 .. 5, and the requester's
   * own rating.
   */
  lemma ListingShowsRecomputation(posts: map<PostId, Post>, rows: seq<Rating>, id: PostId, request: Option<Requester>)
    requires Consistent(posts, rows) && id in posts
    ensures var s := Serialize(posts[id], id, rows, request);
      && s.ratingAvg == Mean(rows, id) && s.ratingCount == Count(rows, id)
      && 0.0 <= s.ratingAvg <= 5.0
      && s.title == posts[id].title && s.content == posts[id].content
      && s.userRating == GetUserRating(rows, request, id)
  {
    ConsistentAveragesInRange(posts, rows, id);
  }
}
