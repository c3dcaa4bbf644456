/**
 * The rating scenarios of the app's tests, and the boundary values of the
 * range check, proved from the contracts of `Database` and `RatePost`.
 */
module Scenarios {
  import opened Models
  import opened Utils
  import opened Views

  const FirstUser: UserId := 1
  const SecondUser: UserId := 2

  /** A first rating on an unrated post: one row, average and count equal to it. */
  lemma FirstRating(u: UserId, p: PostId, v: nat)
    ensures Upsert([], u, p, v) == [Rating(u, p, v)]
    ensures Mean([Rating(u, p, v)], p) == v as real && Count([Rating(u, p, v)], p) == 1
  {
    var rows := [Rating(u, p, v)];
    assert rows[1..] == [];
    assert RatesOf(rows, p) == [v] + RatesOf([], p);
    assert [v][1..] == [];
    assert Sum([v]) == v;
  }

  /** A second user's rating is appended: the mean is that of both. */
  lemma SecondRating(u1: UserId, u2: UserId, p: PostId, v1: nat, v2: nat)
    requires u1 != u2
    ensures Upsert([Rating(u1, p, v1)], u2, p, v2) == [Rating(u1, p, v1), Rating(u2, p, v2)]
    ensures Mean([Rating(u1, p, v1), Rating(u2, p, v2)], p) == (v1 + v2) as real / 2.0
    ensures Count([Rating(u1, p, v1), Rating(u2, p, v2)], p) == 2
  {
    var rows := [Rating(u1, p, v1), Rating(u2, p, v2)];
    FirstRating(u2, p, v2);
    assert rows[1..] == [Rating(u2, p, v2)];
    assert RatesOf(rows[1..], p) == [v2];
    assert RatesOf(rows, p) == [v1] + [v2];
    assert [v1, v2][1..] == [v2];
    assert Sum([v1, v2]) == v1 + v2;
  }

  /** One user rates a post 2 twice: the second rating replaces the first. */
  method SameUserRatesTwice() returns (first: Response, avg1: real, count1: nat,
                                       second: Response, avg2: real, count2: nat)
    ensures first == Empty && avg1 == 2.0 && count1 == 1
    ensures second == Empty && avg2 == 2.0 && count2 == 1
  {
    var db := new Database();
    var post := db.CreatePost(Some("test"), Some("test"));
    FirstRating(FirstUser, post, 2);
    UpsertOverwrites([], FirstUser, post, 2, 2);
    first := RatePost(db, FirstUser, post, Integer(2));
    avg1, count1 := db.posts[post].ratingAvg, db.posts[post].ratingCount;
    second := RatePost(db, FirstUser, post, Integer(2));
    avg2, count2 := db.posts[post].ratingAvg, db.posts[post].ratingCount;
  }

  /** Two users rate a post 2 and 4: the average becomes 3 over two ratings. */
  method TwoUsersRate() returns (first: Response, avg1: real, count1: nat,
                                 second: Response, avg2: real, count2: nat)
    ensures first == Empty && avg1 == 2.0 && count1 == 1
    ensures second == Empty && avg2 == 3.0 && count2 == 2
  {
    var db := new Database();
    var post := db.CreatePost(Some("test"), Some("test"));
    FirstRating(FirstUser, post, 2);
    SecondRating(FirstUser, SecondUser, post, 2, 4);
    first := RatePost(db, FirstUser, post, Integer(2));
    avg1, count1 := db.posts[post].ratingAvg, db.posts[post].ratingCount;
    second := RatePost(db, SecondUser, post, Integer(4));
    avg2, count2 := db.posts[post].ratingAvg, db.posts[post].ratingCount;
  }

  /** 0 and 5 are both accepted; the later rating replaces the earlier. */
  method AcceptedBoundaries() returns (zero: Response, five: Response, avg: real, count: nat)
    ensures zero == Empty && five == Empty
    ensures avg == 5.0 && count == 1
  {
    var db := new Database();
    var post := db.CreatePost(None, None);
    FirstRating(FirstUser, post, 0);
    UpsertOverwrites([], FirstUser, post, 0, 5);
    FirstRating(FirstUser, post, 5);
    zero := RatePost(db, FirstUser, post, Integer(0));
    five := RatePost(db, FirstUser, post, Integer(5));
    avg, count := db.posts[post].ratingAvg, db.posts[post].ratingCount;
  }

  /**
   * -1 and 6 are rejected with the range message and leave the post
   * unrated; a post that does not exist is not found.
   */
  method RejectedBoundaries() returns (minusOne: Response, six: Response, missing: Response,
                                       avg: real, count: nat, rows: nat)
    ensures minusOne == BadRequest(RangeMessage) && six == BadRequest(RangeMessage)
    ensures missing == NotFound
    ensures avg == 0.0 && count == 0 && rows == 0
  {
    var db := new Database();
    var post := db.CreatePost(None, None);
    minusOne := RatePost(db, FirstUser, post, Integer(-1));
    six := RatePost(db, FirstUser, post, Integer(6));
    missing := RatePost(db, FirstUser, post + 1, Integer(3));
    avg, count, rows := db.posts[post].ratingAvg, db.posts[post].ratingCount, |db.ratings|;
  }
}
