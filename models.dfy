/**
 * The two tables of the rating app: posts, with a cached rating average and
 * count, and ratings, one row per star value a user gave a post.
 */
module Models {

  datatype Option<T> = None | Some(value: T)

  type UserId = nat
  type PostId = nat

  /**
   * A post row. `title` and `content` are nullable text columns;
   * `ratingAvg` and `ratingCount` are the cached aggregates of the post's
   * ratings. The average is kept as an exact rational (the column is a
   * fixed-point decimal, see FitsRatingAvg).
   */
  datatype Post = Post(
    title: Option<string>,
    content: Option<string>,
    ratingAvg: real,
    ratingCount: nat
  )

  /**
   * A rating row: `owner` gave `post` the star value `rate`. The column is a
   * non-negative small integer; nothing in the schema makes the pair
   * (owner, post) unique.
   */
  datatype Rating = Rating(owner: UserId, post: PostId, rate: nat)

  /** A post as created with only title and content: both aggregates at their default 0. */
  function NewPost(title: Option<string>, content: Option<string>): Post
  {
    Post(title, content, 0.0, 0)
  }

  const UntitledPost: string := "Untitled Post"

  /** The display string of a post: its title when it has a non-empty one. */
  function Display(p: Post): (s: string)
    ensures s != []
    ensures p.title.Some? && p.title.value != [] ==> s == p.title.value
    ensures p.title.None? || p.title.value == [] ==> s == UntitledPost
  {
    match p.title
    case Some(t) => if t != [] then t else UntitledPost
    case None => UntitledPost
  }

  /** The declared choices of the `rate` column, with their labels. */
  const StarConversion: seq<(nat, string)> :=
    [(1, "One"), (2, "Two"), (3, "Three"), (4, "Four"), (5, "Five")]

  predicate IsStarChoice(n: int)
  {
    exists i :: 0 <= i < |StarConversion| && StarConversion[i].0 == n
  }

  /** The declared star choices are exactly 1 through 5. */
  lemma StarChoicesAreOneToFive(n: int)
    ensures IsStarChoice(n) <==> 1 <= n <= 5
  {
    if 1 <= n <= 5 {
      assert StarConversion[n - 1].0 == n;
    }
  }

  /** The average column: a decimal of at most 6 digits, 3 of them after the point. */
  const RatingAvgMaxDigits: nat := 6
  const RatingAvgDecimalPlaces: nat := 3

  function Pow10(k: nat): nat
  {
    if k == 0 then 1 else 10 * Pow10(k - 1)
  }

  /**
   * A value whose integer part fits the column's
   * RatingAvgMaxDigits - RatingAvgDecimalPlaces integer digits.
   */
  predicate FitsRatingAvg(x: real)
  {
    var bound := Pow10(RatingAvgMaxDigits - RatingAvgDecimalPlaces) as real;
    -bound < x < bound
  }
}
