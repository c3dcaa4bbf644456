# Post rating: upsert and recompute

A model of the rating core of a small posts backend. Authenticated users
give a post a star value. The value is checked to lie in 0 .. 5. The
user's rating row for the post is then updated in place, or created when
there is none. Finally the post's cached `rating_avg` and `rating_count`
are recomputed from all the ratings of that post and written back.

The model keeps the two tables of a `Database` object (`Utils.Database`):

- `posts`, a map from post id to a `Post` value, with its cached average
  and count;
- `ratings`, a sequence of `Rating` rows in table order.

Nothing in the schema makes (owner, post) unique, so the rating table is a
plain sequence. One row per pair is part of the invariant
`Utils.Consistent`. That invariant also requires every cache to equal the
recomputation (`Utils.Mean`, `Utils.Count`) over the table. `Database.Rate`
and `Database.CreatePost` keep it. The average is an exact `real`.

Modules, one per source file:

- `Models` (models.dfy): the `Post` and `Rating` rows, the defaults of a
  new post, `__str__`, the declared star choices and the decimal column.
- `Utils` (utils.dfy): the queries on the rating table (`FindIndex` for
  the upsert, `RatesOf`, `Count` and `Mean` for the aggregates, `Lookup`
  for the serializer), the upsert as a function on the table, the
  invariant and its lemmas, and the `Database` class with `Rate`.
- `Views` (views.dfy): the decision flow of `rate_post` over an abstract
  `Response`.
- `Serializers` (serializers.dfy): `get_user_rating` and the projection of
  a post.
- `Scenarios` (scenarios.dfy): the rating scenarios of `app/tests.py` and
  the boundary values, proved from the contracts of `Rate` and `RatePost`.

Where the documentation and the code differ, the model follows the code:

- The code accepts 0 (the guard is `0 <= rate_num <= 5`). The declared
  choices of the column are 1 .. 5 (`Models.StarChoicesAreOneToFive`), and
  the view's message says "between 1 and 5". Django does not check
  `choices` on `update_or_create`, so a 0 is stored.
- On rejection `rate` does not return `(False, _)`. It falls off its end
  and returns None. See "## Findings".

## Model

| member | source | states |
|---|---|---|
| Models.Display | app/models.py:24-25 | the display string is never empty; it is the title when the title is present and non-empty, else "Untitled Post" |
| Models.StarChoicesAreOneToFive | app/models.py:29-35 | a value is a declared star choice iff it lies in 1 .. 5 (so 0 is accepted by `rate` but is not a choice) |
| Utils.FindIndex | app/utils.py:20 | the row `update_or_create` looks up: the first row for (owner, post), or none when no row has that pair |
| Utils.Lookup | app/serializers.py:22 | the rate for (user, post) is present iff some row has that owner and post, and it is then the rate of such a row |
| Utils.RatesOf | app/utils.py:21-23 | the rates of the post's rows are no more than the table's rows, and there are none iff no row refers to the post |
| Utils.Count | app/utils.py:23 | the reference definition of the count that `Database.Rate` is stated against: the number of the post's rows, at most the table size, 0 iff no row refers to the post |
| Utils.Average | app/utils.py:21-22 | the average of no values is 0; otherwise it is the value that, multiplied by the number of values, gives their total |
| Utils.Mean | app/utils.py:21-22 | the reference definition of the average that `Database.Rate` is stated against: 0 when the post has no rating (the `or 0.0`), otherwise the value that, multiplied by the count, gives the sum of the post's rates |
| Utils.Recompute | app/utils.py:21-24 | the recomputed post's average and count agree with the table, and its title and content are unchanged; its count is 0 iff no row refers to the post, and its average is then 0 |
| Utils.Upsert | app/utils.py:20 | the table grows by one row exactly when the pair had no row; rows of other pairs keep their place and value; an appended row is the new rating; afterwards the pair reads the new rate |
| Utils.RateReturn | app/utils.py:19-26 | `rate` returns a row iff 0 <= rate_num <= 5, with the given owner, post and rate; otherwise it returns None |
| Utils.UpsertSingleRow | app/utils.py:20 | on a table with one row per pair, after the upsert there is exactly one row for (user, post), it holds the new rate, and the table still has one row per pair |
| Utils.UpsertKeepsOthers | app/utils.py:20 | every other (user', post') pair reads the same rate, or none, as before |
| Utils.UpsertKeepsOtherPosts | app/utils.py:20-25 | the ratings of every other post are unchanged, so only the rated post's aggregates can change |
| Utils.UpsertCount | app/utils.py:20-24 | the post's rating count rises by one iff the user had not rated it, otherwise it is unchanged; it is at least 1 afterwards |
| Utils.UpsertSum | app/utils.py:20-22 | the sum of the post's rates loses the user's old rate (0 if none) and gains the new one, so the recomputation equals a running sum and count |
| Utils.FirstRatingOfUnratedPost | app/utils.py:20-24 | on any table with no row for the post, a first rating gives it count 1 and an average equal to that rate |
| Utils.UpsertOverwrites | app/utils.py:20 | rating the same pair twice leaves exactly the table of the second rating alone |
| Utils.RepeatedRateKeepsCache | app/tests.py:73-87 | repeating an accepted rating with the same value leaves the table, the average and the count as after the first |
| Utils.MeanInRange | app/utils.py:21-22 | the mean of accepted rates (0 when there are none) lies in 0 .. 5 and fits the integer digits of the average column |
| Utils.NewPostAgrees | app/models.py:18-19 | a new post's defaults, average 0 and count 0, equal the recomputation over a table with no row for it |
| Utils.CreatePostKeepsConsistent | app/models.py:15-19 | adding a post with default aggregates under a fresh id keeps the invariant |
| Utils.RateKeepsConsistent | app/utils.py:19-25 | an accepted rating followed by the recompute of the rated post keeps the invariant: one row per pair, every row's post exists and its rate is accepted, every cache equals its recomputation |
| Utils.ConsistentAveragesInRange | app/models.py:18 | in a consistent database every cached average lies in 0 .. 5 and fits the decimal column's integer digits |
| Utils.Database.CreatePost | app/models.py:15-19 | a new post under a fresh id with average 0 and count 0; the rating table is unchanged; the invariant holds |
| Utils.Database.Rate | app/utils.py:6-26 | on 0 <= rate_num <= 5: the table becomes the upsert, the post's average and count become the recomputation over the whole table, other posts are unchanged, and the row is returned; otherwise nothing changes and None is returned; the invariant holds either way |
| Views.ReplyAsWritten | app/views.py:46-51 | as written, unpacking what `rate` returned: success for a row, an uncaught error for None; it never yields the range message |
| Views.RejectedRateFailsAsWritten | app/views.py:46-51 | for every rejected value `rate` returns None, the view as written fails with an uncaught error, and the intended view answers 400 with the range message |
| Views.Reply | app/views.py:46-53 | the reply with `rate` returning (False, None) on rejection: empty success iff accepted, otherwise 400 with the range message |
| Views.RatePost | app/views.py:22-53 | unknown post: not found; no `rate` entry: empty success; a non-integer: 400 with the integer message; an integer: empty success iff in 0 .. 5, else 400 with the range message (corrected reply, see ## Findings); only an accepted integer changes the database, exactly as `Database.Rate` does |
| Serializers.GetUserRating | app/serializers.py:15-24 | none without a request or for an anonymous user; for an authenticated user, a rate iff they have a row for the post, and then the rate of one of their rows |
| Serializers.UserRatingIsTheRow | app/serializers.py:22-23 | with one row per pair, the returned rate is that of the user's row for the post |
| Serializers.RatedValueIsShown | app/serializers.py:22-23 | after an accepted rating the user sees the rate they gave; every other user and post reads as before |
| Serializers.Serialize | app/serializers.py:8-13 | the projection carries the post's title, content, cached average and count unchanged; the user rating is absent without a request or for an anonymous user, and for an authenticated user it is absent iff they have no row for the post, else the rate of one of their rows |
| Serializers.ListingShowsRecomputation | app/serializers.py:13 | the projection of a post in a consistent database carries its title, content, the mean and number of its ratings (an average in 0 .. 5) and the requester's rating |
| Scenarios.FirstRating | app/tests.py:56-71 | on an empty rating table, as in the test, a first rating yields one row, average equal to the rate and count 1 |
| Scenarios.SecondRating | app/tests.py:142-160 | a second user's rating is appended; the average is the mean of both and the count 2 |
| Scenarios.SameUserRatesTwice | app/tests.py:35-87 | one user rates 2 twice: both replies succeed, and the post reads (2, 1) after each |
| Scenarios.TwoUsersRate | app/tests.py:89-160 | two users rate 2 and then 4: both succeed, and the post reads (2, 1) and then (3, 2) |
| Scenarios.AcceptedBoundaries | app/utils.py:19 | 0 and 5 are both accepted; the second replaces the first, so the post reads (5, 1) |
| Scenarios.RejectedBoundaries | app/views.py:33-51 | -1 and 6 get the range message (corrected reply, see ## Findings) and leave the post unrated with (0, 0) and no rows; an unknown post id is not found |

## Findings

| source | as written | input that shows it | evidently intended | confidence | as-written member | corrected member |
|---|---|---|---|---|---|---|
| app/views.py:46-51 | `rate` returns None for an out-of-range value (app/utils.py:19-26), and the view unpacks that None into `rated, rate_obj`, which raises a TypeError; the 400 branch is dead and the client gets a server error | POST `{"rate": 6}` (or -1) for an existing post | `rate` returns (False, None), so the view answers 400 with "Failed, the rate number should be between 1 and 5." | high; not executed | Views.ReplyAsWritten, with Views.RejectedRateFailsAsWritten | Views.Reply |

Nothing is written on this path either way. `Views.RatePost` uses the
corrected reply.

## Left out

- HTTP routing, URL patterns, the framework's response objects and status
  codes, and the permission classes: the caller of `RatePost` is an
  authenticated user id, and replies are the abstract `Views.Response`.
- Unauthenticated requests to the rating endpoint: they are refused by the
  framework before the view runs.
- User registration (the registration view and serializer): thin
  wrappers over the framework's user creation.
- The post listing view itself: only the projection of one post
  (`Serializers.Serialize`) is modelled, not the order of the list.
- ORM persistence, queries and transactions: the tables are a map and a
  sequence in memory. Rating rows have no id of their own. Post ids are
  handed out from 1 upwards.
- Concurrent submissions, which can lose an update between the recompute
  and the save: concurrency.
- Float and decimal behaviour: the aggregate is a float, and the column
  rounds it to 3 decimals (1, 1, 2 is stored as 1.333). The model keeps
  the exact mean.
- Models.FitsRatingAvg: checks only the 3 integer digits of the column,
  because the 3 fractional digits are the rounding left out above.
- Python's `int()` on arbitrary JSON values: the `rate` entry arrives
  classified as absent, not an integer, or an integer.
- The `created_date` and `modified_date` timestamps.
- Cascade deletion of ratings with their owner or post: it does not
  recompute the cache, so no claim is made across deletions.
- A null `rating_count`: the column allows it, but no code path writes it,
  so the count is a `nat`.
- `update_or_create` raising on duplicate rows: under the invariant there
  are none. The model updates the first row for the pair.
