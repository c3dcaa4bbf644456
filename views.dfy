/**
 * The decision flow of the rating endpoint: find the post, read the `rate`
 * entry of the request body, and hand an integer to `Database.Rate`.
 * The caller is an authenticated user; routing, permissions and the
 * response objects of the web framework are not modelled.
 */
module Views {
  import opened Models
  import opened Utils

  /** The `rate` entry of the request body, as `int()` classifies it. */
  datatype RateInput = Absent | NotAnInteger | Integer(n: int)

  /** What the endpoint answers. */
  datatype Response =
    | Empty                       // an empty success response
    | NotFound                    // no post with that id
    | BadRequest(detail: string)  // a client error with a message
    | ServerError                 // an exception the view does not catch

  const IntegerMessage: string := "Failed, the rate number should be an integer."
  const RangeMessage: string := "Failed, the rate number should be between 1 and 5."

  /**
   * The end of the view as written: it unpacks what `rate` returned into
   * `rated, rate_obj`. An accepted value gives the pair (True, row); a
   * rejected one gives None, which cannot be unpacked, so the view raises
   * and its 400 branch is never reached.
   */
  function ReplyAsWritten(r: Option<Rating>): (resp: Response)
    ensures r.Some? ==> resp == Empty
    ensures r.None? ==> resp == ServerError
    ensures resp != BadRequest(RangeMessage)
  {
    match r
    case Some(_) => Empty
    case None => ServerError
  }

  /** Every rejected value makes the view as written fail instead of answering 400. */
  lemma RejectedRateFailsAsWritten(u: UserId, p: PostId, n: int)
    requires !Accepts(n)
    ensures RateReturn(u, p, n) == None
    ensures ReplyAsWritten(RateReturn(u, p, n)) == ServerError
    ensures Reply(RateReturn(u, p, n)) == BadRequest(RangeMessage)
  {
  }

  /**
   * The end of the view as intended, that is with `rate` returning the pair
   * (False, None) on rejection: success is empty, rejection is a 400 with
   * the range message.
   */
  function Reply(r: Option<Rating>): (resp: Response)
    ensures resp == Empty <==> r.Some?
    ensures r.None? ==> resp == BadRequest(RangeMessage)
  {
    match r
    case Some(_) => Empty
    case None => BadRequest(RangeMessage)
  }

  /**
   * `rate_post(request, post_id)`: not found before anything else; no
   * `rate` entry gives an empty success without rating; a value `int()`
   * rejects gives a 400; an integer is rated, and the reply says whether it
   * was accepted. Only an accepted integer changes the database.
   */
  method RatePost(db: Database, user: UserId, postId: PostId, input: RateInput) returns (resp: Response)
    requires db.Valid()
    modifies db
    ensures db.Valid() && db.nextPostId == old(db.nextPostId)
    ensures postId !in old(db.posts) ==> resp == NotFound
    ensures postId in old(db.posts) && input.Absent? ==> resp == Empty
    ensures postId in old(db.posts) && input.NotAnInteger? ==> resp == BadRequest(IntegerMessage)
    ensures postId in old(db.posts) && input.Integer? ==>
      resp == (if Accepts(input.n) then Empty else BadRequest(RangeMessage))
    ensures postId in old(db.posts) && input.Integer? && Accepts(input.n) ==>
      && db.ratings == Upsert(old(db.ratings), user, postId, input.n)
      && db.posts == old(db.posts)[postId := Recompute(old(db.posts)[postId], db.ratings, postId)]
    ensures !(postId in old(db.posts) && input.Integer? && Accepts(input.n)) ==>
      db.ratings == old(db.ratings) && db.posts == old(db.posts)
  {
    if postId !in db.posts {
      return NotFound;
    }
    match input
    case Absent =>
      resp := Empty;
    case NotAnInteger =>
      resp := BadRequest(IntegerMessage);
    case Integer(n) =>
      var r := db.Rate(user, postId, n);
      resp := Reply(r);
  }
}
