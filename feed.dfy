/**
 * The records the feed view exchanges with its backend: posts, pagination
 * metadata, push-channel statistics, the query a fetch sends, and the
 * outcome of a fetch as the view sees it once the network call is over.
 */
module Feed {
  import opened Wrappers
  import Decimal

  type PostId = string

  /** A post as the backend delivers it; the view never changes one. */
  datatype Post = Post(
    redditId: PostId,
    title: string,
    content: Option<string>,
    subreddit: string,
    author: string,
    url: string,
    upvotes: int,
    numComments: int,
    createdAt: string)

  /** Pagination metadata computed by the backend; `hasPrev`/`hasNext` absent read as false. */
  datatype Pagination = Pagination(total: int, totalPages: int, hasPrev: bool, hasNext: bool)

  /** The state before any fetch completes: `{ total: 0, totalPages: 0 }`. */
  const InitialPagination := Pagination(0, 0, false, false)

  /** The summary counters pushed on the `stats` channel event. */
  datatype Stats = Stats(totalPosts: int, postsLast24h: int, postsLastWeek: int)

  datatype SortField = CreatedAt | Upvotes | NumComments
  datatype SortOrder = Asc | Desc

  /** The `value` attribute of each option of the sort select. */
  function SortFieldValue(f: SortField): string
  {
    match f
    case CreatedAt => "created_at"
    case Upvotes => "upvotes"
    case NumComments => "num_comments"
  }

  /** The sort field an option value selects; other strings select none. */
  function ParseSortField(s: string): (r: Option<SortField>)
    ensures r.Some? ==> SortFieldValue(r.value) == s
  {
    if s == "created_at" then Some(CreatedAt)
    else if s == "upvotes" then Some(Upvotes)
    else if s == "num_comments" then Some(NumComments)
    else None
  }

  lemma SortFieldRoundTrip(f: SortField)
    ensures ParseSortField(SortFieldValue(f)) == Some(f)
  {
  }

  function SortOrderValue(o: SortOrder): string
  {
    if o == Asc then "asc" else "desc"
  }

  /** The parameters one call of `fetchPosts` sends. */
  datatype Request = Request(search: string, sortBy: SortField, sortOrder: SortOrder, page: int)

  /**
   * The query parameters of the request, in the order the source lists
   * them; percent-encoding of the values is not modelled.
   */
  function QueryParams(req: Request): (r: seq<(string, string)>)
    ensures |r| == 5
    ensures r[0] == ("search", req.search)
    ensures r[1].0 == "sortBy" && ParseSortField(r[1].1) == Some(req.sortBy)
    ensures r[2].0 == "sortOrder" && r[2].1 in {"asc", "desc"} && (r[2].1 == "asc" <==> req.sortOrder == Asc)
    ensures r[3] == ("page", Decimal.IntToString(req.page))
    ensures r[4] == ("limit", "20")
  {
    SortFieldRoundTrip(req.sortBy);
    [("search", req.search),
     ("sortBy", SortFieldValue(req.sortBy)),
     ("sortOrder", SortOrderValue(req.sortOrder)),
     ("page", Decimal.IntToString(req.page)),
     ("limit", "20")]
  }

  /** The query loses nothing: different requests send different parameters. */
  lemma QueryParamsInjective(a: Request, b: Request)
    requires QueryParams(a) == QueryParams(b)
    ensures a == b
  {
    assert Some(a.sortBy) == ParseSortField(QueryParams(a)[1].1) == Some(b.sortBy);
    Decimal.IntToStringInjective(a.page, b.page);
  }

  /**
   * How a fetch ended. `NotOk`: the response had a non-2xx status.
   * `Thrown`: `fetch` or `response.json()` threw, with that error's message.
   * `Success`: the body had `success` set. `Failure`: the body had `success`
   * unset, with its `error` field (None when absent or null).
   */
  datatype FetchResponse =
    | NotOk
    | Thrown(message: string)
    | Success(posts: seq<Post>, pagination: Pagination, lastUpdated: string)
    | Failure(error: Option<string>)

  const FailedToFetch := "Failed to fetch posts"
  const UnknownError := "Unknown error"

  /** The error message a completed fetch leaves in the view; None on success. */
  function FetchError(resp: FetchResponse): (r: Option<string>)
    ensures r.None? <==> resp.Success?
    ensures resp.NotOk? ==> r == Some(FailedToFetch)
    ensures resp.Thrown? ==> r == Some(resp.message)
    ensures resp.Failure? && resp.error.Some? && resp.error.value != "" ==> r == resp.error
    ensures resp.Failure? && (resp.error.None? || resp.error.value == "") ==> r == Some(UnknownError)
  {
    match resp
    case NotOk => Some(FailedToFetch)
    case Thrown(m) => Some(m)
    case Success(_, _, _) => None
    case Failure(e) => if e.Some? && e.value != "" then e else Some(UnknownError)
  }

  /**
   * Every failure the view itself words (a non-2xx status or an
   * application-level failure) carries a non-empty message, so the error
   * banner, which tests the message for truthiness, is shown for it.
   */
  lemma {:induction false} OwnMessagesNonEmpty(resp: FetchResponse)
    requires resp.NotOk? || resp.Failure?
    ensures FetchError(resp).Some? && FetchError(resp).value != ""
  {
    if resp.NotOk? {
      assert FailedToFetch[0] == 'F';
    } else {
      assert UnknownError[0] == 'U';
    }
  }

  /** The events the push channel delivers to the view. */
  datatype SocketEvent =
    | Connect
    | Disconnect
    | PostsUpdated(now: string)   // `now`: the client clock as an ISO string
    | StatsPushed(stats: Stats)
}
