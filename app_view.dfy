/**
 * The view state of the `App` component and the handlers that change it:
 * the search box, the sort controls, the favorites controls, the
 * pagination buttons, the two halves of `fetchPosts`, and the push-channel
 * events. Each React `useState` slot is a field; each handler is a method
 * whose `modifies` clause names the slots its `set…` calls write, so every
 * other slot is unchanged by construction.
 */
module AppView {
  import opened Wrappers
  import opened Feed
  import opened Favorites
  import opened Preferences

  /** The Previous button's update `Math.max(1, p - 1)`. */
  function PreviousPage(p: int): (r: int)
    ensures r >= 1
    ensures r <= p || p < 1
    ensures p > 1 ==> r == p - 1
    ensures p <= 1 ==> r == 1
  {
    if p - 1 > 1 then p - 1 else 1
  }

  /** The Next button's update `Math.min(totalPages, p + 1)`. */
  function NextPage(p: int, totalPages: int): (r: int)
    ensures r <= totalPages
    ensures r <= p + 1
    ensures p < totalPages ==> r == p + 1
    ensures p >= totalPages ==> r == totalPages
  {
    if totalPages < p + 1 then totalPages else p + 1
  }

  /**
   * Starting inside `[1, totalPages]`, both buttons keep the page there.
   */
  lemma {:induction false} NavigationStaysInRange(p: int, totalPages: int)
    requires 1 <= p <= totalPages
    ensures 1 <= PreviousPage(p) <= totalPages
    ensures 1 <= NextPage(p, totalPages) <= totalPages
  {
  }

  /** The request the first render's `fetchPosts` sends, whatever the state. */
  const InitialRequest := Request("", CreatedAt, Desc, 1)

  const NoFavoritesHint := "You haven't favorited any posts yet"
  const AdjustSearchHint := "Try adjusting your search or check back later"

  class FeedView {
    var posts: seq<Post>
    var loading: bool
    var error: Option<string>
    var searchTerm: string
    /** The search text once it has been still for the debounce delay. */
    var debouncedSearch: string
    var sortBy: SortField
    var sortOrder: SortOrder
    var page: int
    var pagination: Pagination
    var favorites: seq<PostId>
    var showFavoritesOnly: bool
    var connected: bool
    var lastUpdated: Option<string>
    var stats: Option<Stats>
    var darkMode: bool
    /** What storage holds under the favorites key. */
    var favoritesStore: Stored<seq<PostId>>
    /** What storage holds under the dark-mode key. */
    var darkModeStore: Stored<bool>

    /** Every handler keeps the page number positive. */
    predicate Valid()
      reads this
    {
      page >= 1
    }

    /** The parameters `fetchPosts` of the current render sends. */
    function CurrentRequest(): Request
      reads this
    {
      Request(debouncedSearch, sortBy, sortOrder, page)
    }

    /** The `displayedPosts` memo. */
    function DisplayedPosts(): seq<Post>
      reads this
    {
      Displayed(posts, favorites, showFavoritesOnly)
    }

    /** `{error && …}`: an empty message is falsy and shows no banner. */
    predicate ErrorShown()
      reads this
    {
      error.Some? && error.value != ""
    }

    /** `{!loading && !error && …}`: the posts grid and what goes with it. */
    predicate GridShown()
      reads this
    {
      !loading && !ErrorShown()
    }

    /** `pagination.totalPages > 1 && !showFavoritesOnly`, inside the grid. */
    predicate PaginationShown()
      reads this
    {
      GridShown() && pagination.totalPages > 1 && !showFavoritesOnly
    }

    /** The hint under "No posts found", when the grid is shown and empty. */
    function EmptyStateHint(): (r: Option<string>)
      reads this
      ensures r.Some? <==> GridShown() && DisplayedPosts() == []
      ensures r.Some? ==> r.value == (if showFavoritesOnly then NoFavoritesHint else AdjustSearchHint)
    {
      if GridShown() && DisplayedPosts() == [] then
        Some(if showFavoritesOnly then NoFavoritesHint else AdjustSearchHint)
      else None
    }

    /**
     * The first render together with the mount effect that applies and
     * saves the theme. The mount effect that fetches is `BeginFetch`.
     */
    constructor (storedFavorites: Stored<seq<PostId>>, storedDarkMode: Stored<bool>, prefersDark: Option<bool>)
      ensures Valid()
      ensures posts == [] && loading && error == None
      ensures searchTerm == "" && debouncedSearch == "" && sortBy == CreatedAt && sortOrder == Desc && page == 1
      ensures CurrentRequest() == InitialRequest
      ensures pagination == InitialPagination
      ensures favorites == InitialFavorites(storedFavorites) && favoritesStore == storedFavorites
      ensures !showFavoritesOnly && !connected && lastUpdated == None && stats == None
      ensures darkMode == InitialDarkMode(storedDarkMode, prefersDark) && darkModeStore == Saved(darkMode)
    {
      posts := [];
      loading := true;
      error := None;
      searchTerm := "";
      debouncedSearch := "";
      sortBy := CreatedAt;
      sortOrder := Desc;
      page := 1;
      pagination := InitialPagination;
      favorites := InitialFavorites(storedFavorites);
      showFavoritesOnly := false;
      connected := false;
      lastUpdated := None;
      stats := None;
      darkMode := InitialDarkMode(storedDarkMode, prefersDark);
      favoritesStore := storedFavorites;
      darkModeStore := Saved(darkMode);
    }

    /** Typing in the search box: `setSearchTerm(value); setPage(1)`. */
    method EditSearch(text: string)
      requires Valid()
      modifies this`searchTerm, this`page
      ensures Valid()
      ensures searchTerm == text && page == 1
      ensures CurrentRequest() != old(CurrentRequest()) <==> old(page) != 1
    {
      searchTerm := text;
      page := 1;
    }

    /** The debounce delay elapses with the search text unchanged. */
    method DebounceSettled()
      requires Valid()
      modifies this`debouncedSearch
      ensures Valid()
      ensures debouncedSearch == searchTerm
      ensures CurrentRequest() == old(CurrentRequest()).(search := searchTerm)
    {
      debouncedSearch := searchTerm;
    }

    /** Choosing a sort field: `setSortBy(value); setPage(1)`. */
    method SelectSortField(field: SortField)
      requires Valid()
      modifies this`sortBy, this`page
      ensures Valid()
      ensures sortBy == field && page == 1
      ensures CurrentRequest() == old(CurrentRequest()).(sortBy := field, page := 1)
    {
      sortBy := field;
      page := 1;
    }

    /** The order button: desc becomes asc and anything else desc; the page is kept. */
    method FlipSortOrder()
      requires Valid()
      modifies this`sortOrder
      ensures Valid()
      ensures sortOrder != old(sortOrder)
      ensures page == old(page) && searchTerm == old(searchTerm) && sortBy == old(sortBy)
    {
      sortOrder := if sortOrder == Desc then Asc else Desc;
    }

    /** The favorites-only button: a display change only, so no fetch follows. */
    method ToggleFavoritesOnly()
      requires Valid()
      modifies this`showFavoritesOnly
      ensures Valid()
      ensures showFavoritesOnly == !old(showFavoritesOnly)
      ensures CurrentRequest() == old(CurrentRequest())
    {
      showFavoritesOnly := !showFavoritesOnly;
    }

    /** A card's star: toggle the id and save the new list. */
    method ToggleFavorite(id: PostId)
      requires Valid()
      modifies this`favorites, this`favoritesStore
      ensures Valid()
      ensures favorites == Toggle(old(favorites), id)
      ensures favoritesStore == Saved(favorites)
      ensures InitialFavorites(favoritesStore) == favorites
    {
      favorites := Toggle(favorites, id);
      favoritesStore := Saved(favorites);
    }

    /** The theme button: flip the flag; the theme effect saves it. */
    method ToggleDarkMode()
      requires Valid()
      modifies this`darkMode, this`darkModeStore
      ensures Valid()
      ensures darkMode == !old(darkMode) && darkModeStore == Saved(darkMode)
      ensures forall prefersDark :: InitialDarkMode(darkModeStore, prefersDark) == darkMode
    {
      darkMode := !darkMode;
      darkModeStore := Saved(darkMode);
    }

    /**
     * A press of Previous. The button exists only while the pagination
     * bar is shown and is disabled without `hasPrev`; otherwise nothing happens.
     */
    method ClickPrevious()
      requires Valid()
      modifies this`page
      ensures Valid()
      ensures old(PaginationShown() && pagination.hasPrev) ==> page == PreviousPage(old(page))
      ensures !old(PaginationShown() && pagination.hasPrev) ==> page == old(page)
    {
      if PaginationShown() && pagination.hasPrev {
        page := PreviousPage(page);
      }
    }

    /**
     * A press of Next, under the same conditions with `hasNext`. Since the
     * bar needs more than one page, the page stays positive.
     */
    method ClickNext()
      requires Valid()
      modifies this`page
      ensures Valid()
      ensures old(PaginationShown() && pagination.hasNext) ==>
                page == NextPage(old(page), pagination.totalPages) && page <= pagination.totalPages
      ensures !old(PaginationShown() && pagination.hasNext) ==> page == old(page)
    {
      if PaginationShown() && pagination.hasNext {
        page := NextPage(page, pagination.totalPages);
      }
    }

    /** The part of `fetchPosts` before the request: show loading, clear the error. */
    method BeginFetch() returns (req: Request)
      requires Valid()
      modifies this`loading, this`error
      ensures Valid()
      ensures req == CurrentRequest()
      ensures loading && error == None
    {
      loading := true;
      error := None;
      req := CurrentRequest();
    }

    /**
     * The part of `fetchPosts` after the response: on success replace the
     * posts, the pagination and the timestamp; otherwise record the error
     * message and keep the previous posts; in either case stop loading.
     * The success path does not clear `error` itself.
     */
    method CompleteFetch(resp: FetchResponse)
      requires Valid()
      modifies this`posts, this`pagination, this`lastUpdated, this`error, this`loading
      ensures Valid()
      ensures !loading
      ensures resp.Success? ==>
                posts == resp.posts && pagination == resp.pagination &&
                lastUpdated == Some(resp.lastUpdated) && error == old(error)
      ensures !resp.Success? ==>
                posts == old(posts) && pagination == old(pagination) &&
                lastUpdated == old(lastUpdated) && error == FetchError(resp)
    {
      if resp.Success? {
        posts := resp.posts;
        pagination := resp.pagination;
        lastUpdated := Some(resp.lastUpdated);
      } else {
        error := FetchError(resp);
      }
      loading := false;
    }

    /**
     * One `fetchPosts` run with no other fetch in between (the mount fetch,
     * the fetch a parameter change triggers, or Retry).
     */
    method FetchPosts(resp: FetchResponse) returns (req: Request)
      requires Valid()
      modifies this`posts, this`pagination, this`lastUpdated, this`error, this`loading
      ensures Valid()
      ensures req == CurrentRequest() && req == old(CurrentRequest())
      ensures !loading && error == FetchError(resp)
      ensures resp.Success? ==>
                posts == resp.posts && pagination == resp.pagination && lastUpdated == Some(resp.lastUpdated)
      ensures !resp.Success? ==>
                posts == old(posts) && pagination == old(pagination) && lastUpdated == old(lastUpdated)
    {
      req := BeginFetch();
      CompleteFetch(resp);
    }

    /**
     * A press of Refresh: the handler of the current render holds that
     * render's `fetchPosts`, so the request it will issue is fixed now.
     */
    method ClickRefresh() returns (req: Request)
      requires Valid()
      ensures req == CurrentRequest()
    {
      req := CurrentRequest();
    }

    /**
     * The Refresh POST has settled: when accepted, the request captured at
     * the click is issued, whatever the parameters are by now; a rejected
     * or failed POST is only logged.
     */
    method RefreshSettled(req: Request, accepted: bool) returns (refetch: Option<Request>)
      requires Valid()
      modifies this`loading, this`error
      ensures Valid()
      ensures accepted ==> refetch == Some(req) && loading && error == None
      ensures !accepted ==> refetch == None && loading == old(loading) && error == old(error)
    {
      if accepted {
        loading := true;
        error := None;
        refetch := Some(req);
      } else {
        refetch := None;
      }
    }

    /**
     * The push-channel handlers, registered once on mount. `connect` and
     * `disconnect` set the indicator, `stats` replaces the snapshot, and
     * `posts-updated` stamps the clock and starts the fetch of the first
     * render, whose parameters are the initial ones.
     */
    method OnSocketEvent(e: SocketEvent) returns (refetch: Option<Request>)
      requires Valid()
      modifies this`connected, this`stats, this`lastUpdated, this`loading, this`error
      ensures Valid()
      ensures e.Connect? ==> connected
      ensures e.Disconnect? ==> !connected
      ensures !e.Connect? && !e.Disconnect? ==> connected == old(connected)
      ensures e.StatsPushed? ==> stats == Some(e.stats)
      ensures !e.StatsPushed? ==> stats == old(stats)
      ensures e.PostsUpdated? ==>
                lastUpdated == Some(e.now) && refetch == Some(InitialRequest) && loading && error == None
      ensures !e.PostsUpdated? ==>
                lastUpdated == old(lastUpdated) && refetch == None && loading == old(loading) && error == old(error)
    {
      refetch := None;
      match e
      case Connect =>
        connected := true;
      case Disconnect =>
        connected := false;
      case PostsUpdated(now) =>
        lastUpdated := Some(now);
        loading := true;
        error := None;
        refetch := Some(InitialRequest);
      case StatsPushed(s) =>
        stats := Some(s);
    }

    /**
     * The push-channel handlers as their registration evidently intends:
     * `posts-updated` re-runs the fetch of the current parameters.
     */
    method OnSocketEventIntended(e: SocketEvent) returns (refetch: Option<Request>)
      requires Valid()
      modifies this`connected, this`stats, this`lastUpdated, this`loading, this`error
      ensures Valid()
      ensures e.Connect? ==> connected
      ensures e.Disconnect? ==> !connected
      ensures !e.Connect? && !e.Disconnect? ==> connected == old(connected)
      ensures e.StatsPushed? ==> stats == Some(e.stats)
      ensures !e.StatsPushed? ==> stats == old(stats)
      ensures e.PostsUpdated? ==>
                lastUpdated == Some(e.now) && refetch == Some(old(CurrentRequest())) && loading && error == None
      ensures !e.PostsUpdated? ==>
                lastUpdated == old(lastUpdated) && refetch == None && loading == old(loading) && error == old(error)
    {
      refetch := None;
      match e
      case Connect =>
        connected := true;
      case Disconnect =>
        connected := false;
      case PostsUpdated(now) =>
        lastUpdated := Some(now);
        var req := BeginFetch();
        refetch := Some(req);
      case StatsPushed(s) =>
        stats := Some(s);
    }
  }

  /** A view on page 3 of results sorted by creation time. */
  method ViewOnPageThree() returns (view: FeedView)
    ensures fresh(view) && view.Valid()
    ensures view.CurrentRequest() == Request("claude", CreatedAt, Desc, 3)
    ensures view.PaginationShown() && view.pagination == Pagination(60, 3, true, true)
  {
    view := new FeedView(Missing, Missing, None);
    view.EditSearch("claude");
    view.DebounceSettled();
    var threePages := Pagination(60, 3, true, true);
    var _ := view.FetchPosts(Success([], threePages, "2026-01-01T00:00:00Z"));
    view.ClickNext();
    var _ := view.FetchPosts(Success([], threePages, "2026-01-01T00:05:00Z"));
    view.ClickNext();
  }

  /**
   * As written, a `posts-updated` event on page 3 of a search refetches
   * the unfiltered first page: the handler holds the first render's
   * `fetchPosts`.
   */
  method PushRefetchAsWritten() returns (before: Request, refetch: Option<Request>)
    ensures before == Request("claude", CreatedAt, Desc, 3)
    ensures refetch == Some(Request("", CreatedAt, Desc, 1)) && refetch != Some(before)
  {
    var view := ViewOnPageThree();
    before := view.CurrentRequest();
    refetch := view.OnSocketEvent(PostsUpdated("2026-01-01T00:10:00Z"));
  }

  /**
   * Refresh pressed on page 3, Previous pressed while its POST is pending:
   * the refetch still asks for page 3, not the page 2 now shown.
   */
  method RefreshAfterPrevious() returns (shown: Request, refetch: Option<Request>)
    ensures shown == Request("claude", CreatedAt, Desc, 2)
    ensures refetch == Some(Request("claude", CreatedAt, Desc, 3))
  {
    var view := ViewOnPageThree();
    var req := view.ClickRefresh();
    view.ClickPrevious();
    shown := view.CurrentRequest();
    refetch := view.RefreshSettled(req, true);
  }

  /** With the intended handler the same event refetches the page being shown. */
  method PushRefetchIntended() returns (before: Request, refetch: Option<Request>)
    ensures before == Request("claude", CreatedAt, Desc, 3)
    ensures refetch == Some(before)
  {
    var view := ViewOnPageThree();
    before := view.CurrentRequest();
    refetch := view.OnSocketEventIntended(PostsUpdated("2026-01-01T00:10:00Z"));
  }

  /**
   * A failed fetch shows the server's message and keeps the query, so
   * Retry sends the same request again.
   */
  method RetryAfterRemoteError() returns (first: Request, shownError: Option<string>, bannerShown: bool, retried: Request)
    ensures first == retried == Request("claude", Upvotes, Desc, 1)
    ensures shownError == Some("db down") && bannerShown
  {
    var view := new FeedView(Missing, Missing, Some(false));
    view.EditSearch("claude");
    view.DebounceSettled();
    view.SelectSortField(Upvotes);
    first := view.FetchPosts(Failure(Some("db down")));
    shownError, bannerShown := view.error, view.ErrorShown();
    retried := view.FetchPosts(NotOk);
  }

  /** An empty first page outside favorites-only shows the search hint. */
  method EmptyResultHint() returns (hint: Option<string>)
    ensures hint == Some(AdjustSearchHint)
  {
    var view := new FeedView(Missing, Missing, None);
    var _ := view.FetchPosts(Success([], Pagination(0, 0, false, false), "2026-01-01T00:00:00Z"));
    hint := view.EmptyStateHint();
  }
}
