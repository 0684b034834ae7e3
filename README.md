# Reddit feed view state, in Dafny

This project models the view-state logic of the single-page feed viewer in
`src/App.jsx`. The viewer shows a paginated, searchable, sortable feed of
Reddit posts, a client-side favorites list with a favorites-only filter, and
a live indicator driven by a push channel. The markup is not modelled. The
model covers the state the component keeps, the handlers that change that
state, and the two text helpers of a post card.

- `Wrappers`: the `Option` type, standing for JavaScript's `null`/`undefined`.
- `Decimal`: integer to decimal text (`page.toString()`, `${n}m ago`), with a parser that reads it back.
- `Feed`: posts, pagination, stats, the sort enums and their `<option>` values, the request a fetch sends with its query parameters, the outcome of a fetch, the error message each outcome leaves, and the push-channel events.
- `Favorites`: the `toggleFavorite` updater and the `displayedPosts` filter, as pure functions on sequences.
- `PostCard`: the 200-character excerpt and the relative-age text (`formatDate`).
- `Preferences`: the start-up values restored from storage, with their fallbacks.
- `AppView`: class `FeedView`. Each `useState` slot is a field. Each handler is a method whose `modifies` clause names exactly the slots it writes, so every other slot keeps its value. `Valid()` (page ≥ 1) is preserved by every handler. `fetchPosts` is split into `BeginFetch` (loading on, error cleared, request issued) and `CompleteFetch` (response applied), so that overlapping fetches can be written as interleavings. `FetchPosts` is one uninterrupted run. `Retry` and the mount fetch are this same run.

The network, the timers, the storage and the clock are inputs:
- A fetch's result is a `FetchResponse`: `NotOk`, `Thrown(message)`, `Success(posts, pagination, lastUpdated)` or `Failure(error)`.
- The end of the debounce delay is the `DebounceSettled` step.
- Storage reads are `Stored` values (`Missing`, `Malformed`, `Saved`).
- The age of a post is given as a millisecond difference. It is `None` when the date does not parse (`NaN`).
- The locale date string is given as text.

Points where the code behaves otherwise than one might expect, modelled as written:
- Flipping the sort order does not reset the page (line 373). Only the search box and the sort-field select do.
- A `posts-updated` push event does not refetch with the current parameters. The handler is registered once, with an empty dependency list (line 191). It therefore calls the first render's `fetchPosts`, which always requests page 1 of the unfiltered feed sorted newest first. See Findings.
- Refresh sends the request of the render in which it was pressed, once its POST is accepted. A page change made while the POST is pending is not picked up (`ClickRefresh`, `RefreshSettled`).
- No request is sequenced or cancelled. `CompleteFetch` applies whatever response arrives. Its success path does not clear `error`: the error is cleared only by the `BeginFetch` of the same run. So when fetches overlap, an earlier failure's message can outlive a later success.
- A failed fetch keeps the previous posts and pagination. The error banner hides the grid (`!loading && !error`, line 440).

## Model

| member | source | states |
|---|---|---|
| `Decimal.NatToString` | src/App.jsx:203 | a page number's text is a non-empty run of digits with no leading zero |
| `Decimal.IntToString` | src/App.jsx:40-42 | the text of a count is non-empty and starts with a minus sign exactly when the count is negative |
| `Decimal.IntToStringRoundTrip` | src/App.jsx:40-42 | the number in "`${n}m ago`" reads back as exactly `n`, negative or not |
| `Decimal.IntToStringInjective` | src/App.jsx:40-42 | two different counts never render as the same text |
| `Feed.ParseSortField` | src/App.jsx:360-370 | a select value picks a sort field only when it is that field's option value |
| `Feed.SortFieldRoundTrip` | src/App.jsx:367-369 | each sort field's option value selects that field again |
| `Feed.QueryParams` | src/App.jsx:199-205 | a request sends search, sortBy, sortOrder, page and limit=20 in that order; the sortBy value parses back to the field and sortOrder is "asc" exactly when ascending |
| `Feed.QueryParamsInjective` | src/App.jsx:199-205 | different requests send different query parameters |
| `Feed.FetchError` | src/App.jsx:208-219 | the error is absent exactly on success; non-ok status gives "Failed to fetch posts"; a thrown error gives its message; `success: false` gives `data.error` when it is a non-empty string and "Unknown error" otherwise |
| `Feed.OwnMessagesNonEmpty` | src/App.jsx:208-216 | a non-ok status or an application failure always leaves a non-empty message, so the error banner shows |
| `Favorites.RemoveAll` | src/App.jsx:234 | the filter drops every occurrence of the id, keeps every other id with its count, in order |
| `Favorites.Toggle` | src/App.jsx:231-239 | toggling flips the id's membership and nothing else's; an absent id ends up exactly once, a present one not at all; other ids keep their counts |
| `Favorites.ToggleKeepsOthersInOrder` | src/App.jsx:233-235 | the other ids keep their relative order; an absent id is appended at the end |
| `Favorites.ToggleTwice` | src/App.jsx:233-235 | toggling twice restores every id's membership, and the exact list when the id started absent |
| `Favorites.ToggleNoDuplicates` | src/App.jsx:233-235 | a list without duplicates stays without duplicates |
| `Favorites.KeepFavorites` | src/App.jsx:244 | each post appears as often as in the page if its id is a favorite and not at all otherwise, in the page's order |
| `Favorites.Displayed` | src/App.jsx:242-245 | the displayed list is never longer than the fetched page and shows nothing that was not fetched |
| `Favorites.DisplayedIsFavoritesFilter` | src/App.jsx:242-245 | filter off shows the fetched page unchanged; filter on shows an order-preserving sub-list holding exactly the loaded posts whose id is a favorite |
| `PostCard.Excerpt` | src/App.jsx:46-48 | absent or empty content gives "" and only that does; up to 200 characters are shown whole; longer content gives its first 200 characters then "...", 203 in all |
| `PostCard.RelativeAge` | src/App.jsx:32-44 | the bucket as the source computes it: minutes below 60, hours 1..23, days 1..6, and the date for an unparsable one |
| `PostCard.FormatDate` | src/App.jsx:32-44 | the date bucket shows the locale date; the minute, hour and day buckets show their count followed by "m ago", "h ago" and "d ago" |
| `PostCard.RelativeAgeBuckets` | src/App.jsx:32-44 | under 3,600,000 ms gives whole minutes; under 86,400,000 whole hours 1..23; under 604,800,000 whole days 1..6; otherwise, or for an unparsable date, the absolute date |
| `PostCard.FormatDateReadsBack` | src/App.jsx:32-44 | under a week the text is a number, a unit letter and " ago"; the letter is m under 3,600,000 ms, h under 86,400,000 and d otherwise, and the number is the difference in whole units of that letter; otherwise it is the locale date |
| `Preferences.InitialFavorites` | src/App.jsx:122-128 | the saved list, or [] when nothing is saved or it does not parse |
| `Preferences.InitialDarkMode` | src/App.jsx:133-141 | the saved flag; with none saved the platform preference; dark when reading fails |
| `AppView.PreviousPage` | src/App.jsx:471 | Previous never goes below page 1, steps back one page from above it and gives 1 from page 1 or below |
| `AppView.NextPage` | src/App.jsx:481 | Next never goes beyond totalPages and steps forward one page below it |
| `AppView.NavigationStaysInRange` | src/App.jsx:468-486 | from a page in [1, totalPages] both buttons stay in that range |
| `AppView.FeedView.CurrentRequest` | src/App.jsx:199-205 | the request the current render's `fetchPosts` sends: debounced search, sort field, sort order, page |
| `AppView.FeedView.ErrorShown` | src/App.jsx:414 | the error banner shows when an error message is set and is not empty |
| `AppView.FeedView.GridShown` | src/App.jsx:440 | the grid shows when not loading and no error banner shows |
| `AppView.FeedView.PaginationShown` | src/App.jsx:468 | the pagination bar shows inside the grid when there is more than one page and favorites-only is off |
| `AppView.FeedView.EmptyStateHint` | src/App.jsx:440-452 | the empty hint shows exactly when the grid is shown with nothing in it, with the favorites hint in favorites-only mode and the adjust-your-search hint otherwise |
| `AppView.FeedView.constructor` | src/App.jsx:114-151 | the initial state: no posts, loading, first page newest first, restored favorites and theme, theme saved |
| `AppView.FeedView.EditSearch` | src/App.jsx:348-351 | sets the search text and page 1; the request changes only if the page was not 1 |
| `AppView.FeedView.DebounceSettled` | src/App.jsx:5-12 | once the delay passes, the fetched search text becomes the typed one; nothing else in the request changes |
| `AppView.FeedView.SelectSortField` | src/App.jsx:361-364 | sets the sort field and page 1, leaving search and order |
| `AppView.FeedView.FlipSortOrder` | src/App.jsx:373 | swaps desc and asc, leaving page, search text and sort field |
| `AppView.FeedView.ToggleFavoritesOnly` | src/App.jsx:383 | flips the filter and leaves the request unchanged, so no fetch follows |
| `AppView.FeedView.ToggleFavorite` | src/App.jsx:231-239 | favorites become the toggled list, the stored list becomes the same, and a restart restores it |
| `AppView.FeedView.ToggleDarkMode` | src/App.jsx:304 | flips the theme (`setDarkMode(prev => !prev)`); the effect at lines 144-151 stores the new flag, and a restart restores it whatever the platform preference |
| `AppView.FeedView.ClickPrevious` | src/App.jsx:468-476 | with the bar shown and hasPrev, page becomes max(1, p-1); otherwise unchanged; page stays ≥ 1 |
| `AppView.FeedView.ClickNext` | src/App.jsx:468-486 | with the bar shown and hasNext, page becomes min(totalPages, p+1) ≤ totalPages; otherwise unchanged; page stays ≥ 1 |
| `AppView.FeedView.BeginFetch` | src/App.jsx:194-205 | loading on, error cleared, the request carries the current parameters |
| `AppView.FeedView.CompleteFetch` | src/App.jsx:206-223 | loading off; success replaces posts, pagination and timestamp; any other outcome records its error message and keeps them; search, sort and page untouched |
| `AppView.FeedView.FetchPosts` | src/App.jsx:194-228 | one uninterrupted fetch ends not loading, with the outcome's error (none on success), the same query, and the success payload in place |
| `AppView.FeedView.ClickRefresh` | src/App.jsx:253-255 | a press of Refresh fixes the request to be sent: the parameters of the render in which it was pressed |
| `AppView.FeedView.RefreshSettled` | src/App.jsx:255-262 | an accepted refresh starts a fetch of the request captured at the click, whatever the parameters are by then; anything else changes nothing |
| `AppView.RefreshAfterPrevious` | src/App.jsx:253-262 | Refresh on page 3, then Previous while the POST is pending: the refetch asks for page 3 although page 2 is shown |
| `AppView.FeedView.OnSocketEvent` | src/App.jsx:168-186 | connect/disconnect set the indicator; stats replace the snapshot; posts-updated stamps the clock and starts a fetch of the initial request |
| `AppView.FeedView.OnSocketEventIntended` | src/App.jsx:178-182 | as `OnSocketEvent`, but posts-updated starts a fetch of the current request |
| `AppView.RetryAfterRemoteError` | src/App.jsx:248-250 | after `{success: false, error: "db down"}` the banner shows "db down" and Retry sends the identical request |
| `AppView.EmptyResultHint` | src/App.jsx:442-452 | an empty first page outside favorites-only shows the adjust-your-search hint |
| `AppView.PushRefetchAsWritten` | src/App.jsx:161-191 | on page 3 of a search, a push event refetches page 1 of the unfiltered feed |
| `AppView.PushRefetchIntended` | src/App.jsx:178-182 | with the intended handler, the same event refetches page 3 of the same search |

## Left out

- Rendering: the JSX, SVG and CSS of the skeleton, the cards, the header, the filters and the footer. Only the conditions the view logic decides are modelled: banner, grid, empty hint and pagination bar.
- Network I/O: `fetch`, `response.json()`, the `/api/refresh` POST, and the percent-encoding done by `URLSearchParams`. Each is replaced by its outcome as an input.
- The Socket.IO connection and its reconnection policy (10 attempts, 1 s apart). Only the event handlers are modelled. Delivery after unmount is not modelled either.
- `useDebounce`'s timer. The moment the 300 ms delay passes with the text unchanged is the `DebounceSettled` step. A debounced value that is later overwritten before settling is not modelled.
- Browser environment: `localStorage`, `JSON.parse`/`JSON.stringify`, `window.matchMedia`, the `dark` class on the document, and `API_URL` host selection. Their results are `Stored` and `Option` inputs.
- Locale formatting: `new Date(...)` parsing, `toLocaleDateString`, `toLocaleTimeString` and `toLocaleString`. The difference in milliseconds and the locale date text are inputs.
- Request ordering: nothing is proved about last-write-wins. The source has no sequence number or abort. `BeginFetch`/`CompleteFetch` allow overlapping runs to be written out, but no property is claimed for them.
- React scheduling: the moment a render or an effect runs, and the batching of `set…` calls. The effect that refetches whenever `fetchPosts` changes is represented by `CurrentRequest()` changing; the model does not issue that fetch by itself.
- `console.log`/`console.error` calls.
- `PostCard.Excerpt`: counts Dafny characters. `substring` and `length` in the source count UTF-16 code units, so the two differ for text outside the Basic Multilingual Plane.
- `Feed.FetchError`: `data.error` is modelled as an optional string. A truthy non-string value, which the source would turn into text through `new Error(...)`, is not modelled.
- The shape of a server response is not validated. `Post`, `Pagination` and `Stats` are taken as well-formed records.

## Findings

| source | as written | input that shows it | evidently intended | confidence | as-written member | corrected member |
|---|---|---|---|---|---|---|
| src/App.jsx:178-191 | the `posts-updated` handler is registered once (`[]` dependencies) and calls the first render's `fetchPosts`, so it always requests search "", created_at, desc, page 1 | search "claude" on page 3, then a `posts-updated` event: the refetch asks for page 1 with no search | re-run the fetch with the parameters currently shown | high (not executed) | `AppView.FeedView.OnSocketEvent`, `AppView.PushRefetchAsWritten` | `AppView.FeedView.OnSocketEventIntended`, `AppView.PushRefetchIntended` |
