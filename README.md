# Book storefront: a verified model of its handler logic

This project models the logic of a React bookstore front end in Dafny. The model covers:

- the administrator's inventory and sales table;
- the catalogue screen's state handlers, filter, sort and pagination;
- the personal page's order history and password-change form;
- the book detail dialog's rating, review, quantity, stock and price rules;
- the book card's helpers;
- the authenticated request gateway, which attaches bearer tokens, refreshes them once on a 401 and maps responses to results.

Modules, one per source file plus shared helpers:

- `Types`: the records of `src/types.ts`.
- `Text`: lowercasing, substring search, trimming and a string order.
- `Seqs`: filter and find-index.
- `Sorting`: an insertion sort over a comparator, proved stable.
- `Ratings`: the average rating.
- `Inventory`: `BookInventoryDialog.tsx`, as pure functions.
- `App`: `App.tsx`, as the class `Storefront` plus pure filter and paging functions.
- `MyPage`: `MyPage.tsx`, with the class `PasswordForm`.
- `BookDetail`: `BookDetailDialog.tsx`, with the class `DetailDialog`.
- `BookCard`: `BookCard.tsx`.
- `Gateway`: `client.ts`. The function `Run` is the specification of the whole request flow. The class `Browser` runs it step by step over a token store, a redirect target and a `fetch` oracle.

How JavaScript behaviour is modelled:

- `Array.prototype.sort` with comparator `cmp` is a stable sort under `le(a, b) := cmp(a, b) <= 0`.
- `fetch` is an oracle: the list of responses it will give, in order. An exhausted oracle is a rejected `fetch`.
- `localStorage` is a `map<string, string>`.
- Dates, order ids and the answers of the comment endpoints are parameters.

## Model

| member | source | states |
|---|---|---|
| Text.ContainsIff | src/components/BookInventoryDialog.tsx:45-48 | `includes` holds iff the query occurs at some position of the text |
| Text.TrimEmptyIff | src/components/BookDetailDialog.tsx:75 | trimming gives the empty string iff the text is all whitespace |
| Text.LexLeTotal | src/components/BookInventoryDialog.tsx:70 | the string order standing for `localeCompare` relates every pair one way or the other |
| Text.LexLeTransitive | src/App.tsx:259 | the string order is transitive |
| Seqs.Filter | src/components/BookInventoryDialog.tsx:25 | `filter` keeps exactly the elements satisfying the predicate and is no longer than its input |
| Seqs.FilterMultiset | src/components/MyPage.tsx:29 | filtering keeps each matching element as often as it occurs and drops the others |
| Seqs.FilterAppend | src/App.tsx:232 | filtering distributes over concatenation |
| Seqs.FirstIndex | src/components/BookDetailDialog.tsx:62 | `findIndex` returns -1 or an index whose element matches, and no earlier element matches |
| Sorting.Sort | src/components/BookInventoryDialog.tsx:63 | sorting is a permutation of its input |
| Sorting.SortSorted | src/components/BookInventoryDialog.tsx:63-73 | under a total, transitive comparator the sorted list is ordered |
| Sorting.SortStable | src/components/BookInventoryDialog.tsx:63 | the sort is stable: the elements of a class that pairwise compare equal leave in the order they came in |
| Ratings.AverageRating | src/components/BookDetailDialog.tsx:51-55 | the average is 0 with no ratings; otherwise average times count equals the sum |
| Ratings.SumWithin | src/components/BookCard.tsx:26 | ratings between lo and hi give a sum between lo·n and hi·n |
| Ratings.AverageWithin | src/components/BookCard.tsx:24-28 | a non-empty average of ratings between lo and hi lies between lo and hi |
| Inventory.OrdersFor | src/components/BookInventoryDialog.tsx:25 | a book's orders are exactly the ledger's orders with that book id |
| Inventory.BooksWithStats | src/components/BookInventoryDialog.tsx:23-37 | one row per book, in the same order. Each row keeps the book unchanged and holds the sums of quantity and of totalPrice over that book's orders |
| Inventory.StatsSumIsPerBook | src/components/BookInventoryDialog.tsx:28-31 | summing the rows' figures equals summing each book's order sums |
| Inventory.HitAmountUnique | src/components/BookInventoryDialog.tsx:25 | with unique ids an order contributes to exactly one listed book, or to none |
| Inventory.PerBookSumConserved | src/components/BookInventoryDialog.tsx:28-31 | with unique ids and every order on a listed book, the per-book sums add up to the ledger sum |
| Inventory.Conservation | src/components/BookInventoryDialog.tsx:76-79 | under those conditions the rows' totalSold add up to totalSoldUnits, and their totalRevenue to totalRevenueAll |
| Inventory.Totals | src/components/BookInventoryDialog.tsx:76-79 | the four cards: book count, total stock, units sold and revenue over the whole ledger; `Inventory.Conservation` and `App.PurchaseConserves` state what they keep |
| Inventory.SearchStats | src/components/BookInventoryDialog.tsx:42-50 | a row is kept iff the lower-cased query occurs in the title, the author, the genre, or the ISBN when there is one |
| Inventory.EmptySearchKeepsAll | src/components/BookInventoryDialog.tsx:42-50 | an empty query keeps every row, in order |
| Inventory.HandleSort | src/components/BookInventoryDialog.tsx:53-60 | the chosen column becomes the sort column. Choosing the current column flips the direction; choosing another starts descending |
| Inventory.HandleSortTwice | src/components/BookInventoryDialog.tsx:53-56 | clicking the current column twice restores the sort state |
| Inventory.InventoryLePreorder | src/components/BookInventoryDialog.tsx:63-73 | the table comparator is total and transitive for every column and direction |
| Inventory.SortRows | src/components/BookInventoryDialog.tsx:63-73 | the copy of the filtered rows sorted by the column comparator; its properties are stated by `Inventory.SortRowsCorrect` |
| Inventory.SortRowsCorrect | src/components/BookInventoryDialog.tsx:63-73 | the sorted table is a permutation of the filtered rows. A numeric column is non-decreasing ascending and non-increasing descending |
| Inventory.Table | src/components/BookInventoryDialog.tsx:42-73 | the rows shown: the stats of every book, searched, then sorted; its properties are stated by `Inventory.TableCorrect` |
| Inventory.TableCorrect | src/components/BookInventoryDialog.tsx:42-73 | a book's row is shown iff it matches the search, and the table is ordered by the comparator |
| Inventory.InitialTable | src/components/BookInventoryDialog.tsx:17-19 | on opening (empty query, title ascending) the table holds every book's row and runs in ascending title order |
| App.ReplaceById | src/App.tsx:426 | same length; every book with the id becomes the replacement and every other book is unchanged |
| App.ReplaceByIdFound | src/App.tsx:426-427 | replacing a listed book keeps ids unique, and `find` then returns the replacement |
| App.StockSumReplace | src/App.tsx:186-187 | replacing the book with a given id changes total stock by the difference of the two stock counts |
| App.StockSumUntouched | src/App.tsx:187 | replacing an absent id leaves total stock unchanged |
| App.PurchaseConserves | src/App.tsx:179-199 | a purchase leaves stock plus units sold unchanged, and leaves the book count unchanged |
| App.CheckedPurchaseKeepsStock | src/App.tsx:186-187 | a purchase of no more copies than the book has keeps every stock non-negative |
| App.Toggle | src/App.tsx:225 | a present id is removed and nothing else is: the result is the filter of the selection, so the other ids keep their order and repetitions. An absent id is appended at the end |
| App.ToggleTwice | src/App.tsx:224-226 | toggling an absent id twice restores the selection |
| App.AddMissing | src/App.tsx:234-235 | the old selection is kept as a prefix. Every page id ends up in the result, and each appended id is a page id not selected before. The appended ids hold no duplicates and come in page order (a subsequence of the page ids) |
| App.AppendMissing | src/App.tsx:234-236 | the `forEach`/`push` loop yields exactly that list, and the appended part has no duplicates |
| App.SelectAll | src/App.tsx:231-237 | a fully selected page is deselected, the filter of the selection keeping the off-page ids in order. Otherwise the old selection is kept in order and the page ids are added |
| App.SelectAllTwice | src/App.tsx:228-238 | after select-all the page is fully selected; a second select-all leaves exactly the ids selected off the page, in order |
| App.WithPassword | src/App.tsx:114 | only the users with that id get the new password; every other user is unchanged |
| App.CatalogueLePreorder | src/App.tsx:258-262 | the catalogue comparator is total and transitive for each sort key |
| App.FilteredBooks | src/App.tsx:250-262 | the matching books sorted by the chosen key; its properties are stated by `App.FilteredBooksCorrect` and `App.FilteredBooksStable` |
| App.FilteredBooksCorrect | src/App.tsx:250-262 | the list is a permutation of the books that match the query and genre, ordered by the key; by year it runs newest first |
| App.FilteredBooksStable | src/App.tsx:258-262 | books with the same title, year or author (the chosen key) keep their order in the book list |
| App.TotalPages | src/App.tsx:264 | the page count is the least number of 10-book pages holding n books, and it is 0 exactly for an empty list |
| App.SliceIndex | src/App.tsx:267 | `slice` reads every index as a position within the list |
| App.Page | src/App.tsx:265-268 | the slice for one page number; `App.PageWindow`, `App.JoinPagesPrefix` and `App.PagesCoverList` state its properties |
| App.PageWindow | src/App.tsx:265-268 | page p is the slice from (p-1)·10 to p·10, clipped to the list, and holds at most 10 books |
| App.JoinPagesPrefix | src/App.tsx:265-268 | pages 1 to k joined form the first k·10 books |
| App.PagesCoverList | src/App.tsx:264-268 | pages 1 to totalPages joined give back the whole list |
| App.Ids | src/App.tsx:230 | the id list has one id per book, in the same order |
| App.Storefront.constructor | src/App.tsx:84-97 | the initial state: nobody logged in, empty selection, page 1, all genres, sorted by title |
| App.Storefront.HandlePurchase | src/App.tsx:179-202 | with a user and a known book: that book's stock drops by the quantity, unclamped, and every other book is unchanged. One order with those fields is prepended to the ledger. Otherwise nothing changes |
| App.Storefront.HandleCheckedPurchase | src/App.tsx:179-202 | handlePurchase with a stock check: accepted iff a user is signed in, the book is known and the quantity is at most its stock. An accepted purchase does what handlePurchase does; a refused one changes nothing. Non-negative stock stays non-negative |
| App.Storefront.CurrentPageBooks | src/App.tsx:265-268 | the current page of the filtered list; `App.Storefront.HandleSelectAll` works on its ids |
| App.Storefront.HandleSelectBook | src/App.tsx:224-226 | the selection becomes the toggle of the id |
| App.Storefront.HandleSelectAll | src/App.tsx:228-238 | the selection becomes the select-all of the current page's ids |
| App.Storefront.HandlePasswordChange | src/App.tsx:112-117 | with a user logged in, only that user's password changes, in the list and in the current user. Otherwise nothing changes |
| App.Storefront.OnUpdateBook | src/App.tsx:425-428 | only the books with the updated id are replaced, and the dialog shows the updated book |
| App.PurchaseWalkthrough | src/components/BookDetailDialog.tsx:201-204 | with five copies at 1000, pressing + twice and buying leaves 2 in stock and one order of 3 copies for 3000, and the dialog still holds quantity 3 |
| App.OverPurchase | src/App.tsx:186-188 | the dialog keeps quantity 3 on the updated book with stock 2, breaking the stepper bound, and a second buy leaves stock -1 |
| App.CheckedOverPurchase | src/App.tsx:179-188 | under the checked purchase the same second buy is refused and stock stays 2 |
| MyPage.MyOrdersCorrect | src/components/MyPage.tsx:28-30 | every entry is the user's, and the list is a permutation of the user's orders in the ledger, newest first |
| MyPage.MyOrders | src/components/MyPage.tsx:28-30 | the user's orders, newest first; `MyPage.MyOrdersCorrect` and `MyPage.MyOrdersCounts` state its properties |
| MyPage.MyOrdersCounts | src/components/MyPage.tsx:28-30 | each of the user's orders appears in the history as often as in the whole ledger, and no other order appears |
| MyPage.CheckPasswordChange | src/components/MyPage.tsx:45-56 | each outcome holds exactly when the earlier checks pass and its own fails, in the order: current password, length at least 4, confirmation |
| MyPage.PasswordForm.constructor | src/components/MyPage.tsx:21-25 | the form starts empty, without error or success |
| MyPage.PasswordForm.HandlePasswordSubmit | src/components/MyPage.tsx:40-63 | the error is the validator's verdict. Success calls onPasswordChange exactly once with the new password and clears the three inputs. Failure leaves the inputs and makes no call |
| BookCard.HandleClick | src/components/BookCard.tsx:15-21 | in selection mode a click selects the book's id; otherwise it opens the book |
| BookCard.StockLabel | src/components/BookCard.tsx:88 | "sold out" iff stock is at most 0; otherwise the positive count |
| BookCard.ShowsRatingIffRated | src/components/BookCard.tsx:91 | with ratings from 1 to 5, the star badge shows iff the book has a rating |
| BookDetail.UnitPrice | src/components/BookDetailDialog.tsx:40 | the price when it is set and non-zero, else 15000; never 0 |
| BookDetail.UpsertRating | src/components/BookDetailDialog.tsx:61-71 | the user's first rating is overwritten in place with the length unchanged, or one entry is appended. Every other entry is unchanged |
| BookDetail.UpsertThenFind | src/components/BookDetailDialog.tsx:57-69 | after rating, `find` returns the new rating |
| BookDetail.UpsertKeepsOnePerUser | src/components/BookDetailDialog.tsx:61-71 | rating keeps at most one rating per user |
| BookDetail.PrependReview | src/components/BookDetailDialog.tsx:111 | the new review comes first, followed by the old list |
| BookDetail.EditReviews | src/components/BookDetailDialog.tsx:153-155 | only reviews with the editing id get the trimmed text and the new time. Ids and authors stay; the other reviews are unchanged |
| BookDetail.DeleteReviews | src/components/BookDetailDialog.tsx:184 | exactly the reviews without that id remain |
| BookDetail.DeleteOne | src/components/BookDetailDialog.tsx:184 | with unique ids, deleting the k-th review's id removes just that review and keeps the rest in order |
| BookDetail.DetailDialog.constructor | src/components/BookDetailDialog.tsx:39 | the quantity starts at 1 and no review is being written or edited |
| BookDetail.DetailDialog.HandleRating | src/components/BookDetailDialog.tsx:61-71 | the book's ratings become the upsert and nothing else changes |
| BookDetail.DetailDialog.HandleSubmitReview | src/components/BookDetailDialog.tsx:74-119 | the request is sent iff the text is not blank and a token is stored. A created review is prepended and the box cleared; otherwise nothing changes |
| BookDetail.DetailDialog.HandleEditReview | src/components/BookDetailDialog.tsx:122-128 | editing starts on the first review with that id, with its comment; an unknown id changes nothing |
| BookDetail.DetailDialog.HandleUpdateReview | src/components/BookDetailDialog.tsx:131-164 | sent iff the edit text is not blank and a token is stored. A successful PATCH applies the edit and leaves edit mode; otherwise nothing changes |
| BookDetail.DetailDialog.HandleDeleteReview | src/components/BookDetailDialog.tsx:167-198 | sent iff confirmed and a token is stored. Only a 204 removes the review |
| BookDetail.DetailDialog.HandleIncreaseQty | src/components/BookDetailDialog.tsx:201-204 | the quantity grows by one while below stock, else the alert shows. 1 ≤ quantity, and quantity ≤ stock when stock ≥ 1, is preserved |
| BookDetail.DetailDialog.HandleDecreaseQty | src/components/BookDetailDialog.tsx:206-208 | the quantity shrinks by one while above 1, and the same bounds are preserved |
| BookDetail.DetailDialog.HandleAdminIncreaseStock | src/components/BookDetailDialog.tsx:211-213 | stock grows by exactly 1 and nothing else changes |
| BookDetail.DetailDialog.HandleAdminDecreaseStock | src/components/BookDetailDialog.tsx:215-218 | a no-op at stock ≤ 0, else stock drops by 1, so a non-negative stock stays non-negative. The stepper bound is kept while the quantity is below the stock, and always at quantity 1, which is where it stays in an administrator's dialog |
| BookDetail.DetailDialog.PurchaseArgs | src/components/BookDetailDialog.tsx:409 | onPurchase gets the book id, the quantity, and unit price times quantity |
| Gateway.StoredToken | src/api/client.ts:10 | a token is read iff the key is stored with a non-empty value |
| Gateway.Headers | src/api/client.ts:13-17 | always a Content-Type, JSON unless the caller overrides it. A bearer header appears only with a stored token or the caller's own. The caller's headers win, and no other header appears |
| Gateway.ErrorOf | src/api/client.ts:60-63 | the error is the body's own "Error Message" value exactly when that value is truthy; otherwise `API Error: <status>`. An undecodable body counts as {}, and a null body throws |
| Gateway.TokensOf | src/api/client.ts:41-46 | the decoded refresh answer: the two token strings, or an error for a body that does not decode or lacks them; `Gateway.RefreshThenRetry` states what is stored |
| Gateway.FinalResult | src/api/client.ts:60-71 | a non-ok status fails with that error. 204 yields {}; any other ok status yields the decoded body, or fails when it does not decode |
| Gateway.Run | src/api/client.ts:9-72 | the whole call as a value: result, new storage, redirect and requests sent. `Gateway.Browser.ApiFetch` is proved equal to it, and the gateway lemmas state its properties |
| Gateway.FirstRequestHeaders | src/api/client.ts:19-21 | the first request goes to the base URL plus the endpoint, with the built headers and the caller's method and body |
| Gateway.FetchBound | src/api/client.ts:21-50 | a call makes 1 to 3 fetches, and at most one more than the oracle can answer |
| Gateway.SingleFetch | src/api/client.ts:21-24 | with no 401, or on the refresh endpoint: one fetch, storage unchanged, no redirect, and the first response decides |
| Gateway.NoRefreshTokenFailsAtOnce | src/api/client.ts:27-32 | a 401 without a refresh token: the new storage is the old one without the access token. It redirects and fails after one fetch |
| Gateway.RefreshThenRetry | src/api/client.ts:34-50 | after a successful refresh the new storage is the old one with both new tokens set. The request is retried once with the new bearer, three fetches in all. The retry's answer is final, so a second 401 is not retried |
| Gateway.RefreshFailureNoRetry | src/api/client.ts:51-57 | a failed refresh: the new storage is the old one without either token. It redirects and fails after two fetches |
| Gateway.RedirectIffAuthFailure | src/api/client.ts:27-57 | the login redirect happens exactly when the call fails for lack of a refresh token or for a failed refresh |
| Gateway.Browser.Fetch | src/api/client.ts:21 | the request is recorded, and the oracle's next response is consumed; an exhausted oracle is a network failure |
| Gateway.Browser.ApiFetch | src/api/client.ts:9-72 | the result, the new storage, the redirect, the requests sent and the responses consumed all agree with `Run` |
| Gateway.Browser.Reauthorize | src/api/client.ts:24-58 | the 401 branch agrees with its part of `Run`: with no refresh token it fails at once; otherwise it sends the refresh request, and clears the tokens or retries |
| Gateway.Browser.RetryAfterRefresh | src/api/client.ts:41-50 | both new tokens are stored and exactly one more request is sent, carrying the new bearer; its answer decides the result |

## Left out

- Rendering, styling, icons and the `Intl`/`toLocaleString`/`toFixed` formatting: presentation only.
- `fetchBooks` (src/App.tsx:34-50): the request is left out. Each loaded book gets `ratings || []`, `reviews || []` and `stock || 0`. The model takes these defaults as given: `Types.Book` has non-optional ratings, reviews and stock.
- Single and bulk book deletion in App.tsx: network calls followed by a reload. After a bulk deletion the selection is cleared and selection mode is left; this is not modelled either.
- The add-to-cart handler (src/App.tsx:205-208): an alert and a log line; it changes no state.
- The comment requests of the detail dialog are not modelled: their outcome (the server's created review, whether the PATCH succeeded, the DELETE status) is a parameter, and only the list update that follows is modelled.
- `Date.now()` order ids and `new Date()` timestamps are parameters. Setting the success flag back after 3 seconds (`setTimeout`) is not modelled.
- Text.Lower: folds ASCII letters only, not full Unicode case mapping.
- Text.LexLe: localeCompare is modelled as lexicographic code-point order, not locale collation; this also differs from UTF-16 code-unit order for characters above U+FFFF.
- MyPage.CheckPasswordChange: the length check counts characters, not UTF-16 code units, so a new password of two emoji (length 4 in JavaScript) is refused as too short.
- Ratings.AverageRating: uses exact real division rather than a double-precision float.
- Types: JavaScript numbers are modelled as unbounded integers, so there is no floating-point rounding or overflow.
- Gateway.Run: a refresh answer that decodes but lacks the two token strings fails with `MalformedRefreshBody`, where the code would store the text "undefined" and go on.
- Gateway.Run: a success body that does not decode is a failure (`BadJson`), because the code has no catch there.
- Gateway.Browser.ApiFetch: error texts are modelled as the `ApiError` variants, not message strings.
- The alert texts of the handlers are modelled only as return flags (`alerted`, `sent`) or left out.
- BookDetail.DetailDialog: `onUpdateBook` is folded into the dialog's own `book` field. App's side of that callback is `App.Storefront.OnUpdateBook`.
- App.Storefront.HandlePurchase: as in the code, stock is not checked against the quantity, so it can go negative (see Findings). The dialog's purchase quantity is not reset after a purchase.
- BookDetail.DetailDialog.HandleIncreaseQty: the bound 1 <= quantity <= stock is kept by each stepper call, but not across a purchase, which lowers the stock under an unchanged quantity.
- BookDetail.DetailDialog: the role-based rendering is not modelled. The purchase section shows only to non-administrators (src/components/BookDetailDialog.tsx:384) and the stock buttons only to administrators (line 423). So in an administrator's dialog the quantity stays at its initial 1, and `HandleAdminDecreaseStock` keeps the bound there. The class itself accepts the handlers in any order.
- Asynchrony and concurrency: each handler is one sequential step.
- The AI image generator, the login and sign-up screens, the add-book dialog, the unused loan dialog, BookList.tsx and main.tsx: outside the modelled core.

## Findings

| source | as written | input that shows it | evidently intended | confidence | as-written member | corrected member |
|---|---|---|---|---|---|---|
| src/App.tsx:179-188 | handlePurchase subtracts the quantity from the stock without comparing them. The dialog stays open on the updated book and keeps its quantity (src/components/BookDetailDialog.tsx:39, 409) | stock 5, + pressed twice (quantity 3), buy: stock 2 with quantity 3 still shown; buy again: stock -1 | a purchase of more copies than are in stock is refused, so stock never goes below zero | not executed | App.OverPurchase | App.Storefront.HandleCheckedPurchase |
