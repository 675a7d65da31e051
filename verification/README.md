# studyko_web admin back-office — a Dafny model

This project models the server-side core of the studyko_web admin panel, a
Next.js application over Firebase, together with the logic its three
stateful admin pages (users, reports, premium) run in the browser.

* **The TTL cache** (`TtlCache.SmartCache`). This is the process-wide
  `SmartCache` that every list and stats handler consults. Each entry
  carries its own time to live. An expired entry is evicted only when it is
  read. `clear` empties one key or the whole cache. The cost counters sit
  beside it (`CostOptimizer.CostTracker`), with `getTotalUsersCount`,
  `getPublicStats` and `getPaginatedUsers` (`CostOptimizer`).
* **The admin gates.**
  * `AdminAuth`: the allow-list parsed from `ADMIN_EMAILS`,
    `verifyAdminToken` and `checkIsAdmin`.
  * `RequestAuth`: the `Authorization: Bearer` parsing as the handlers
    write it, a literal `startsWith('Bearer ')` test or a
    `split('Bearer ')`, so the scheme name is matched case-sensitively. It
    also holds the case-sensitive copy of the allow-list check that several
    handlers inline.
  * `RouteGuard`: the cookie-presence guard in `middleware`.
  * `VerifyRoute`: the `/api/admin/verify` endpoint.
* **The list and mutation handlers.**
  * The resources: users, rooms, legacy reports, message reports,
    premium, premium analytics, analytics, admin stats, public stats, the
    dashboard's activity and its two recent lists, and notifications.
  * Each GET is a method on the shared cache. Its contract ties the
    answer and the new cache state to `Listing.Serve` applied to the old
    entries, so a live entry is served and a miss computes, stores and
    returns the body. A failed gate leaves the cache alone.
  * Each body is a function of the backend's answer, with its own
    contract: pagination, defaults, counts and ordering.
  * Each mutation returns the writes it issues, or the error status.
* **Notification fan-out** (`NotificationsRoute`). This covers audience
  resolution, the notification record, 500-token push batches with their
  success and failure counters, invalid-token cleanup, and the in-app
  copies written in 500-item chunks. These are loops, and their invariants
  are proved.
* **The admin pages.** Each page is a class whose fields are the page's
  React state, with the handlers as methods: `UsersPage.UsersView`,
  `ReportsPage.ReportsView` and `PremiumPage.PremiumView`. The page's
  helpers are pure functions beside each class: search, badges, labels,
  the report moves each modal offers, the day count, the revenue breakdown
  and the extension preview.

The backend is never called. Its results come in as parameters:

* query results as sequences of documents. The analytics route's
  `daily_stats` query and the notifications list are instead computed
  from the collection, with their filter, order and limit;
* counts as numbers;
* token verification as a function from token to outcome;
* push delivery as a function from a batch to per-token results.

The clock is an integer `now` in milliseconds. Calendar arithmetic
(midnights, month keys, ISO dates) comes in as functions of a day or month
index. The exception is the month arithmetic of the premium analytics
buckets: month lengths and the `setMonth` rollover are computed there.

Where the design description of the system and the code differ, the model
follows the code. The handlers and the page classes model the code as
written, including the six defects listed under "## Findings". The
corrected behaviour of each defect is a separate member beside it, and no
handler or page uses it. The differences from the design description are:

* Most mutations do not clear the cache. Only message-report PATCH and
  DELETE do.
* The inlined allow-list check is case-sensitive and untrimmed.
* The report handlers write any allowed status whatever the current one.
  The "terminal once closed" rule exists only in the pages' buttons
  (`ReportsPage.Offered`, `ReportsPage.ServerAllowsUnofferedReopen`).
* `DELETE` on rooms has no existence check.

## Model

| member | source | states |
|---|---|---|
| Common.Split | src/lib/auth.ts:12 | splitting on a non-empty separator always yields at least one piece |
| Common.JoinSplit | src/lib/auth.ts:12 | joining the pieces of a split with the separator gives the original text back |
| Common.SplitWithout | src/lib/auth.ts:12 | a text without the separator splits into itself alone |
| Common.SplitAfterFree | src/app/api/admin/users/route.ts:14 | when the text before the first separator cannot start one, the first piece is exactly that text |
| Common.TrimStart | src/lib/auth.ts:12 | `trimStart` over the full ECMAScript blank set (ASCII blanks, no-break space, byte order mark, line and paragraph separators, every Unicode space separator): the result is a suffix of the text, everything removed is blank, and it does not start with a blank |
| Common.TrimEnd | src/lib/auth.ts:12 | `trimEnd` over the same blank set: the result is a prefix of the text, everything removed is blank, and it does not end with a blank |
| Common.TrimShape | src/lib/auth.ts:12 | a trimmed entry neither starts nor ends with a blank |
| Common.ToLower | src/lib/auth.ts:12 | lower-casing folds every modelled capital (A–Z, Latin-1, Latin Extended-A with the Turkish Ç Ğ İ Ö Ş Ü): no capital is left, the text never shrinks and at most doubles (İ becomes two characters), and a text without capitals is unchanged |
| Common.LowerChar | src/lib/auth.ts:12 | one character folds to one lower-case character, except İ which folds to i and a combining dot; a non-capital stays as it is |
| Common.ToLowerAppend | src/app/admin/users/page.tsx:120-121 | lower-casing distributes over concatenation |
| Common.DottedCapitalIGrows | src/app/admin/users/page.tsx:120-121 | `"İ".toLowerCase()` is i followed by U+0307, two characters |
| Common.TurkishNameFolds | src/app/admin/users/page.tsx:120-121 | `"ÖZGE"` lower-cases to `"özge"`, so the search finds it by the lower-case term |
| Common.ToLowerIdempotent | src/lib/auth.ts:12 | lower-casing twice is lower-casing once |
| Common.Distinct | src/app/api/admin/premium/analytics/route.ts:76 | the elements in the order of their first appearance, as `Object.entries` lists the keys of an object filled in that order: never longer than the input |
| Common.DistinctSnoc | src/app/api/admin/premium/analytics/route.ts:76 | one more element is listed at the end exactly when it did not appear before |
| Common.DistinctMembers | src/app/api/admin/premium/analytics/route.ts:76 | exactly the elements of the input are listed |
| Common.DistinctCount | src/app/api/admin/premium/analytics/route.ts:76 | the list has one entry per distinct element of the input |
| Common.DistinctNoRepeats | src/app/api/admin/premium/analytics/route.ts:76 | no element is listed twice |
| Common.DistinctKeeps | src/app/api/admin/premium/analytics/route.ts:76 | a sequence without repeats is listed as it is |
| Common.NatToStringInjective | src/app/admin/users/page.tsx:114 | different counts never print alike |
| Common.FloorDiv | src/app/admin/users/page.tsx:113 | `Math.floor(a / b)` is the quotient `q` with `q·b <= a < q·b + b` |
| Common.CeilDiv | src/app/api/admin/users/route.ts:86 | `Math.ceil(a / b)` is the quotient `q` with `a <= q·b < a + b` |
| AdminAuth.AllowList | src/lib/auth.ts:12 | an unset `ADMIN_EMAILS` gives the empty list; a set one gives one entry per comma-separated piece, each trimmed and lower-cased, in order |
| AdminAuth.VerifyAdminToken | src/lib/auth.ts:14-53 | admits a token exactly when the variable is set, the provider decodes the token, the claim carries a non-empty email and its lower-cased form is on the list; the admin user then carries the token's uid, the lower-cased email, the display name and `isAdmin` |
| AdminAuth.ToLowerHasNoUpper | src/lib/auth.ts:12 | a lower-cased allow-list entry holds no capital that `toLowerCase` folds |
| AdminAuth.CheckIsAdminRejectsUpper | src/lib/auth.ts:55-57 | `checkIsAdmin` compares without lower-casing, so an address with a folded capital (A–Z, Ö, Ş, İ, …) is never admitted |
| AdminAuth.VerifyIgnoresCase | src/lib/auth.ts:26-35 | two tokens whose claims differ only in the case of the email get the same answer |
| AdminAuth.ListedEntryAdmits | src/lib/auth.ts:12-48 | a token whose lower-cased email equals the normalised i-th entry is admitted, whatever padding or case that entry had |
| AdminAuth.UnsetDeniesAll | src/lib/auth.ts:19-23 | with the variable unset every token is refused, before the provider is consulted |
| RouteGuard.Middleware | src/middleware.ts:4-32 | the login page always passes; a page under `/admin` without a non-empty cookie is redirected to the login page; a path under `/api/admin` without one gets 401; a present cookie always passes |
| RouteGuard.Guard | src/middleware.ts:34-36 | a path outside the matcher always passes; any refusal is for a matched path with no cookie |
| RouteGuard.CookieValueIgnored | src/middleware.ts:15-17 | only presence of the cookie is checked: any two non-empty values pass alike |
| RouteGuard.EmptyCookieIsMissing | src/middleware.ts:15-23 | an empty cookie value is treated exactly like no cookie |
| RouteGuard.MatchedPathsProtected | src/middleware.ts:8-29 | every matched path other than the login page is refused without a cookie |
| VerifyRoute.Get | src/app/api/admin/verify/route.ts:7-28 | 401 exactly when the header is missing or lacks the `Bearer ` prefix; otherwise 403 exactly when `verifyAdminToken` on the rest of the header answers null, and the admin user when it does not |
| VerifyRoute.AgreesWithAdminGate | src/app/api/admin/verify/route.ts:11-28 | for a header `Bearer <t>` with a non-empty token, this endpoint and the handlers' admin gate admit the same requests with the same user |
| RequestAuth.PrefixedSplit | src/app/api/admin/users/route.ts:14 | splitting a header that starts with `Bearer ` yields an empty first piece followed by the pieces of the rest |
| RequestAuth.SplitTokenOfBearer | src/app/api/admin/rooms/route.ts:9 | for `Bearer <t>` where t holds no second `Bearer `, the token read is exactly t |
| RequestAuth.SplitTokenAbsent | src/app/api/admin/rooms/route.ts:9-12 | a header without `Bearer ` anywhere yields no token, hence 401 |
| RequestAuth.SplitTokenSkipsLeadingText | src/app/api/admin/rooms/route.ts:9 | the split does not demand the prefix at the start: text before `Bearer ` is skipped and the rest is the token |
| RequestAuth.AdminGate | src/app/api/admin/rooms/route.ts:9-17 | 401 exactly when the split yields no token or an empty one; otherwise 403 exactly when `verifyAdminToken` refuses, and the admin user when it admits |
| RequestAuth.PrefixedToken | src/app/api/admin/users/route.ts:10-14 | after the `startsWith('Bearer ')` test, the token read by the inline gate is the one the admin gate's split reads |
| RequestAuth.InlineAdminCheck | src/app/api/admin/users/route.ts:8-25 | the inline gate as written, used by the users, stats and dashboard-activity handlers: 401 without the prefix, 401 `Invalid token` when the provider throws, 403 when the email claim or `''` is not on the raw comma-split list, and admitted exactly otherwise, with that claim or `''` as identity |
| RequestAuth.InlineAdminCheckFixed | src/app/api/admin/users/route.ts:8-25 | the corrected half of a finding, used by no handler: admits exactly a decoded token with a non-empty email claim that is on the raw list; every refusal is 401 or 403 |
| RequestAuth.InlineAdmitsTokenWithoutEmail | src/app/api/admin/users/route.ts:18-21 | with `ADMIN_EMAILS="admin@x.com,"` a token without an email claim passes the inline gate as written and is refused by the intended one |
| RequestAuth.InlineFixedAgreesWithEmail | src/app/api/admin/users/route.ts:16-21 | whenever the token carries a non-empty email both versions of the inline gate answer alike |
| TtlCache.SmartCache.constructor | src/lib/firebase-cost-optimizer.ts:19-20 | the shared cache starts empty |
| TtlCache.SmartCache.Set | src/lib/firebase-cost-optimizer.ts:22-28 | stores or replaces the entry for the key with the value, the current time and the TTL in ms (default 5 minutes); no other entry changes |
| TtlCache.SmartCache.Get | src/lib/firebase-cost-optimizer.ts:30-41 | answers the live value or nothing, and deletes the key when its entry has expired |
| TtlCache.SmartCache.Clear | src/lib/firebase-cost-optimizer.ts:43-49 | a truthy key removes that key only; no key or an empty key empties the store |
| TtlCache.SetThenGet | src/lib/firebase-cost-optimizer.ts:22-40 | after `set(k, v, t)`, `get(k)` answers `v` exactly while at most `t`·60000 ms have elapsed, so an entry is still live at exactly its TTL, and nothing after that |
| TtlCache.SetOthersUnchanged | src/lib/firebase-cost-optimizer.ts:22-28 | setting one key never changes what another key answers |
| TtlCache.GetAbsent | src/lib/firebase-cost-optimizer.ts:31-32 | `get` on an absent key answers null and leaves the store unchanged |
| TtlCache.GetExpired | src/lib/firebase-cost-optimizer.ts:34-38 | `get` on an expired key answers null, deletes that key, and leaves every other entry as it was |
| TtlCache.GetLive | src/lib/firebase-cost-optimizer.ts:30-41 | `get` on a live key answers its value and changes nothing |
| TtlCache.GetPreservesAnswers | src/lib/firebase-cost-optimizer.ts:30-41 | a `get` never changes what any key answers at the same instant |
| TtlCache.ClearKey | src/lib/firebase-cost-optimizer.ts:44-45 | `clear(k)` with a non-empty key removes `k` and keeps every other key |
| TtlCache.ClearAll | src/lib/firebase-cost-optimizer.ts:44-48 | `clear()` and `clear('')` both empty the store |
| CostOptimizer.SumSample | src/lib/firebase-cost-optimizer.ts:111-114 | the `forEach` adds up the sample, a missing `totalMinutes` counting as 0 |
| CostOptimizer.SampleSumNonNegative | src/lib/firebase-cost-optimizer.ts:111-114 | a sample of non-negative values sums to a non-negative total |
| CostOptimizer.Extrapolate | src/lib/firebase-cost-optimizer.ts:116 | `floor(sum · total / n)`, the largest whole number whose product with `n` is at most `sum · total` |
| CostOptimizer.ExtrapolateFullSample | src/lib/firebase-cost-optimizer.ts:116 | a sample that covers every user gives the plain sum back |
| CostOptimizer.EmptySampleIsNaN | src/lib/firebase-cost-optimizer.ts:116 | with no users the sample is empty and the estimate as written is NaN |
| CostOptimizer.EstimateMinutes | src/app/api/admin/stats/route.ts:89-91 | the guarded estimate: extrapolated from a non-empty sample, the plain sum otherwise |
| CostOptimizer.GuardAgreesOnSamples | src/lib/firebase-cost-optimizer.ts:116 | the guard changes nothing for a non-empty sample and turns the NaN of an empty one into the sum (0) |
| CostOptimizer.CachedZeroIsHit | src/lib/firebase-cost-optimizer.ts:64-65 | because the test is `!== null`, a cached count of 0 is answered from the store, although a truthiness test would treat it as a miss |
| CostOptimizer.CountCachedFor5Minutes | src/lib/firebase-cost-optimizer.ts:62-73 | after a miss the fresh count is cached, and for 5 minutes a later call answers that count whatever the collection now holds |
| CostOptimizer.GetTotalUsersCount | src/lib/firebase-cost-optimizer.ts:62-73 | the answer and the new cache are those of the cache-aside lookup on the old cache: a live cached count, 0 included, is answered; otherwise the fresh count is answered and stored under `total_users_count` for 5 minutes |
| CostOptimizer.ComputePublicStats | src/lib/firebase-cost-optimizer.ts:106-123 | the three counts are copied; the minutes are NaN exactly when the sample is empty, and otherwise the extrapolated sample sum |
| CostOptimizer.ComputePublicStatsGuarded | src/app/api/admin/stats/route.ts:89-91 | the corrected half of a finding, used by no handler: with the admin route's guard the minutes are always a number, and it agrees with the stats as written on every non-empty sample |
| CostOptimizer.PublicCachedFor10Minutes | src/lib/firebase-cost-optimizer.ts:90-125 | a miss stores what it answers, and for 10 minutes later calls answer the same object, even when the queries would now fail |
| CostOptimizer.PublicFailureStoresNothing | src/lib/firebase-cost-optimizer.ts:96-126 | a failing query on a miss propagates and stores nothing |
| CostOptimizer.GetPublicStats | src/lib/firebase-cost-optimizer.ts:90-127 | the answer and the new cache are those of the cache-aside lookup on the old cache: a live cached object is answered; otherwise the stats as written (NaN minutes for an empty sample) are stored under `public_stats` for 10 minutes and answered, and a failing query stores nothing |
| CostOptimizer.IndexOfId | src/lib/firebase-cost-optimizer.ts:146 | the position of the first document with the id, or none when no document has it |
| CostOptimizer.CursorStart | src/lib/firebase-cost-optimizer.ts:145-148 | no cursor starts at the beginning; a cursor starts just after its document; a cursor naming no document makes the query fail |
| CostOptimizer.QueryAfter | src/lib/firebase-cost-optimizer.ts:140-150 | reads at most `limit` documents in `createdAt`-descending order, starting at the cursor position |
| CostOptimizer.GetPaginatedUsers | src/lib/firebase-cost-optimizer.ts:136-157 | `hasMore` exactly when the page holds `limit` documents; `lastDocId` is the last document's id, and undefined exactly for an empty page |
| CostOptimizer.CursorContinues | src/lib/firebase-cost-optimizer.ts:145-156 | with unique ids, passing back `lastDocId` makes the next page start at the document right after the last one returned |
| CostOptimizer.ShortPageIsLast | src/lib/firebase-cost-optimizer.ts:155 | a page with `hasMore` false reaches the end of the collection |
| CostOptimizer.FullLastPageSaysMore | src/lib/firebase-cost-optimizer.ts:155 | a full page says `hasMore` even when nothing follows, and the next page is then empty |
| CostOptimizer.CostTracker.constructor | src/lib/firebase-cost-optimizer.ts:245-246 | both counters start at 0 |
| CostOptimizer.CostTracker.TrackRead | src/lib/firebase-cost-optimizer.ts:248-251 | adds `count` (default 1) to the reads and leaves the writes alone |
| CostOptimizer.CostTracker.TrackWrite | src/lib/firebase-cost-optimizer.ts:253-256 | adds `count` (default 1) to the writes and leaves the reads alone |
| CostOptimizer.CostTracker.Reset | src/lib/firebase-cost-optimizer.ts:258-261 | sets both counters back to 0 |
| CostOptimizer.CostTracker.Estimate | src/lib/firebase-cost-optimizer.ts:263-269 | reports the two counters as they are |
| PublicStatsRoute.Hours | src/app/api/public/stats/route.ts:25 | whole hours of the minutes, rounded down; NaN minutes stay NaN |
| PublicStatsRoute.Answer | src/app/api/public/stats/route.ts:16-53 | unreadable stats give exactly the fixed fallback labels; readable stats are copied into the body, marked cached, with active users at 15% of all users rounded down and hours from the minutes |
| PublicStatsRoute.ThousandsShape | src/app/api/public/stats/route.ts:29-32 | a `K+` label is the decimal digits of the count divided by 1000, followed by `K+` |
| PublicStatsRoute.ThousandsNeverOverstates | src/app/api/public/stats/route.ts:29-32 | the number a `K+` label shows, times 1000, is at most the count, and the next thousand lies above the count |
| PublicStatsRoute.EmptySampleShowsNaN | src/app/api/public/stats/route.ts:24-31 | with the estimate as written, an empty sample shows `NaNM+` minutes and NaN hours |
| PublicStatsRoute.EmptySampleCachedAsNaN | src/lib/firebase-cost-optimizer.ts:112-125 | a miss on an empty sample caches NaN minutes, and the page shows `NaNM+` now and for the next 10 minutes |
| PublicStatsRoute.LabelsAreNumbers | src/app/api/public/stats/route.ts:24-31 | the corrected half of a finding: with the guarded estimate, minutes and hours are always numbers and the label is never `NaNM+` |
| PublicStatsRoute.Get | src/app/api/public/stats/route.ts:14-54 | the body is built from what `getPublicStats` answers through the shared cache, NaN minutes included, or is the fallback when that fails; the store ends as `getPublicStats` leaves it |
| AdminStatsRoute.Sample | src/app/api/admin/stats/route.ts:74-77 | the first `min(1000, users)` users' `totalMinutes`, in order |
| AdminStatsRoute.Stats | src/app/api/admin/stats/route.ts:50-104 | each counter is the count of its query (all users, active in the last day, active in the last week, premium, pending reports, rooms, active rooms, messages); the minutes are extrapolated from a non-empty sample and 0 without users |
| AdminStatsRoute.ActiveCountsNest | src/app/api/admin/stats/route.ts:67-68 | users active in the last day are counted among those active in the last week, and neither count exceeds the users |
| AdminStatsRoute.SmallUserBaseIsExact | src/app/api/admin/stats/route.ts:74-91 | with at most 1000 users the sample is every user and the minutes are their exact sum |
| AdminStatsRoute.Get | src/app/api/admin/stats/route.ts:22-114 | the inline gate as written decides 401/403 and a refusal leaves the cache alone; otherwise a live `admin_stats` entry is answered with `fromCache`, and a miss computes the counters and caches them for 5 minutes |
| Listing.Offset | src/app/api/admin/rooms/route.ts:51 | the offset of page `page` is non-negative and leaves exactly `limit` slots up to `page * limit` |
| Listing.TotalPages | src/app/api/admin/rooms/route.ts:75 | the smallest page count whose pages hold every result: `n * limit >= total` and `(n - 1) * limit < total` |
| Listing.PageOf | src/app/api/admin/rooms/route.ts:52 | a page holds at most `limit` results and its `i`-th item is result `offset + i` of the ordered query |
| Listing.MapPage | src/app/api/admin/rooms/route.ts:54-68 | the page's items, each mapped through the handler's document-to-row function, in order |
| Listing.ListPage | src/app/api/admin/rooms/route.ts:48-76 | the body carries the total, the requested page, `ceil(total / limit)` pages and the mapped items of that page; a page with items is never past the announced last page |
| Listing.NonEmptyPageWithinTotal | src/app/api/admin/rooms/route.ts:51-75 | a page that holds any result lies within the announced `totalPages` |
| Listing.EveryResultOnItsPage | src/app/api/admin/rooms/route.ts:51-75 | the `i`-th result appears at position `i % limit` of page `i / limit + 1`, which is within `totalPages` |
| Listing.QuotientSplit | src/app/api/admin/rooms/route.ts:51 | a result index splits into whole pages and a remainder below `limit` |
| Listing.PositionOnPage | src/app/api/admin/rooms/route.ts:51-52 | position `r` of a page is result `offset + r` whenever that result exists |
| Listing.ServeHit | src/app/api/admin/rooms/route.ts:25-29 | a live entry under the request's key is answered with `fromCache: true` and the store is left as it was |
| Listing.ServeMissThenHit | src/app/api/admin/rooms/route.ts:25-81 | a miss answers the computed body without `fromCache` and a request with the same key within the TTL is then answered from the store |
| Listing.ServeOtherKeys | src/app/api/admin/rooms/route.ts:25-79 | serving one key leaves what every other key answers unchanged |
| Listing.CachedFetch | src/app/api/admin/rooms/route.ts:25-81 | the answer and the new store are those of the cache-aside step on the old store |
| Sorting.InsertPermutes | src/app/api/admin/premium/route.ts:56-60 | inserting an element gives a permutation of the element and the sequence |
| Sorting.InsertBounded | src/app/api/admin/premium/route.ts:56-60 | inserting keeps every key under a bound the element and the sequence respect |
| Sorting.InsertSorted | src/app/api/admin/premium/route.ts:56-60 | inserting into a sequence in descending key order keeps it in that order |
| Sorting.SortDesc | src/app/api/admin/analytics/route.ts:113 | the result is in descending key order and is a permutation of the input |
| Sorting.TakeIsLargest | src/app/api/admin/analytics/route.ts:113-114 | in a descending order, every element of the first `n` has a key at least that of any element left out |
| Sorting.Newest | src/app/api/admin/dashboard/recent-users/route.ts:28-31 | `min(n, matching)` documents, newest first, each a document of the collection that has the ordering field |
| Sorting.TakeSortedFrom | src/app/api/admin/dashboard/recent-users/route.ts:28-31 | a prefix of a sorted permutation is sorted and holds only elements of the original |
| Sorting.NewestAreNewest | src/app/api/admin/dashboard/recent-users/route.ts:28-31 | a matching document left out is no newer than any document returned |
| AdminPaging.PrevPage | src/app/admin/users/page.tsx:322 | Previous goes one page back and never below page 1 |
| AdminPaging.NextPage | src/app/admin/users/page.tsx:332 | Next goes one page on and never past the last page |
| AdminPaging.PagesShown | src/app/admin/users/page.tsx:60 | a page count of 0 reads as 1; any other count is kept |
| AdminPaging.PrevUndoesNext | src/app/admin/users/page.tsx:322-332 | inside the page range, Next then Previous returns to the start |
| AdminPaging.NextUndoesPrev | src/app/admin/users/page.tsx:322-332 | inside the page range, Previous then Next returns to the start |
| AdminPaging.ButtonsStayInRange | src/app/admin/users/page.tsx:322-333 | with at least one page both buttons stay in `[1, totalPages]`, and an enabled button moves by one page |
| AnalyticsRoute.RangeDays | src/app/api/admin/analytics/route.ts:29 | `7d` is 7 days, `30d` is 30 days, and any other range is 90 days |
| AnalyticsRoute.Totals | src/app/api/admin/analytics/route.ts:45-60 | a date's active users are at most the number of documents, and a date without active users has no minutes |
| AnalyticsRoute.DatesCarried | src/app/api/admin/analytics/route.ts:45-55 | a date gets an entry exactly when some `daily_stats` document carries it |
| AnalyticsRoute.UndatedTotalsZero | src/app/api/admin/analytics/route.ts:80 | a date that no document carries totals zero users and zero minutes |
| AnalyticsRoute.CountDoc | src/app/api/admin/analytics/route.ts:46-59 | one document adds one active user and its minutes (0 when missing) to its date's entry; the entry starts at zero when it is new |
| AnalyticsRoute.CountedSummarises | src/app/api/admin/analytics/route.ts:45-60 | counting one more document keeps the map a summary of the documents counted so far |
| AnalyticsRoute.Aggregate | src/app/api/admin/analytics/route.ts:44-60 | `statsByDate` has an entry exactly for the dates the documents carry, each holding that date's totals |
| AnalyticsRoute.DayOfIsTotals | src/app/api/admin/analytics/route.ts:80 | reading a date from the aggregated map, with zeros as the default, gives that date's totals whether or not it is present |
| AnalyticsRoute.GrowthAsWrittenFalls | src/app/api/admin/analytics/route.ts:74-85 | as written, with enough users, the user-growth series falls from the oldest day to today and today shows fewer users than exist |
| AnalyticsRoute.GrowthRisesToTotal | src/app/api/admin/analytics/route.ts:74-85 | the corrected half of a finding, used by no handler: the corrected estimate never falls from one day to the next and today equals the user count (at least 100) |
| AnalyticsRoute.GrowthSeries | src/app/api/admin/analytics/route.ts:75-85 | one user-growth point per day of the range, the n-th (oldest first) carrying `max(100, total - (days - i) * 10)` for its day i days ago, as written |
| AnalyticsRoute.GrowthSeriesNeverRises | src/app/api/admin/analytics/route.ts:75-85 | the served series never rises from one day to the next, never exceeds the total (or 100), and today shows `days * 10` fewer than the total |
| AnalyticsRoute.ActiveSeries | src/app/api/admin/analytics/route.ts:75-90 | one active-users point per day of the range |
| AnalyticsRoute.StudySeries | src/app/api/admin/analytics/route.ts:75-95 | one study-hours point per day of the range |
| AnalyticsRoute.MentionsOnce | src/app/api/admin/analytics/route.ts:75-80 | a list of distinct dates mentions a date at most once |
| AnalyticsRoute.ActiveOverSnoc | src/app/api/admin/analytics/route.ts:45-59 | one more document adds one active user to each mention of its date |
| AnalyticsRoute.ActiveOverBounded | src/app/api/admin/analytics/route.ts:45-59 | over distinct dates, the active users add up to at most the number of documents read |
| AnalyticsRoute.SumsAlike | src/app/api/admin/analytics/route.ts:87-90 | a series whose counts are the dates' active users adds up to the dates' active users |
| AnalyticsRoute.ActiveSeriesSums | src/app/api/admin/analytics/route.ts:87-90 | the active-users chart adds up the active users of the range's dates |
| AnalyticsRoute.SeriesDatesDistinct | src/app/api/admin/analytics/route.ts:75-80 | distinct day keys give distinct dates in the range |
| AnalyticsRoute.ActiveChartCapped | src/app/api/admin/analytics/route.ts:37-59 | with the query's limit, the active-users chart of a `days`-long range adds up to at most `days` user-days, however many users were active |
| AnalyticsRoute.SeriesShape | src/app/api/admin/analytics/route.ts:75-95 | the three series run over the same dates, oldest first, and end today; a day without documents shows 0 active users and 0 hours |
| AnalyticsRoute.PrefixSnoc | src/app/api/admin/analytics/route.ts:75 | extending a prefix by one element appends that element |
| AnalyticsRoute.BuildSeries | src/app/api/admin/analytics/route.ts:70-96 | the countdown loop produces exactly the three series, the user growth as written |
| AnalyticsRoute.Occurrences | src/app/api/admin/analytics/route.ts:105-109 | a category's count is at most the number of rooms |
| AnalyticsRoute.Categories | src/app/api/admin/analytics/route.ts:105-111 | the map's keys, in insertion order, are distinct |
| AnalyticsRoute.ListedIffPresent | src/app/api/admin/analytics/route.ts:105-109 | a category is a key exactly when some room has it (a missing category counts as `Diğer`), and then its count is positive |
| AnalyticsRoute.Entries | src/app/api/admin/analytics/route.ts:111-112 | one entry per distinct category |
| AnalyticsRoute.CountNext | src/app/api/admin/analytics/route.ts:106-108 | counting the next room raises its category's count by one, or appends a new key with count 1 |
| AnalyticsRoute.CountByCategory | src/app/api/admin/analytics/route.ts:105-109 | after the loop, the keys are the categories in order of first appearance and each count is its number of rooms |
| AnalyticsRoute.CountCategories | src/app/api/admin/analytics/route.ts:105-112 | the entries are each category with its room count, in insertion order |
| AnalyticsRoute.CategoriesAfter | src/app/api/admin/analytics/route.ts:108 | one more room appends its category only when that category is new |
| AnalyticsRoute.OccurrencesAfter | src/app/api/admin/analytics/route.ts:108 | one more room raises its own category's count by one and leaves every other count as it was |
| AnalyticsRoute.SumAfterRoom | src/app/api/admin/analytics/route.ts:108 | one more room adds to the summed counts once for each listing of its category |
| AnalyticsRoute.SumAfterCategory | src/app/api/admin/analytics/route.ts:108 | listing one more category adds its count to the sum |
| AnalyticsRoute.CountInDistinct | src/app/api/admin/analytics/route.ts:108 | a category appears once or never in a list of distinct categories |
| AnalyticsRoute.CountsCoverRooms | src/app/api/admin/analytics/route.ts:105-112 | the per-category counts add up to the number of rooms: every room is counted exactly once |
| AnalyticsRoute.TopCategories | src/app/api/admin/analytics/route.ts:111-114 | at most five entries, by descending count, each one of the entries |
| AnalyticsRoute.TopCategoriesAreLargest | src/app/api/admin/analytics/route.ts:113-114 | a category left out has no more rooms than any category shown |
| AnalyticsRoute.DailyQuery | src/app/api/admin/analytics/route.ts:37-41 | the `daily_stats` documents dated on or after the start, oldest first, and only the first `days` of them: `min(days, n)` documents of the `n` in range |
| AnalyticsRoute.DailyQueryTakesOldest | src/app/api/admin/analytics/route.ts:37-41 | a document in range that the limit leaves out is no earlier than any document read |
| AnalyticsRoute.Get | src/app/api/admin/analytics/route.ts:6-147 | 401/403 from the gate leave the cache alone; otherwise the charts for the range (default `30d`), built from the capped `daily_stats` query, with the user growth as written, are served through the `analytics_<range>` entry for 10 minutes, and a cached answer carries no `fromCache` flag |
| DashboardActivity.WindowCount | src/app/api/admin/dashboard/activity/route.ts:61-72 | a day query's count is at most the number of users, and an empty window counts nobody |
| DashboardActivity.WindowSplit | src/app/api/admin/dashboard/activity/route.ts:61-72 | two adjacent windows count exactly what the window spanning both counts |
| DashboardActivity.Activity | src/app/api/admin/dashboard/activity/route.ts:45-80 | seven entries, oldest first: entry `k` is the day `6 - k` days ago, with that day's active and new users |
| DashboardActivity.BuildActivity | src/app/api/admin/dashboard/activity/route.ts:45-80 | the loop from six days ago to today builds exactly those seven entries |
| DashboardActivity.TotalStep | src/app/api/admin/dashboard/activity/route.ts:75-79 | the total over one more day adds that day's count |
| DashboardActivity.PrefixTotal | src/app/api/admin/dashboard/activity/route.ts:48-80 | the first `n` days together count the users whose stamp falls between the first day's midnight and the end of day `n` |
| DashboardActivity.MidnightsOrdered | src/app/api/admin/dashboard/activity/route.ts:49-54 | a later day starts no earlier than an earlier one |
| DashboardActivity.WeekCountsEachUserOnce | src/app/api/admin/dashboard/activity/route.ts:48-80 | over the week each user is counted at most once for activity and at most once for sign-up: the totals are the users whose stamp falls in the week, never more than all users |
| DashboardActivity.Get | src/app/api/admin/dashboard/activity/route.ts:14-91 | the inline gate as written decides 401/403 and a refusal leaves the cache alone; otherwise the seven days are served through the `dashboard_activity` entry for 5 minutes |
| DashboardRecent.ReportRow | src/app/api/admin/dashboard/recent-reports/route.ts:33-44 | a recent-report row keeps the id and date, and falls back to `Anonim`, `Bilinmeyen`, `user`, an empty reason and `pending` |
| DashboardRecent.UserRow | src/app/api/admin/dashboard/recent-users/route.ts:33-43 | a recent-user row keeps the id and date, falls back to `Unnamed` and an empty email, has a photo exactly when a non-empty one is stored, and is premium only when the flag is true |
| DashboardRecent.ReportsBody | src/app/api/admin/dashboard/recent-reports/route.ts:26-46 | at most five rows: the newest dated reports, newest first, each mapped to its row |
| DashboardRecent.UsersBody | src/app/api/admin/dashboard/recent-users/route.ts:26-45 | at most five rows: the newest dated users, newest first, each mapped to its row |
| DashboardRecent.ReportsNewestFirst | src/app/api/admin/dashboard/recent-reports/route.ts:27-31 | the rows come newest first, and none is older than a dated report left off the list |
| DashboardRecent.GetRecentReports | src/app/api/admin/dashboard/recent-reports/route.ts:9-51 | 401/403 from the gate leave the cache alone; otherwise the rows are served through `dashboard_recent_reports` for 2 minutes |
| DashboardRecent.GetRecentUsers | src/app/api/admin/dashboard/recent-users/route.ts:9-50 | 401/403 from the gate leave the cache alone; otherwise the rows are served through `dashboard_recent_users` for 2 minutes |
| MessageReportsRoute.Query | src/app/api/admin/message-reports/route.ts:32-45 | the status filter applies exactly when the status is not `all`, the room filter exactly when a non-empty `roomId` is given |
| MessageReportsRoute.ToDto | src/app/api/admin/message-reports/route.ts:55-75 | a row keeps the report's fields; missing messages become `[]`, and an empty description, reviewer or note becomes null |
| MessageReportsRoute.Body | src/app/api/admin/message-reports/route.ts:47-82 | the total, the requested page, `ceil(total / limit)` pages and the rows of that page, in query order |
| MessageReportsRoute.Get | src/app/api/admin/message-reports/route.ts:7-87 | 401/403 from the gate leave the cache alone; otherwise the page is served through the key built from status, page, limit and room, for 1 minute |
| MessageReportsRoute.PatchResult | src/app/api/admin/message-reports/route.ts:97-167 | 400 exactly for a missing id or status or a status outside the four known ones, 404 exactly for a missing report, and otherwise one review write with the status, the time, the reviewer (`adminId`, else the admin's email, else `admin`) and the notes (new, else stored, else empty) |
| MessageReportsRoute.ReviewerIsAdminIdOrEmail | src/app/api/admin/message-reports/route.ts:105-145 | the recorded reviewer is the given `adminId` or else the admin's own non-empty email, so the `admin` fallback is never reached |
| MessageReportsRoute.AnyStatusFromAnyStatus | src/app/api/admin/message-reports/route.ts:120-147 | any of the four statuses is written over any stored status, with no transition rule |
| MessageReportsRoute.Patch | src/app/api/admin/message-reports/route.ts:97-167 | answers as `PatchResult`; the whole cache is cleared on success and left alone on every error |
| MessageReportsRoute.DeleteResult | src/app/api/admin/message-reports/route.ts:177-219 | 400 exactly without an id, 404 exactly for a missing report, and otherwise the one delete |
| MessageReportsRoute.Delete | src/app/api/admin/message-reports/route.ts:177-219 | answers as `DeleteResult`; the whole cache is cleared on success and left alone on every error |
| ReportsRoute.StatusFilter | src/app/api/admin/reports/route.ts:33-36 | the status filter applies exactly when the status is not `all` |
| ReportsRoute.Body | src/app/api/admin/reports/route.ts:41-74 | the total, the requested page, `ceil(total / limit)` pages and that page's reports passed through unchanged |
| ReportsRoute.Get | src/app/api/admin/reports/route.ts:7-79 | 401/403 from the gate leave the cache alone; otherwise the page is served through `reports_<status>_<page>_<limit>` for 2 minutes |
| ReportsRoute.Patch | src/app/api/admin/reports/route.ts:89-159 | 400 exactly for a missing id or action, 404 exactly for a missing report, success exactly for `resolve`, `reject` or `delete`, each with its one write (`adminId` else `admin`, notes else empty) |
| ReportsRoute.PatchIgnoresCurrentStatus | src/app/api/admin/reports/route.ts:112-157 | only the report's existence matters: any two stored reports get the same answer and writes |
| RoomsRoute.FilterQuery | src/app/api/admin/rooms/route.ts:33-41 | `active` filters on activity within the last 24 hours, `private` and `reported` on their flags, anything else on nothing |
| RoomsRoute.MemberCount | src/app/api/admin/rooms/route.ts:62 | the length of a non-empty `memberIds`, else of `members`, else 0 |
| RoomsRoute.ToDto | src/app/api/admin/rooms/route.ts:54-68 | a row keeps the id and every truthy stored name, host, host name, category and description, falls back to `Unnamed Room`, the creator, `Unknown`, `Diğer` and the empty description otherwise, has each flag only when it is true, and takes the newer activity field before the legacy one |
| RoomsRoute.Body | src/app/api/admin/rooms/route.ts:46-76 | the total, the requested page, `ceil(total / limit)` pages and the rows of that page, in query order |
| RoomsRoute.Get | src/app/api/admin/rooms/route.ts:7-82 | 401/403 from the gate leave the cache alone; otherwise the page is served through `rooms_<filter>_<page>_<limit>` for 3 minutes |
| RoomsRoute.Delete | src/app/api/admin/rooms/route.ts:91-122 | 401/403 from the gate, 400 exactly without a room id, and otherwise the one delete |
| RoomsRoute.Patch | src/app/api/admin/rooms/route.ts:132-173 | 401/403 from the gate, 400 exactly for a missing id or action or an action other than `disable`/`enable`; `disable` sets the flag with the time, `enable` clears both |
| RoomsRoute.DeleteNeverNotFound | src/app/api/admin/rooms/route.ts:104-122 | an admin request naming any room deletes it: there is no not-found answer |
| NotificationsRoute.IdsOf | src/app/api/admin/notifications/route.ts:78 | the ids of the selected documents, one per document, in order |
| NotificationsRoute.Selected | src/app/api/admin/notifications/route.ts:75-107 | a query audience selects exactly the users that match it: all users, `isPremium` true, `isPremium` false, active within 7 days, or last active more than 30 days ago |
| NotificationsRoute.AudiencesMissUnflaggedUsers | src/app/api/admin/notifications/route.ts:80-107 | premium and free never overlap and together cover exactly the users with the flag; a user with no activity stamp, or last seen between 30 and 7 days ago, is neither active nor inactive |
| NotificationsRoute.TrimAll | src/app/api/admin/notifications/route.ts:112 | each piece is trimmed, in order |
| NotificationsRoute.TrimmedEdges | src/app/api/admin/notifications/route.ts:112 | a non-empty trimmed piece starts and ends with a non-space |
| NotificationsRoute.ParsedEmailsTrimmed | src/app/api/admin/notifications/route.ts:110-113 | every parsed address is non-empty and has no surrounding whitespace |
| NotificationsRoute.FirstWithEmail | src/app/api/admin/notifications/route.ts:119-122 | the user found for an address has that address; when none is found, no user has it |
| NotificationsRoute.SpecificIds | src/app/api/admin/notifications/route.ts:117-128 | at most one id per address, each the id of a user with an address; addresses with no user are dropped |
| NotificationsRoute.SpecificIdsSnoc | src/app/api/admin/notifications/route.ts:126-128 | one more address appends its found user's id, or nothing |
| NotificationsRoute.FoundAtSnoc | src/app/api/admin/notifications/route.ts:126-127 | one more address adds its own position exactly when its lookup finds a user |
| NotificationsRoute.SpecificIdsFollowAddresses | src/app/api/admin/notifications/route.ts:117-128 | the specific audience is the found lookups' ids in address order: the k-th id is the id of the first user with the k-th address that finds one |
| NotificationsRoute.SplitTwice | src/app/api/admin/notifications/route.ts:111 | a comma-free address listed twice splits into two copies |
| NotificationsRoute.TrimmedIsItself | src/app/api/admin/notifications/route.ts:112 | an address without surrounding whitespace trims to itself |
| NotificationsRoute.TrimsBoth | src/app/api/admin/notifications/route.ts:112 | two copies of such an address trim to the same two copies |
| NotificationsRoute.TrimAllPair | src/app/api/admin/notifications/route.ts:112 | trimming two copies trims each |
| NotificationsRoute.KeepsBoth | src/app/api/admin/notifications/route.ts:113 | two non-empty addresses both pass the filter |
| NotificationsRoute.ParsedTwice | src/app/api/admin/notifications/route.ts:110-113 | an address listed twice parses into two copies of itself |
| NotificationsRoute.FoundTwice | src/app/api/admin/notifications/route.ts:117-128 | an address given twice finds its user twice |
| NotificationsRoute.DuplicatesKept | src/app/api/admin/notifications/route.ts:108-128 | an address listed twice makes its user a target twice: duplicates are not removed |
| NotificationsRoute.Targets | src/app/api/admin/notifications/route.ts:71-131 | a query audience gives exactly the ids of the users it selects, in store order; a specific audience gives the ids found for its parsed addresses; an unknown `targetType` gives none; a specific audience without `targetUsers` is exactly the 500 case; every id belongs to a user |
| NotificationsRoute.DeepLinkOf | src/app/api/admin/notifications/route.ts:154-157 | the deep-link fields are present exactly when `deepLink` is truthy, with `deepLinkData` defaulting to empty |
| NotificationsRoute.Record | src/app/api/admin/notifications/route.ts:142-158 | the record copies title, message, target type and priority, counts the recipients, names the admin's email; it is `sent` with a send time exactly when scheduled `now`, otherwise `scheduled` |
| NotificationsRoute.Chunks | src/app/api/admin/notifications/route.ts:187-189 | `ceil(n / 500)` slices, each holding between 1 and 500 elements |
| NotificationsRoute.ChunksCoverAll | src/app/api/admin/notifications/route.ts:188-189 | the slices joined in order are the whole sequence: nothing lost, nothing repeated |
| NotificationsRoute.ChunkIsSlice | src/app/api/admin/notifications/route.ts:188-189 | the `k`-th slice is `slice(500k, 500k + 500)` and starts inside the sequence |
| NotificationsRoute.ChunksUnfold | src/app/api/admin/notifications/route.ts:188-189 | past 500 elements, the first slice is the first 500 and the others are the slices of the rest |
| NotificationsRoute.SliceOfRest | src/app/api/admin/notifications/route.ts:189 | slicing what follows the first `d` elements is slicing the whole, shifted by `d` |
| NotificationsRoute.UserById | src/app/api/admin/notifications/route.ts:170 | the document found has the requested id and is one of the users |
| NotificationsRoute.Holders | src/app/api/admin/notifications/route.ts:169-178 | at most one holder per target, each a target id with a non-empty token |
| NotificationsRoute.Tokens | src/app/api/admin/notifications/route.ts:190 | one token per holder |
| NotificationsRoute.IdsWhere | src/app/api/admin/notifications/route.ts:234-241 | at most one id per batch position |
| NotificationsRoute.IdsWhereExact | src/app/api/admin/notifications/route.ts:234-241 | a user is picked exactly when some position holds their id and a result the predicate picks |
| NotificationsRoute.InvalidIdsExact | src/app/api/admin/notifications/route.ts:234-241 | a user's token is cleared exactly when some position holds their id with a failed result carrying one of the two dead-token codes |
| NotificationsRoute.SelectInvalid | src/app/api/admin/notifications/route.ts:234-241 | the loop collects exactly the dead-token users, in batch order |
| NotificationsRoute.ResultsSplit | src/app/api/admin/notifications/route.ts:227-228 | every result is counted once, as a success or as a failure |
| NotificationsRoute.PushTotalsSnoc | src/app/api/admin/notifications/route.ts:188-259 | the counters after one more batch are that batch's step on the counters before it |
| NotificationsRoute.ChunkCount | src/app/api/admin/notifications/route.ts:188 | another batch remains exactly while the slice start is inside the sequence |
| NotificationsRoute.RunBatch | src/app/api/admin/notifications/route.ts:189-258 | one iteration adds the batch's successes and failures; a throwing send counts the whole batch as failures; a throwing cleanup commit adds the whole batch to the failures again and clears nothing; otherwise the dead tokens are cleared |
| NotificationsRoute.SendPush | src/app/api/admin/notifications/route.ts:182-260 | the counters and cleared users after the loop are those of the batches of 500, in order |
| NotificationsRoute.BatchCounts | src/app/api/admin/notifications/route.ts:227-258 | one batch adds between its size and twice its size to the counters, and exactly its size unless its cleanup commit throws |
| NotificationsRoute.CountersCoverTokens | src/app/api/admin/notifications/route.ts:182-260 | the counters add up to between the number of tokens and twice it, and to exactly the number of tokens when no cleanup commit throws |
| NotificationsRoute.FailedCleanupCountsTwice | src/app/api/admin/notifications/route.ts:227-257 | one dead token whose cleanup commit throws is counted as two failures |
| NotificationsRoute.ClearedAreDead | src/app/api/admin/notifications/route.ts:232-253 | every cleared user was a holder of some batch whose result reported a dead token |
| NotificationsRoute.InAppRecords | src/app/api/admin/notifications/route.ts:264-320 | one unread copy per target, in order, created now |
| NotificationsRoute.FillBatch | src/app/api/admin/notifications/route.ts:269-286 | the `forEach` writes one copy per id of its batch, in order |
| NotificationsRoute.WriteInApp | src/app/api/admin/notifications/route.ts:266-320 | the first 500 targets and then each further 500 get exactly one copy each, in `ceil(n / 500)` commits |
| NotificationsRoute.Deliver | src/app/api/admin/notifications/route.ts:165-328 | the written counters are the push totals, the number of targets and the number of token holders; the copies are one per target |
| NotificationsRoute.Accept | src/app/api/admin/notifications/route.ts:141-339 | the answer names the new record and its recipient count; the record is written for every accepted notification and the delivery exactly when it is sent now |
| NotificationsRoute.PostSpec | src/app/api/admin/notifications/route.ts:49-339 | 401/403 with this handler's own messages, 400 for an empty audience, and the accepted notification otherwise; an error writes nothing |
| NotificationsRoute.Post | src/app/api/admin/notifications/route.ts:49-339 | the handler answers and writes exactly what `PostSpec` says |
| NotificationsRoute.Dated | src/app/api/admin/notifications/route.ts:26-29 | the notifications whose `sentAt` holds a time, at most 50, newest first, each from the collection |
| NotificationsRoute.Undated | src/app/api/admin/notifications/route.ts:26-29 | exactly the notifications stored with a null `sentAt`, which `orderBy` keeps and sorts below every time |
| NotificationsRoute.ListBody | src/app/api/admin/notifications/route.ts:25-35 | at most 50 notifications, as many as the sent and null-dated ones together allow; a document without `sentAt` is never listed |
| NotificationsRoute.ListBodyOrder | src/app/api/admin/notifications/route.ts:26-29 | the list starts with the sent notifications newest first and continues with the null-dated ones |
| NotificationsRoute.UndatedListed | src/app/api/admin/notifications/route.ts:26-35 | a notification with a null `sentAt` is listed whenever the sent and null-dated ones together number at most 50 |
| NotificationsRoute.Summary | src/app/api/admin/notifications/route.ts:142-158 | a stored record always has the `sentAt` field: a time when sent now, `null` otherwise |
| NotificationsRoute.ScheduledListed | src/app/api/admin/notifications/route.ts:142-158 | a notification POST stores without sending it now has a null `sentAt` and is listed by GET, while fewer than 50 listable notifications exist besides it |
| NotificationsRoute.Get | src/app/api/admin/notifications/route.ts:6-42 | 401/403 from the gate leave the cache alone; otherwise the list is served through `notifications_list` for 1 minute |
| PremiumRoute.ToDto | src/app/api/admin/premium/route.ts:43-55 | a row keeps the id, falls back to an empty email, `Unnamed` and `monthly`, has a photo only when one is stored, takes the premium start else the sign-up date, and the minutes from `totalMinutes` else `totalWorkMinutes` else 0 |
| PremiumRoute.SortByStart | src/app/api/admin/premium/route.ts:56-61 | the page's rows in descending order of premium start (missing counts as 0), with the same rows |
| PremiumRoute.CountType | src/app/api/admin/premium/route.ts:64-65 | the number of rows of a plan type is at most the number of rows |
| PremiumRoute.CountInsert | src/app/api/admin/premium/route.ts:56-65 | inserting a row into the sort keeps every plan type's count |
| PremiumRoute.SortKeepsCounts | src/app/api/admin/premium/route.ts:56-65 | sorting keeps every plan type's count |
| PremiumRoute.Revenue | src/app/api/admin/premium/route.ts:63-89 | the subscriber counts are the page's monthly and yearly rows; the yearly revenue is exactly 12 x 29 per monthly and 200 per yearly subscriber, and the rounded monthly revenue is within half a unit of a twelfth of it |
| PremiumRoute.SortKeepsRevenue | src/app/api/admin/premium/route.ts:56-89 | the revenue of the sorted page equals that of the page as fetched |
| PremiumRoute.PageRows | src/app/api/admin/premium/route.ts:39-55 | at most `limit` rows, the `i`-th mapped from the `offset + i`-th premium user |
| PremiumRoute.Body | src/app/api/admin/premium/route.ts:43-90 | the list is the page's rows sorted newest first, with the total, the page, `ceil(total / limit)` pages and the page's revenue estimate |
| PremiumRoute.Get | src/app/api/admin/premium/route.ts:7-95 | 401/403 from the gate leave the cache alone; otherwise the body is served through `premium_<page>_<limit>` for 3 minutes |
| PremiumRoute.ExtendedUntil | src/app/api/admin/premium/route.ts:139-143 | the new end date is `duration` days after the later of now and the current end date, so it is never before `duration` days after either |
| PremiumRoute.Post | src/app/api/admin/premium/route.ts:105-152 | 400 exactly without a user id, 404 exactly for a missing user, and otherwise one grant that extends the end date, keeps a stored start date (else now) and takes the new plan type, else the stored one, else `monthly` |
| PremiumRoute.ExtensionNeverShortens | src/app/api/admin/premium/route.ts:139-143 | for a non-negative duration the new end date never comes before the current one, nor before `duration` days from now |
| PremiumRoute.Patch | src/app/api/admin/premium/route.ts:162-203 | 401/403 from the gate; an error exactly for a missing user id or an action other than `cancel`; `cancel` issues the one cancellation write |
| PremiumAnalytics.MonthsParam | src/app/api/admin/premium/analytics/route.ts:19 | `months` is the given number, else 6 |
| PremiumAnalytics.MonthKey | src/app/api/admin/premium/analytics/route.ts:41-59 | a month key is the year, a dash and two month digits |
| PremiumAnalytics.MonthKeyInjective | src/app/api/admin/premium/analytics/route.ts:41-59 | two months share a key only when they are the same month |
| PremiumAnalytics.Tally | src/app/api/admin/premium/analytics/route.ts:53-73 | a bucket's subscriptions split into monthly and yearly, its revenue is 29 per monthly and 200 per yearly subscription, and it counts no more subscriptions than there are users |
| PremiumAnalytics.TallyIgnores | src/app/api/admin/premium/analytics/route.ts:58-61 | a user without a start date, or starting in another month, leaves a bucket unchanged |
| PremiumAnalytics.DaysInMonth | src/app/api/admin/premium/analytics/route.ts:38-41 | a month has 28 to 31 days, February 29 in Gregorian leap years |
| PremiumAnalytics.SetMonth | src/app/api/admin/premium/analytics/route.ts:38-41 | `setMonth` lands in the target month when the day of month exists there, otherwise in the month after |
| PremiumAnalytics.SetMonthRollsOver | src/app/api/admin/premium/analytics/route.ts:38-41 | the 31st moved to November lands in December, the 29th moved to February stays there in 2024 and 2000 but runs into March in 2025 and 1900 |
| PremiumAnalytics.BucketMonths | src/app/api/admin/premium/analytics/route.ts:37-41 | one month per loop turn, each the calendar month of its turn or the month after |
| PremiumAnalytics.CalendarMonths | src/app/api/admin/premium/analytics/route.ts:37-41 | the range's calendar months are consecutive and end with the current month |
| PremiumAnalytics.CalendarMonthsDistinct | src/app/api/admin/premium/analytics/route.ts:37-41 | the range's calendar months are pairwise distinct |
| PremiumAnalytics.Entry | src/app/api/admin/premium/analytics/route.ts:76-88 | an entry carries its month's short name, and its subscriptions and revenue are priced from the two plans |
| PremiumAnalytics.ChartOf | src/app/api/admin/premium/analytics/route.ts:76-88 | one entry per month, in order |
| PremiumAnalytics.Chart | src/app/api/admin/premium/analytics/route.ts:37-88 | the served chart has one entry per distinct bucket key, in first-insertion order, and at most `months` entries |
| PremiumAnalytics.ChartFixed | src/app/api/admin/premium/analytics/route.ts:37-88 | the corrected chart has exactly one entry for each calendar month of the range, oldest first |
| PremiumAnalytics.ChartHoldsCurrentMonth | src/app/api/admin/premium/analytics/route.ts:37-88 | the served chart always has the current month, and only months of the range |
| PremiumAnalytics.EarlyInMonthShowsEveryMonth | src/app/api/admin/premium/analytics/route.ts:37-88 | up to the 28th of a month no bucket rolls over, and the served chart is the corrected one |
| PremiumAnalytics.MonthEndLosesMonths | src/app/api/admin/premium/analytics/route.ts:37-88 | on 31 March 2025 with six months the served chart has 4 entries where the corrected one has 6 |
| PremiumAnalytics.MonthEndBuckets | src/app/api/admin/premium/analytics/route.ts:37-41 | on 31 March 2025 with six months the loop's bucket months are October, December twice, January and March twice |
| PremiumAnalytics.Zeroed | src/app/api/admin/premium/analytics/route.ts:44-49 | one zeroed bucket for exactly the keys of the given months |
| PremiumAnalytics.ZeroedStep | src/app/api/admin/premium/analytics/route.ts:44-49 | setting a month's key adds a bucket exactly when the month is new, and a key set again keeps its place |
| PremiumAnalytics.InitBuckets | src/app/api/admin/premium/analytics/route.ts:37-50 | the loop leaves one zeroed bucket per distinct month key, the object's keys in first-insertion order of the bucket months |
| PremiumAnalytics.CountUser | src/app/api/admin/premium/analytics/route.ts:53-72 | a user with a start date whose month has a bucket is added to it; every other user changes nothing |
| PremiumAnalytics.CountedTallies | src/app/api/admin/premium/analytics/route.ts:53-73 | counting one more user keeps every bucket equal to its tally of the users counted so far, and adds no bucket |
| PremiumAnalytics.CountUsers | src/app/api/admin/premium/analytics/route.ts:53-73 | after the loop every bucket holds its tally of all premium users, and no bucket is added |
| PremiumAnalytics.Listed | src/app/api/admin/premium/analytics/route.ts:76-88 | one entry per month of the key order |
| PremiumAnalytics.ListedTallies | src/app/api/admin/premium/analytics/route.ts:76-88 | listing buckets that hold the tallies of the users, in key order, gives the chart of those months |
| PremiumAnalytics.ChartData | src/app/api/admin/premium/analytics/route.ts:35-88 | a non-positive range gives an empty chart; otherwise the served chart built from the buckets in key order |
| PremiumAnalytics.ChartEntriesPriced | src/app/api/admin/premium/analytics/route.ts:62-88 | every entry of the served chart splits its subscriptions into its two plans, and its revenue is 29 per monthly and 200 per yearly subscription |
| PremiumAnalytics.OtherPlanTypesDisagree | src/app/api/admin/premium/analytics/route.ts:56-70 | a plan type other than `monthly`/`yearly` is counted as yearly in the chart but in neither plan by the list's revenue estimate |
| PremiumAnalytics.Get | src/app/api/admin/premium/analytics/route.ts:5-90 | 401/403 from the gate; otherwise the chart as served for the given number of months (default 6), one entry per distinct bucket key, so fewer than `months` entries when buckets roll over; nothing is cached |
| PremiumPage.DayCountsReadApart | src/app/admin/premium/page.tsx:122 | two day counts read alike only when they are equal |
| PremiumPage.WholeDays | src/app/admin/premium/page.tsx:120-121 | the whole days in a difference are `n` exactly when it lies between `n` and `n + 1` days |
| PremiumPage.DaysRemainingCounts | src/app/admin/premium/page.tsx:116-123 | `N gün` is shown exactly when between N and N + 1 whole days are left |
| PremiumPage.UnderOneDayReadsExpired | src/app/admin/premium/page.tsx:116-123 | less than one whole day left already reads `Süresi dolmuş` |
| PremiumPage.ExtensionShowsItsDays | src/app/admin/premium/page.tsx:116-123 | right after an extension by `d` days, the same clock shows at least `d` days left |
| PremiumPage.UnknownPlanBadgedYearlyNotCounted | src/app/admin/premium/page.tsx:355-358 | a plan type other than `monthly`/`yearly` wears the yearly badge but is counted in neither plan by the list's figures |
| PremiumPage.BreakdownOf | src/app/admin/premium/page.tsx:236-302 | the premium card is the two subscriber counts added, the monthly row is 29 per monthly subscriber, the yearly row is a rounded twelfth of 200 per yearly subscriber, and the total is the server's monthly revenue |
| PremiumPage.RoundTwelfthsShift | src/app/admin/premium/page.tsx:295 | whole units come out of a rounded number of twelfths unchanged |
| PremiumPage.PlansWithinPage | src/app/api/admin/premium/route.ts:64-65 | the monthly and yearly rows of a page never exceed the page's users |
| PremiumPage.RowsAddUpToTotal | src/app/admin/premium/page.tsx:285-302 | for figures the list computed, the monthly and yearly rows add up exactly to the total, and the premium card counts at most the page's users |
| PremiumPage.DurationInput | src/app/admin/premium/page.tsx:475 | a typed number other than 0 is kept, and a non-number or 0 falls back to 30 |
| PremiumPage.NegativeDurationShortens | src/app/admin/premium/page.tsx:475 | a typed `-5` is kept, and the server then moves a future end date earlier |
| PremiumPage.Preview | src/app/admin/premium/page.tsx:484-486 | the preview is the chosen days after the current end date, or after now when there is none |
| PremiumPage.PreviewMatchesServerUnlessLapsed | src/app/admin/premium/page.tsx:484-486 | the preview never comes after the date the server writes, and equals it exactly when the plan has no end date or has not lapsed |
| PremiumPage.CancelRequest | src/app/admin/premium/page.tsx:186-189 | the cancel request names the row's user and the action `cancel` |
| PremiumPage.ExtensionKeepsPlan | src/app/admin/premium/page.tsx:146-150 | an extension from the page keeps the plan type shown, and the new end is the server's rule on the stored end date |
| PremiumPage.CancelAccepted | src/app/admin/premium/page.tsx:180-190 | the cancel button's request is always accepted and writes one cancellation |
| PremiumPage.EmptyListNextReachesPageZero | src/app/admin/premium/page.tsx:93 | as written, with no premium users the page count is 0, so Next is enabled on page 1 and moves to page 0 |
| PremiumPage.EmptyListFixedStaysOnPageOne | src/app/admin/users/page.tsx:60 | the corrected half of a finding: with the fallback to one page, an empty list disables Next on page 1 and no button leaves page 1 |
| PremiumPage.PremiumView.constructor | src/app/admin/premium/page.tsx:38-51 | the page starts on page 1 of 1, with no users, zero figures, no selection, the dialog closed and 30 days chosen |
| PremiumPage.PremiumView.Previous | src/app/admin/premium/page.tsx:404-405 | Previous moves one page back, never below 1 (also from page 0), and changes nothing else |
| PremiumPage.PremiumView.Next | src/app/admin/premium/page.tsx:414-415 | Next moves one page on, never past the page count, which is page 0 when the count is 0, and changes nothing else |
| PremiumPage.PremiumView.Fetch | src/app/admin/premium/page.tsx:78-100 | a successful answer replaces the users, the figures and the page count, taken as announced with no fallback to one page; a failed one changes nothing |
| PremiumPage.PremiumView.OpenExtend | src/app/admin/premium/page.tsx:375-379 | `Uzat` selects the row's user and opens the dialog, keeping the last duration |
| PremiumPage.PremiumView.TypeDuration | src/app/admin/premium/page.tsx:472-475 | typing sets the duration to the parsed number, or 30 |
| PremiumPage.PremiumView.ChoosePreset | src/app/admin/premium/page.tsx:458-461 | a preset sets the duration to its days |
| PremiumPage.PremiumView.Extend | src/app/admin/premium/page.tsx:125-165 | a request is sent exactly with a selected user, a confirmation and a session, carrying the user's id, plan type and the chosen duration; a success closes the dialog and clears the selection |
| UsersRoute.FilterQuery | src/app/api/admin/users/route.ts:31-43 | `premium`, `banned` and `recent` select their own queries (the last one created in the past seven days), and any other value, `all` included, selects every user |
| UsersRoute.CacheKeyCollision | src/app/api/admin/users/route.ts:53 | the cache key does not separate its parts: two requests for different queries can share one cache entry |
| UsersRoute.ToDto | src/app/api/admin/users/route.ts:67-80 | a row keeps the document's id, email and photo, always has a name (`Unnamed` when missing), is premium or banned only when the flag is literally true, and counts missing minutes as 0 |
| UsersRoute.Body | src/app/api/admin/users/route.ts:59-87 | the answer carries the total count, the requested page, the page count for that total, and exactly the page's slice of the query's results as rows |
| UsersRoute.Get | src/app/api/admin/users/route.ts:5-100 | the inline gate as written decides 401/403 and a refusal leaves the cache alone; otherwise the page for the filter (`all` when absent) is served, from a live cache entry when there is one, and cached for 2 minutes |
| UsersRoute.Patch | src/app/api/admin/users/route.ts:102-177 | the inline gate as written answers 401/403; a missing id or action, or an unknown action, answers 400; `setPremium` without `data` answers 500; otherwise ban, unban, setPremium and delete issue exactly their two document-and-account writes (one for setPremium) |
| UsersRoute.BanUnbanEffect | src/app/api/admin/users/route.ts:136-146 | after `ban` the user is banned and after `unban` not, whatever the flag was, and no other user's flag changes |
| UsersPage.FormatMinutesReads | src/app/admin/users/page.tsx:112-115 | a non-negative study time reads as its whole hours, then the minutes under 60 |
| UsersPage.NegativeMinutesShowTwoSigns | src/app/admin/users/page.tsx:112-115 | a negative time shows a minus sign on both parts (`-1s -1dk` for -1) |
| UsersPage.DigitsBeforeMark | src/app/admin/users/page.tsx:114 | two digit strings each followed by the same non-digit mark split the same way |
| UsersPage.FormatMinutesShape | src/app/admin/users/page.tsx:112-115 | the text of a non-negative time is the hours, `s`, a space, the minutes and `dk` |
| UsersPage.MinutesPartShape | src/app/admin/users/page.tsx:114 | the minutes part, cut after its space, ends in `dk` |
| UsersPage.FormatMinutesInjective | src/app/admin/users/page.tsx:112-115 | two different non-negative study times never show the same text |
| UsersPage.Search | src/app/admin/users/page.tsx:117-123 | the narrowed list keeps exactly the fetched users whose lower-cased name or email (Turkish and Latin-1 letters folded) contains the lower-cased term, and is never longer |
| UsersPage.SearchEmptyKeepsAll | src/app/admin/users/page.tsx:117-123 | an empty search box keeps every fetched user, in order |
| UsersPage.SearchIgnoresCase | src/app/admin/users/page.tsx:120-121 | the search does not see case: a term and its lower-cased form keep the same users |
| UsersPage.ContainsLonger | src/app/admin/users/page.tsx:120-121 | a text that contains `a + b` contains `a` |
| UsersPage.LongerTermNarrows | src/app/admin/users/page.tsx:117-123 | typing more only narrows the list |
| UsersPage.Badges | src/app/admin/users/page.tsx:219-235 | the Premium badge shows exactly for a premium user, Yasaklı exactly for a banned one, and Ücretsiz exactly when neither applies |
| UsersPage.BanToggle | src/app/admin/users/page.tsx:269-292 | the menu offers Yasakla to a user who is not banned and Yasağı Kaldır to one who is |
| UsersPage.Menu | src/app/admin/users/page.tsx:255-306 | the menu holds the details, exactly one of ban and unban, and delete |
| UsersPage.BanToggleFlips | src/app/admin/users/page.tsx:269-292 | the ban item always flips that user's flag, and only that user's |
| UsersPage.PremiumGrant | src/app/admin/users/page.tsx:392-398 | "Premium Ver" sends premium, ending 30 days after the browser's clock |
| UsersPage.PremiumGrantWritten | src/app/admin/users/page.tsx:392-398 | the server writes that grant as sent, and nothing about the plan or its start |
| UsersPage.GrantedUserListedAsMonthly | src/app/admin/users/page.tsx:392-398 | a user made premium this way is listed on the premium page as a monthly plan that started when the account was created |
| UsersPage.FetchError | src/app/admin/users/page.tsx:38-70 | the error line is cleared exactly after a successful fetch, and otherwise names the missing session, the refused request or the lost connection |
| UsersPage.UsersView.constructor | src/app/admin/users/page.tsx:24-32 | the page starts on page 1 of 1, filter `all`, an empty search, no users and no error |
| UsersPage.UsersView.Previous | src/app/admin/users/page.tsx:321-327 | Previous moves one page back, never below 1, and changes nothing else |
| UsersPage.UsersView.Next | src/app/admin/users/page.tsx:331-337 | Next moves one page on, never past the page count, and changes nothing else |
| UsersPage.UsersView.ChangeFilter | src/app/admin/users/page.tsx:158-167 | choosing a filter sets it and changes nothing else |
| UsersPage.UsersView.ChangeSearch | src/app/admin/users/page.tsx:148-154 | typing sets the term, the rows on screen become the search over the fetched users, and nothing else changes |
| UsersPage.UsersView.Fetch | src/app/admin/users/page.tsx:38-70 | a loaded answer replaces the users and the page count (at least 1); any other outcome keeps them; the error line follows the outcome |
| ReportsPage.Requests | src/app/admin/reports/page.tsx:94-158 | a fetch asks exactly for the kinds the type filter selects (every kind under `all`), each for the current page, 20 rows and the status filter |
| ReportsPage.ListAfter | src/app/admin/reports/page.tsx:103-157 | a kind's list is emptied when the filter does not fetch it, replaced by a successful answer, and kept when its request fails |
| ReportsPage.SpecificTypeShowsOnlyItsOwn | src/app/admin/reports/page.tsx:95-158 | choosing one type fetches that type and empties the other two lists |
| ReportsPage.AllPagesAsWrittenHidesMessagePages | src/app/admin/reports/page.tsx:128-154 | as written, five pages of message reports become unreachable when the room endpoint announces one page: Next is disabled on page 1 |
| ReportsPage.AllPagesAsWrittenNeverShrinks | src/app/admin/reports/page.tsx:130-153 | as written, the count under `all` never drops below the count from before the fetch, so it never shrinks when the filters narrow the lists |
| ReportsPage.AllPages | src/app/admin/reports/page.tsx:94-158 | the corrected half of a finding, used by no page: under `all`, every page count an endpoint announced stays reachable, and the count is one of those announced (or 1); with every request failed, the old count stays |
| ReportsPage.TotalPagesAfter | src/app/admin/reports/page.tsx:106-154 | a specific type takes its own endpoint's count (at least 1), or keeps the old one when that request failed; `all` takes the count as written, the room answer combined with the stale count when the room request succeeds; the count never drops below 1 |
| ReportsPage.AllPagesForgetsBefore | src/app/admin/reports/page.tsx:130-153 | once some endpoint answers, the count under `all` no longer depends on the count from before |
| ReportsPage.PendingCount | src/app/admin/reports/page.tsx:352 | the header badge counts pending legacy and message reports, never more than they number, and is 0 exactly when none of them is pending (room reports are not counted) |
| ReportsPage.ReasonLabel | src/app/admin/reports/page.tsx:290-300 | a known reason code reads as its own Turkish label, any other reason as itself, and the label is empty only for an empty reason |
| ReportsPage.KnownReasonsLabelledApart | src/app/admin/reports/page.tsx:291-298 | the six known codes get six different labels |
| ReportsPage.RawReasonCanPassForLabel | src/app/admin/reports/page.tsx:299 | an unknown reason that spells a label reads exactly like that label |
| ReportsPage.StatusBadge | src/app/admin/reports/page.tsx:302-315 | the four statuses the server writes get a coloured badge with a Turkish text, and anything else shows raw in grey |
| ReportsPage.KnownStatusesBadgedApart | src/app/admin/reports/page.tsx:302-315 | the four known statuses get four different badges |
| ReportsPage.Offered | src/app/admin/reports/page.tsx:704-1070 | closed reports offer nothing; legacy reports offer moves only while pending, message and room reports while pending or reviewing; every move offered goes forward to a status the server knows |
| ReportsPage.LegacyOfferAccepted | src/app/admin/reports/page.tsx:704-720 | every legacy modal button is accepted by the legacy PATCH and closes the report with its status, signed by the admin id (`admin` when none) |
| ReportsPage.MessageOfferAccepted | src/app/admin/reports/page.tsx:864-906 | every message-report modal button is accepted by the message-report PATCH and writes the status it names |
| ReportsPage.ServerAllowsUnofferedReopen | src/app/admin/reports/page.tsx:839-906 | the server reopens a resolved message report, a move no modal offers |
| ReportsPage.ReportsView.constructor | src/app/admin/reports/page.tsx:69-80 | the page starts on page 1 of 1, both filters `all`, and all three lists empty |
| ReportsPage.ReportsView.Previous | src/app/admin/reports/page.tsx:572-578 | Previous moves one page back, never below 1, and changes nothing else |
| ReportsPage.ReportsView.Next | src/app/admin/reports/page.tsx:582-588 | Next moves one page on, never past the page count, and changes nothing else |
| ReportsPage.ReportsView.ChangeType | src/app/admin/reports/page.tsx:372-376 | choosing a type sets it and goes back to page 1, changing nothing else |
| ReportsPage.ReportsView.ChangeStatus | src/app/admin/reports/page.tsx:385-389 | choosing a status sets it and goes back to page 1, changing nothing else |
| ReportsPage.ReportsView.Fetch | src/app/admin/reports/page.tsx:86-164 | each list follows its kind's answer as above and the page count becomes the count as written, each `all` update combining with the count from before the fetch; the page and the filters stay |

## Left out

- Firebase itself is not modelled, only its results. That covers Firestore queries, count aggregations, batch commits, `verifyIdToken`, account updates and deletes, and FCM `sendEachForMulticast`. Each comes in as a parameter or a result: documents, counts, a verifier function, a send function.
- The 500 answers from `catch` blocks around backend calls are left out, because the backend cannot fail in the model. Two are kept: the 500 for a `setPremium` without `data`, and the public stats fallback. The verify endpoint's 500 cannot arise in the model, since `verifyAdminToken` turns every provider failure into a refusal.
- Common.ToLower: folds only A–Z, the Latin-1 capitals and the Latin Extended-A capitals, which include the Turkish Ç Ğ İ Ö Ş Ü, with İ becoming i and a combining dot as in JavaScript. Capitals of other scripts (Greek, Cyrillic, Latin Extended-B and beyond) stay as they are, and so does the context rule for the Greek final sigma, because the full Unicode case table is not part of the model. Common.LowerChar, AdminAuth.AllowList, AdminAuth.VerifyAdminToken, UsersPage.Matches and UsersPage.Search inherit this limit.
- Strings are sequences of Unicode characters, not of UTF-16 code units, so a length differs from JavaScript's for characters outside the Basic Multilingual Plane. No property in the model depends on such a length.
- Logging (`console.*`), the `loading` flags and `alert` pop-ups are left out, because they show nothing the model can state.
- UsersRoute.Get, RoomsRoute.Get, ReportsRoute.Get, MessageReportsRoute.Get, PremiumRoute.Get: these require `page >= 1 && limit >= 1`.
  - The source parses `page` and `limit` with `parseInt` and hands any value to Firestore. A zero, negative or non-numeric value there makes `offset`/`limit` throw, and the handler answers 500.
  - The model covers only the well-formed requests.
- Listing.PageOf, Listing.MapPage, Listing.ListPage and the route `Body` functions carry the same `page`/`limit` precondition, for the same reason.
- Listing.TotalPages: requires a positive `limit`. The source's `Math.ceil(total / 0)` is `Infinity` or `NaN`, which the model does not represent.
- `Date` calendar arithmetic is not computed, except the month lengths and the `setMonth` rollover of the premium analytics buckets. This covers `setDate` rollover, time zones, `toISOString` and `toLocaleDateString`.
  - Midnights, month keys and ISO date keys come in as functions of a day or month index.
  - Their orderings are stated as preconditions where a lemma needs them.
  - Dates are shown as millisecond integers.
- Float arithmetic is modelled with exact integers. The extrapolation `floor(S·T/N)` and the rounded revenue figures can differ from the source's double-precision results by rounding.
- The `deviceStats` fractions and the `userRetention` constants in the analytics route are left out, because they are hard-coded mock data.
- The 15% `activeUsers` guess on the public stats route is kept as the integer `floor(users·15/100)`.
- The cost tracker's dollar estimate in `getCostEstimate` is left out, because it is float arithmetic. CostOptimizer.CostTracker.Estimate reports only the two counters.
- `batchUpdateUsers`, `getUsersListMinimal`, `getRecentActivity` and `getActiveRooms` in the cost optimizer are left out. They are thin wrappers around a single query or batch write, and no handler in the model calls them.
- `createCachedListener` is left out, because it is `setInterval` plumbing. The same goes for every timer and `Promise.all` fan-out; the handlers are modelled as running to completion one at a time.
- Scheduled notifications are stored but never delivered. Nothing in the source delivers them later, so the model has no delivery step for them. They are listed by GET after the sent ones; the order among them stands for the store's tie order by document id, which the model takes as given.
- The notifications handler's final counter update on the record is modelled as its fields. A failure of that write is only logged, and is left out.
- `formatMinutes` on the premium page is the same expression as on the users page. UsersPage.FormatMinutes models both.
- `formatDate` on the pages is left out, because it is locale-dependent rendering (`toLocaleDateString('tr-TR', …)`).
- The premium page's revenue cards show the server's figures and are not recomputed.
- The pages' detail modals, menus and loading skeletons are kept only as far as they decide which request is sent.
- The cookie written by the login page and the Firebase client session are left out. The pages take "signed in" as a boolean.
- The pages' `useEffect` re-fetch on a change of page or filter is left out as an automatic step. The model has explicit `Fetch` methods that take the endpoint's answer.
- Other parts of the repository are not part of this model:
  - src/lib/firebase-admin.ts;
  - src/types/index.ts;
  - the marketing pages, layout and presentational components;
  - the admin dashboard, analytics, settings, login, rooms and notifications pages;
  - the dev and test routes.

## Findings

| source | as written | input that shows it | evidently intended | confidence | as-written member | corrected member |
|---|---|---|---|---|---|---|
| src/app/api/admin/users/route.ts:18-21 | the inline gate splits `ADMIN_EMAILS` on commas without trimming and tests membership of the email claim, or of the empty string when the claim is missing | `ADMIN_EMAILS="admin@x.com,"` and a valid token with no email claim: the empty string is on the list, so the request is admitted | a token without an email claim is refused, as `verifyAdminToken` refuses it | high; not executed | RequestAuth.InlineAdmitsTokenWithoutEmail | RequestAuth.InlineAdminCheckFixed |
| src/lib/firebase-cost-optimizer.ts:116 | the minutes are extrapolated by `count / sample size` with no guard | no users: the sample is empty, `0 / 0` is NaN, and the public page shows `NaNM+` and NaN hours | extrapolate only from a non-empty sample, as the admin stats route does at src/app/api/admin/stats/route.ts:89-91 | high; not executed | PublicStatsRoute.EmptySampleShowsNaN | PublicStatsRoute.LabelsAreNumbers |
| src/app/admin/reports/page.tsx:130 | under the `all` type filter each fetch sets the larger of its own page count (1 when absent) and `totalPages` with the `totalPages` from before the fetch; the room answer overwrites the message answer, and the legacy count is never read | before 1, message reports announce 5 pages, room reports 1: the count becomes 1, Next is disabled, and pages 2-5 of message reports cannot be reached | the largest count any endpoint announced | medium; not executed | ReportsPage.AllPagesAsWrittenHidesMessagePages | ReportsPage.AllPages |
| src/app/api/admin/analytics/route.ts:84 | the growth estimate for the day `i` days ago is `max(100, totalUsers - (days - i)·10)` | 1000 users over 7 days: the oldest day shows 990 and today 930, so the series falls and today is not the current total | ten users fewer per day back, reaching the current total today: `max(100, totalUsers - i·10)` | medium; not executed | AnalyticsRoute.GrowthAsWrittenFalls | AnalyticsRoute.GrowthRisesToTotal |
| src/app/admin/premium/page.tsx:93 | the page count is taken from the answer with no fallback to 1, which the other pages apply | no premium users: the server announces 0 pages, Next is enabled on page 1 and moves to page 0, which the list endpoint cannot serve | a count of 0 reads as one page | high; not executed | PremiumPage.EmptyListNextReachesPageZero | PremiumPage.EmptyListFixedStaysOnPageOne |
| src/app/api/admin/premium/analytics/route.ts:38-41 | each bucket's date is a copy of now moved back with `setMonth`, which keeps the day of month and runs on into the next month when that day does not exist | now 31 March 2025 and 6 months: the keys are 2024-10, 2024-12, 2024-12, 2025-01, 2025-03, 2025-03, so the chart has 4 entries and November and February are missing | one bucket for each of the last `months` calendar months | high; not executed | PremiumAnalytics.MonthEndLosesMonths | PremiumAnalytics.ChartFixed |
