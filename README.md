# Voice-ledger pricing dashboard: the state merge, sales aggregation and ROI projection in Dafny

The dashboard lets a shop owner describe a sale. It sends the description to a
hosted model for a pricing recommendation. It folds the answer into three
in-memory lists: the sales, the price list and the interaction history. It then
draws two charts derived from the sales. This project models the three pieces
of that application that carry logic and proves what they promise:

- **One recommendation cycle** (`handleGetPricingAdvice`, App.tsx). The class
  `App.PricingController` holds the history, sales, price list, busy flag and
  error. `Begin` is the part before the awaited client call and `Settle` the
  part after it. `Submit` is the whole cycle.
  - An empty transcript is refused.
  - On success the history gains a new head.
  - On success the sales gain a capitalised, dated entry.
  - On success the price list is merged case-insensitively.
  - A client failure changes none of the three lists.
  - The busy flag is cleared either way.
  The recommendation client is a parameter: the outcome `Success(response)` or
  `Failure` that it would return.
- **Sales by item** (the `reduce` in components/SalesChart.tsx).
  `SalesChart.Aggregate` is the fold. `SalesChart.FindItem` is its
  `find`. Rows are the distinct item names in first-seen order, and each row
  holds the sums over the sales of exactly that name.
- **ROI projection** (`calculateRoiData`, components/RoiChart.tsx).
  `RoiChart.CalculateRoiData` sorts by date, walks the sorted sales with the
  cumulative and compounding accumulators, rounds, and keeps the last 15 points.
  It is proved equal to the declarative `RoiChart.RoiData`, and the lemmas state
  what that series is.

Modules: `Types` (the records of types.ts), `Text` (ASCII case functions and
capitalisation), `Dates` (date order and the stable sort), `App`,
`SalesChart`, `RoiChart`.

Modelling choices:
- Money is `real`, so 0.4 is exactly 2/5 and 1.05 is exactly 21/20.
- `Math.round(x)` is `Floor(x + 1/2)`.
- Quantities are `int`, because the response schema asks for an integer.
- Dates are the stored `YYYY-MM-DD` strings, compared lexicographically. For
  strings of that shape this is the order of the parsed calendar times the
  comparator subtracts.
- The clock (`Date.now()`, today's date) is passed in as parameters.
- The code's `!transcript` refuses only the empty string, so a transcript of
  spaces goes to the client. `Submit` refuses exactly `""`.

## Model

| member | source | states |
|---|---|---|
| `Text.Lower` | App.tsx:60 | `toLowerCase()` keeps the length and lower-cases each character, ASCII letters only |
| `Text.CapitalizeShape` | App.tsx:54 | the contract of `Text.Capitalize`: capitalising keeps the length; only the first character changes, to its upper case; the rest is the name as parsed |
| `Text.CapitalizeSameItem` | App.tsx:54-63 | the capitalised name is case-insensitively the parsed name, so the merge matches the same entries either way |
| `App.AnyMatchesExists` | App.tsx:60 | the contract of `App.AnyMatches`: `some` holds exactly when some entry's name equals the new name ignoring case (both directions) |
| `App.UpdateMatchingPointwise` | App.tsx:62-66 | the contract of `App.UpdateMatching`: `map` keeps the length, gives every matching entry the recommended price under its own name, and leaves every other entry as it was |
| `App.MergeExisting` | App.tsx:59-66 | `App.MergePrice`, matching branch: when some entry matches, the merged list has the same length, every matching entry carries the recommended price and keeps its name, every other entry is unchanged |
| `App.MergeNew` | App.tsx:67-69 | `App.MergePrice`, other branch: when no entry matches, the merged list is the old list with exactly one entry `{capitalised name, recommended price}` appended |
| `App.MergeRecordsPrice` | App.tsx:59-70 | after any `App.MergePrice` some entry names the item (ignoring case) at the recommended price |
| `App.MergeKeepsNamesUnique` | App.tsx:59-70 | a list with no two case-insensitively equal names still has none after a merge |
| `App.MergeRepricesTheMatch` | App.tsx:60-66 | in a list without case duplicates, a merge that finds the item re-prices that one entry and nothing else |
| `App.SeededPriceListUnique` | App.tsx:21-25 | the contract of `App.SeededPriceList`: the seeded T-Shirt/Mug/Cap list has no case duplicates |
| `App.SeededSalesTotals` | App.tsx:12-19 | the contract of `App.SeededSales`: six seeded sales, 1455 in all, 90 items sold |
| `App.NewTransactionFields` | App.tsx:52-56 | the contract of `App.NewTransaction`: the logged sale keeps the parsed quantity, total and unit price, its name is the parsed name capitalised (same length, case-insensitively the same item), and it is dated the day of the cycle |
| `App.SeededTShirtMerge` | App.tsx:59-70 | a response parsed as "t-shirt" at 22 re-prices the seeded "T-Shirt" entry and adds none |
| `App.PricingController.constructor` | App.tsx:29-33 | the controller starts with empty history, the seeded sales and price list, not busy and with no error |
| `App.PricingController.Begin` | App.tsx:36-41 | empty transcript: missing-input error, no request, lists and busy flag unchanged; otherwise busy, error cleared, request carries the transcript and the current sales |
| `App.PricingController.Settle` | App.tsx:43-79 | on success the history gains the new item at its head, the sales gain the capitalised sale dated today at the end, the price list is merged; on failure the generic error is set and no list changes; the busy flag ends false; case-uniqueness of the price list is kept |
| `App.PricingController.Submit` | App.tsx:35-80 | the whole cycle: the client is asked only for a non-empty transcript, with the sales as they were; the new state per outcome as for `Begin` then `Settle`; the error is cleared on success |
| `App.TwoCycles` | App.tsx:45-57 | after two successful submissions the later one is `history[0]`, the earlier `history[1]`, earlier history follows, and both sales are appended in order |
| `Dates.NotAfterTotalPreorder` | components/RoiChart.tsx:19 | the date comparator is a total preorder: total, transitive, and two dates each not after the other are equal |
| `Dates.SortedPairwise` | components/RoiChart.tsx:19 | in a date-sorted list every earlier sale is dated no later than every later one |
| `Dates.SortByDateCorrect` | components/RoiChart.tsx:19 | the contract of `Dates.SortByDate`: the sort of the copy is in date order and a permutation of the input, with the same length and the same total sales |
| `Dates.SortByDateStable` | components/RoiChart.tsx:19 | `Dates.SortByDate` is stable: the sales of one date keep their input order (the sort is stable) |
| `SalesChart.FindItem` | components/SalesChart.tsx:12 | `find` returns the first row whose name equals the item exactly, or none exactly when no row has that name |
| `SalesChart.Aggregate` | components/SalesChart.tsx:11-24 | rows are the first-seen distinct names; each row's totals are the sums over the sales of exactly that name; the grand totals equal the input's total sale and total quantity; names pairwise distinct; no more rows than sales (so empty gives empty) |
| `SalesChart.FirstSeenMembers` | components/SalesChart.tsx:12-22 | a name is a row exactly when some sale has that item |
| `SalesChart.FirstSeenDistinct` | components/SalesChart.tsx:12-22 | no name is listed twice, and there are no more names than sales |
| `SalesChart.FirstSeenOrder` | components/SalesChart.tsx:12-22 | a name listed earlier first appears earlier in the sales |
| `SalesChart.CaseSensitiveRows` | components/SalesChart.tsx:12 | a sale of "T-Shirt" followed by one of "T-shirt" gives two rows, in that order |
| `RoiChart.CalculateRoiData` | components/RoiChart.tsx:11-33 | the loop with the running cumulative and projected profits, then the last-15 slice, returns exactly `RoiData` of the input |
| `RoiChart.SeriesAt` | components/RoiChart.tsx:21-31 | the full series has one point per sorted sale, the k-th built from the first k+1 sorted sales |
| `RoiChart.RoiDataLength` | components/RoiChart.tsx:12-32 | the size of `RoiChart.RoiData`: fewer than 2 sales give no points; otherwise min(n, 15) points |
| `RoiChart.RoiDataIsSuffix` | components/RoiChart.tsx:21-32 | the k-th point kept is the point of the sorted sale at position (first kept index + k) of the full series |
| `RoiChart.RoiCurrentProfit` | components/RoiChart.tsx:21-31 | each kept point carries its sale's date, round(0.4 × the sales up to it, counted from the first sorted sale) and round(the projection up to it) |
| `RoiChart.LastPointOfSeries` | components/RoiChart.tsx:21-32 | the last kept point's actual profit is round(0.4 × all the sorted sales) |
| `RoiChart.RoiLastPointCoversAll` | components/RoiChart.tsx:14-32 | the last point reflects all n sales, not only the 15 kept |
| `RoiChart.RoiDatesOrdered` | components/RoiChart.tsx:19-28 | point dates never go back in time |
| `RoiChart.ProjectionDominates` | components/RoiChart.tsx:22-25 | with no negative sale the cumulative profit is non-negative and never above the unrounded projection |
| `RoiChart.SeriesMonotone` | components/RoiChart.tsx:22-30 | with no negative sale, along the full series the actual profit never goes down and each projected point is at least the actual one |
| `RoiChart.SortKeepsNoRefunds` | components/RoiChart.tsx:19 | sorting keeps every sale non-negative when the input has no negative sale |
| `RoiChart.RoiMonotone` | components/RoiChart.tsx:22-30 | with no negative sale the kept actual profits are non-decreasing and each projected point is at least its actual one |
| `RoiChart.Round` | components/RoiChart.tsx:29-30 | `Math.round` gives the integer within one half of the amount, halves going up: x - 1/2 < round(x) <= x + 1/2 |
| `RoiChart.RoundMonotone` | components/RoiChart.tsx:29-30 | rounding never reverses the order of two amounts |
| `RoiChart.TwoSalesOfOneHundred` | components/RoiChart.tsx:14-32 | two sales of 100 in date order give actual [40, 80] and projected [42, 86] |
| `RoiChart.TwoDaysOfOneHundred` | components/RoiChart.tsx:14-32 | the same for sales dated 2023-01-01 and 2023-01-02 |

## Left out

- services/geminiService.ts is not part of this model. It builds the prompt, calls the hosted model and parses JSON. The controller receives its outcome as a parameter, and every kind of failure is one `Failure`.
- components/Dashboard.tsx, Header.tsx, HistoryView.tsx, RecordButton.tsx and PriceList.tsx are presentation. This covers speech capture and playback, `alert`, the transcript accumulation, and the locale-dependent sort of the price list.
- App.PricingController.Settle: a response with a missing `transaction` or `recommendation` is not modelled. The response schema marks neither top-level field required, and the parsed JSON is cast unchecked (services/geminiService.ts:7-30, 64-65). Without `transaction`, the history entry is already queued when App.tsx:54 throws, so the history grows, the generic error is set, and sales and price list stay. Without `recommendation`, history and sales are updated, and the price-list updater then throws outside the `try` (App.tsx:64, 68). Here a response always has both parts, so success updates all three lists and failure none.
- `console.error` logging of the failure cause is not modelled.
- React scheduling is not modelled. `useCallback` can capture stale `salesData`, and submissions can interleave. `Begin` and `Settle` may interleave, but `Submit` sends the current sales.
- Case mapping covers ASCII only. Full Unicode `toUpperCase`/`toLowerCase` (for example ß to SS, which changes length) is not modelled.
- Date parsing of malformed strings is not modelled. `new Date` yields NaN there, and the comparator misbehaves. Only well-formed `YYYY-MM-DD` strings are meant, and they compare lexicographically.
- The object spread `...result.transaction` would also copy extra fields the model returned. The records here have exactly the schema's fields.
- RoiChart.CalculateRoiData: the arithmetic is exact rational arithmetic, not IEEE-754 doubles. A rounding result that depends on binary floating-point error (such as 86.1 stored as 86.09999…) is not captured.
- RoiChart.CalculateRoiData: the library `sort` of the copied array is the pure stable insertion sort `Dates.SortByDate`, not an in-place array algorithm. Any stable sort gives this order. The input is a value, so it is never reordered.
- SalesChart.Aggregate: the accumulator's rows are values updated by reassignment. The source mutates the found row object in place, and that aliasing is not observable outside the fold.
