# quotes-r-us: the quote generator and the quote store

This project models the logic of the quotes-r-us single-page application, which shows home-energy
installation quotes on a map. That logic is two pieces of `src/components/App.tsx`:

- **The quote generator** (`generateRandomQuotes`). It builds `count` synthetic `Quote` records.
  Each field comes from a fixed catalog or a bounded integer range. `overallRating` is derived from
  the three team ratings.
  Each `Math.floor(Math.random() * n)` becomes an injected integer draw in `[0, n)`. Each `Date.now()`
  reading becomes an injected clock value in milliseconds. Both are carried by a per-record `Draw`
  value (`Quotes.Draw`), and the generator becomes a total, deterministic function
  `Quotes.Generate(count, draws)`.
- **The quote store** (the `quotes` and `filters` state cells of `App`). It is modelled as the class
  `Store.App`, with two state-changing methods:
  - `AddQuote` appends a quote to the list, without checking it;
  - `UpdateFilters` shallow-merges a partial filter selection. Each of the three keys `service`,
    `price` and `rating` is an `Option<string>`: `None` means the key is absent.

Files: `Wrappers.dfy` holds `Option`. `Quotes.dfy` holds the `Quote` record, the catalogs and the
generator. `Store.dfy` holds the filter record, the merge and the `App` state.

Dates are integers (milliseconds since the epoch). `overallRating` is a Dafny `real`, so the
derivation at line 107 is an exact equation.

The source calls `Date.now()` inside the per-index callback (line 110), so every record has its own
clock reading (`Draw.clock`). `Quotes.GenerateDatesWithin` covers the case where all readings lie
in `[start, now]`. A single reading is the special case `start == now`.

## Model

| member | source | states |
|---|---|---|
| Quotes.MakeQuote | src/components/App.tsx:100-128 | the record for 0-based index `i` has id `i + 1`, its service and company are catalog entries, price is in [1000, 16000), the three ratings are in [1, 10], validity is in [1, 30], overallRating equals the halved mean of the ratings, the date is in (clock - 90 days, clock], and the creation date is in (date - 30 days, date] |
| Quotes.MakeQuoteOnto | src/components/App.tsx:101-112 | every value in each field's range is reachable: any well-formed record with id `i + 1` and a date in the window of a clock reading is built from some draw with that reading |
| Quotes.MakeQuoteInjective | src/components/App.tsx:101-112 | each field is fixed by its own draw: for one clock reading, different draws give different records, so draws map one-to-one onto records |
| Quotes.Generate | src/components/App.tsx:96-130 | `generateRandomQuotes(count)` returns exactly `count` quotes; the quote at position `i` has id `i + 1`, is well-formed, and its date is in (its clock reading - 90 days, its clock reading] |
| Quotes.GenerateAt | src/components/App.tsx:100 | the quote at index `i` is exactly the record built from index `i` and the draws of that index alone, as `Array.from` with an index callback gives |
| Quotes.GeneratePrefix | src/components/App.tsx:100 | generating `k <= count` records gives the first `k` records of generating `count` from the same draws |
| Quotes.GeneratedIdsDistinct | src/components/App.tsx:115 | two generated quotes have the same id if and only if they are at the same position |
| Quotes.GenerateDatesWithin | src/components/App.tsx:110-111 | when every clock reading lies in [start, now], each date is in (start - 90 days, now] and each creation date is in (date - 30 days, date]; hence quoteCreationDate <= date <= now |
| Quotes.OverallRating | src/components/App.tsx:107 | the overall rating is the mean of the three team ratings, halved: six times it is the ratings' sum, and ratings in [1, 10] put it in [1/2, 5] |
| Quotes.GeneratedOverallRatingBounds | src/components/App.tsx:104-107 | every generated quote's overall rating is in [1/2, 5] |
| Quotes.GenerateSmallCounts | src/components/App.tsx:100 | generating 0 quotes gives the empty list; generating 1 gives one quote with id 1 |
| Store.Merge | src/components/App.tsx:55-57 | `{ ...prevFilters, ...newFilters }` over the three filter keys sets each key that the update carries to the carried value and leaves each absent key at its previous value |
| Store.MergeSelfIsNoop | src/components/App.tsx:55-57 | merging the current selection into itself, or merging an empty update, leaves the selection unchanged |
| Store.MergeIdempotent | src/components/App.tsx:55-57 | applying the same partial update twice equals applying it once |
| Store.MergeSequence | src/components/App.tsx:55-57 | two successive merges equal one merge in which the later update wins on every key it carries |
| Store.SelectServiceOnStartedApp | src/components/App.tsx:36-57 | starting the store and then calling `updateFilters({service: "Solar Installation"})` leaves the filters at {service: "Solar Installation", price: "all", rating: "all"} |
| Store.App.constructor | src/components/App.tsx:35-49 | the store starts with the 50 quotes `generateRandomQuotes(50)` produces and every filter at "all" |
| Store.App.AddQuote | src/components/App.tsx:51-53 | the list grows by one, the earlier quotes are unchanged and in order, the last quote is the given one, and filters are untouched; no field of the quote is checked, so a well-formed list stays well-formed exactly when the added quote is well-formed |
| Store.App.UpdateFilters | src/components/App.tsx:55-57 | the new selection is the merge of the old selection with the update, and the quote list is untouched |
| Store.InitialQuotesWellFormed | src/components/App.tsx:46-49 | the 50 start-up quotes satisfy every generator bound |

## Left out

- Rendering: the JSX, and every child component (Header, Map, Filters, PriceHistory, QuoteVault, the
  modals, and so on). Their source is not part of this model. This includes the rule that `Map` uses
  to apply the filter selection to the quotes.
- `lat` and `lng` (lines 108-109): floating-point jitter around a fixed point, not modelled.
- `Math.random` and `Date.now`: they become injected inputs, namely the draws and clock readings in
  `Quotes.Draw`.
- Floating-point rounding: `overallRating` is modelled as an exact real. The product
  `Math.random() * n` is assumed to floor into `[0, n)`.
- JavaScript `Date` range limits: dates are unbounded integers.
- React semantics: `useState` setter batching and `useEffect` run-once timing. The model's store
  starts right after the initial effect, holding `generateRandomQuotes(50)`. The empty list rendered
  before the effect runs is not modelled.
- An update key that is present but holds `undefined`: spreading it would write `undefined` into
  the filters. `FilterUpdate` models only a present string or an absent key.
- An update carrying a key other than service, price or rating: the spread copies it into the
  filters. `Filters` has exactly three keys.
- The modal-visibility flags and `selectedQuote` (lines 41-44, 64-90): plain UI toggles set by
  assignment.
- Ordering across records: nothing is stated about it. In the source, the dates of
  different quotes are independent random values, so no order between them is promised.
