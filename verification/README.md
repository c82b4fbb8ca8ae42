# Meta Ads Manager preview — a Dafny model of its data shaping

The Meta Ads Manager preview is a single-page dashboard over a small Flask
backend. The backend reads campaigns, ad sets and per-ad-set insights from
the Facebook Marketing API. The page joins them, filters them with a search
box, and derives per-row metrics, portfolio totals, the three best ad sets
by return on ad spend (ROAS), and a list of ad sets suggested for turning off.

This project models the pure logic of both halves:

- **Backend** (`backend.dfy`, module `Backend`). It models `extract_metric`,
  the per-row shaping of insights with its zero-guarded ROAS, and the
  conversion of budgets from integer minor units to currency units.
- **Dashboard** (`dashboard.dfy`, module `Dashboard`). It models the `data`
  memo of the page:
  - the insights index (last record per ad-set id wins);
  - the campaign and ad-set row mapping, with missing metrics read as 0;
  - cost per purchase (null when there are no purchases);
  - the Keep / Turn off recommendation;
  - the case-insensitive search filter;
  - totals with guarded division;
  - the stable top-3 ranking and the suggested turn-offs.
- **Status toggle** (`status.dfy`, module `EntityStatus`). It models the
  backend-to-display status mapping and the status the Pause/Resume button
  requests.
- **Date range** (`daterange.dfy`). It models custom-range normalisation,
  with dates as integer day numbers.
- Supporting modules:
  - `text.dfy`: JavaScript `trim`, `toLowerCase`, `includes`;
  - `seqs.dfy`: order-preserving filter, stable insertion sort, sums;
  - `arith.dfy`: guarded ratio, Python `int()` truncation;
  - `optional.dfy`: missing values.
- `scenarios.dfy` works examples through on concrete data.

Money and ROAS are exact `real`s and purchase counts are `int`s. A missing
JSON field (`x ?? 0`, `d.get(k, 0)`) is an `Option`. Every operation is a
pure function, so recomputing the dashboard from the same inputs always
gives the same result.

Two behaviours of the code are worth stating plainly:

- Missing metrics are read as 0 via `??`; a malformed numeric string is not
  coerced to 0.
- An unparsable break-even entry resets the threshold to 1.34, and so does
  an entry of 0.

## Model

| member | source | states |
|---|---|---|
| Backend.ExtractMetric | app.py:59-61 | a missing (`None`) or empty item list gives 0 |
| Backend.ExtractMetricFirstMatch | app.py:62-64 | the first item whose `action_type` equals the requested type decides the result: its `value`, or 0 when it has none |
| Backend.ExtractMetricNoMatch | app.py:62-65 | when no item has the requested type the result is 0 |
| Backend.ExtractMetricIgnoresLater | app.py:62-64 | items after the first match never change the result |
| Backend.ShapeInsight | app.py:84-99 | spend defaults to 0; purchases and revenue come from the "purchase" entries of `actions` / `action_values`; purchases are truncated toward zero as Python `int()` does; roas·spend = revenue when spend > 0, and roas = 0 otherwise |
| Backend.ShapeInsights | app.py:82-101 | one shaped record per API row, in the same order |
| Backend.MinorToMajor | app.py:52-54 | the budget in currency units times 100 is the integer minor-unit amount, with a missing field read as 0 |
| Backend.FirstMetric | app.py:62-65 | the scan returns 0 or the value of some item of the requested type |
| Backend.BudgetRoundTrip | app.py:52 | in exact arithmetic `MinorToMajor` is injective: the minor units are recovered from the converted budget |
| Backend.ShapeAdSet | app.py:46-57 | identity fields are copied; each of the three budgets is its minor units divided by 100 |
| Arith.GuardedRatio | app.py:89-91 | a positive denominator gives the exact quotient (ratio·den = num); any other gives 0 |
| Arith.TruncToInt | app.py:96 | `int()` of a float truncates toward zero: for x ≥ 0, n ≤ x < n+1; for x < 0, n−1 < x ≤ n |
| Dashboard.IndexInsights | frontend/src/MetaStyleAdsManagerPreview.jsx:480 | the index's keys are exactly the ad-set ids that occur among the insights |
| Dashboard.IndexLastWins | frontend/src/MetaStyleAdsManagerPreview.jsx:480 | for each id, the index holds the last insight with that id; a later duplicate overrides an earlier one |
| Dashboard.NormalizeQuery | frontend/src/MetaStyleAdsManagerPreview.jsx:482 | the trimmed, lowercased query is empty exactly when the query is all whitespace |
| Text.TrimBounds | frontend/src/MetaStyleAdsManagerPreview.jsx:482 | `trim` keeps `s[lo..hi]`: everything before `lo` and from `hi` on is JavaScript whitespace, and the kept part neither starts nor ends with whitespace |
| Text.Trim | frontend/src/MetaStyleAdsManagerPreview.jsx:482 | the trimmed string is the slice given by `TrimBounds`, and it is empty exactly when the input is all whitespace |
| Text.Lower | frontend/src/MetaStyleAdsManagerPreview.jsx:482 | lowercasing keeps the length and maps each character independently |
| Text.ContainsIffOccurs | frontend/src/MetaStyleAdsManagerPreview.jsx:485 | the `includes` scan succeeds exactly when the needle occurs as a contiguous piece at some index |
| Dashboard.FieldText | frontend/src/MetaStyleAdsManagerPreview.jsx:485 | `String(x[f] ?? "")`: a present field is searched as itself, a missing one as "" |
| Dashboard.Matches | frontend/src/MetaStyleAdsManagerPreview.jsx:485 | `fields.some(... .includes(q))` holds exactly when some lowercased field has `q` as a contiguous piece |
| Dashboard.FilterByName | frontend/src/MetaStyleAdsManagerPreview.jsx:483-486 | a blank query returns the rows unchanged; otherwise the result is an order-preserving subsequence of the rows; every kept row has a field containing the query, and every row with such a field is kept, as many times as it occurs in the input |
| Dashboard.CampaignSearch | frontend/src/MetaStyleAdsManagerPreview.jsx:525 | a campaign matches the query exactly when its name or its status label ("Active"/"Paused") contains it |
| Dashboard.AdSetSearch | frontend/src/MetaStyleAdsManagerPreview.jsx:526 | an ad set matches the query exactly when its name, campaign id, status label or recommendation label contains it |
| Dashboard.FilterKeepsExactlyMatches | frontend/src/MetaStyleAdsManagerPreview.jsx:485 | for a non-blank query, a row is kept iff one of its fields, stringified with a missing value as "" and lowercased, contains the normalized query at some position |
| Seqs.Select | frontend/src/MetaStyleAdsManagerPreview.jsx:485 | `filter` keeps only elements that satisfy the predicate, and keeps every element that satisfies it |
| Seqs.SelectIsSubseq | frontend/src/MetaStyleAdsManagerPreview.jsx:485 | the filtered rows keep their original relative order |
| Seqs.SelectAppend | frontend/src/MetaStyleAdsManagerPreview.jsx:485 | filtering a concatenation is the concatenation of the filtered parts |
| Seqs.SelectCount | frontend/src/MetaStyleAdsManagerPreview.jsx:538-540 | a kept value is kept as many times as it occurs; a dropped value never appears |
| Dashboard.MapCampaign | frontend/src/MetaStyleAdsManagerPreview.jsx:489-498 | a campaign row copies id and name, maps "PAUSED" to Paused and anything else to Active, and carries zero metrics with cpp = 0 (not null) |
| EntityStatus.FromBackend | frontend/src/MetaStyleAdsManagerPreview.jsx:492 | the display status is Paused exactly when the backend status is "PAUSED" |
| Dashboard.RecLabel | frontend/src/MetaStyleAdsManagerPreview.jsx:508 | the label "Turn off" names exactly the Turn off recommendation, and "Keep" exactly Keep |
| EntityStatus.Label | frontend/src/MetaStyleAdsManagerPreview.jsx:492 | the status label is "Paused" exactly for Paused and "Active" exactly for Active |
| Dashboard.Recommend | frontend/src/MetaStyleAdsManagerPreview.jsx:508 | "Turn off" iff spend > 0 and roas < break-even, and "Keep" iff not |
| Dashboard.RecommendNeverScaleOrTooEarly | frontend/src/MetaStyleAdsManagerPreview.jsx:272-279 | the Scale and Too early labels have a display style, but the rule never produces them |
| Dashboard.RecommendMonotone | frontend/src/MetaStyleAdsManagerPreview.jsx:508 | raising the break-even ROAS never withdraws a Turn off |
| Dashboard.Enrich | frontend/src/MetaStyleAdsManagerPreview.jsx:500-523 | an ad-set row copies the ad set's fields (budget defaults to 0); without an indexed insight, spend, purchases, revenue and roas are 0, and otherwise each comes from the insight with a missing metric as 0; cpp is null iff purchases ≤ 0, and otherwise cpp·purchases = spend; the recommendation is Turn off iff spend > 0 and roas < break-even, and is always Keep or Turn off |
| Dashboard.MapCampaigns | frontend/src/MetaStyleAdsManagerPreview.jsx:489 | one mapped campaign row per campaign, in order |
| Dashboard.MapAdSets | frontend/src/MetaStyleAdsManagerPreview.jsx:500 | one enriched row per ad set, in order |
| Dashboard.ComputeTotals | frontend/src/MetaStyleAdsManagerPreview.jsx:529-535 | totals roas·spend = revenue when total spend > 0, else roas = 0; cpp·purchases = spend when total purchases > 0, else cpp = 0 |
| Dashboard.TotalsAppend | frontend/src/MetaStyleAdsManagerPreview.jsx:530-532 | spend, purchases and revenue totals are sums: the totals of two groups of rows add up to the totals of both together |
| Dashboard.TotalsSingle | frontend/src/MetaStyleAdsManagerPreview.jsx:530-532 | the totals of one row are its spend, purchases and revenue; with `TotalsAppend`, the totals are the sums over the rows |
| Seqs.SumByAppend | frontend/src/MetaStyleAdsManagerPreview.jsx:530 | a `reduce` sum over a concatenation is the sum of the parts |
| Dashboard.TotalsNonNegative | frontend/src/MetaStyleAdsManagerPreview.jsx:529-534 | with non-negative spend and revenue per row, total spend, revenue and roas are non-negative |
| Dashboard.Top | frontend/src/MetaStyleAdsManagerPreview.jsx:537 | the top list has min(3, number of filtered ad sets) rows |
| Dashboard.TopRanked | frontend/src/MetaStyleAdsManagerPreview.jsx:537 | the top list is sorted by non-increasing roas, is drawn from the rows (as a multiset), and no row left out has a higher roas than any row chosen |
| Dashboard.TopStable | frontend/src/MetaStyleAdsManagerPreview.jsx:537 | ties keep their order: for each roas value, the chosen rows with that value are the first rows with that value in the input |
| Seqs.SortBy | frontend/src/MetaStyleAdsManagerPreview.jsx:537 | sorting returns a permutation of its input, ordered by non-decreasing key |
| Seqs.SortByStable | frontend/src/MetaStyleAdsManagerPreview.jsx:537 | the sort is stable: for every key value, the elements with that key come out in their input order |
| Seqs.Insert | frontend/src/MetaStyleAdsManagerPreview.jsx:537 | inserting into a sorted list adds exactly that element and keeps the list sorted |
| Dashboard.Off | frontend/src/MetaStyleAdsManagerPreview.jsx:538-541 | the suggested turn-offs are sorted by non-decreasing roas; each row appears exactly as often as in the input when it is Active with spend ≥ 50 and roas < break-even, and not at all otherwise; rows with equal roas keep their input order |
| Seqs.SelectSelect | frontend/src/MetaStyleAdsManagerPreview.jsx:538-540 | two successive filters keep the same rows, in the same order, as one filter by both conditions |
| Dashboard.OffMembers | frontend/src/MetaStyleAdsManagerPreview.jsx:538-540 | a row is a suggested turn-off iff it is an input row that is Active, has spend ≥ 50 and has roas < break-even |
| Dashboard.Aggregate | frontend/src/MetaStyleAdsManagerPreview.jsx:479-544 | the shown campaigns and ad sets are order-preserving subsequences of the mapped rows, and all of them when the query is blank; the top list has min(3, shown ad sets) rows |
| Dashboard.AggregateParts | frontend/src/MetaStyleAdsManagerPreview.jsx:525-543 | the shown campaigns and ad sets are the search filter applied to the mapped rows; totals, the top list and suggested turn-offs are computed over the shown ad sets |
| Dashboard.AggregateOffAreTurnOff | frontend/src/MetaStyleAdsManagerPreview.jsx:508-541 | every suggested turn-off is a shown ad set whose recommendation is Turn off |
| Dashboard.AggregateWithoutInsights | frontend/src/MetaStyleAdsManagerPreview.jsx:501-505 | with no insights, every ad set shows zero metrics, null cpp and Keep; there are no suggested turn-offs, and the totals are all zero |
| Dashboard.BreakEvenFromInput | frontend/src/MetaStyleAdsManagerPreview.jsx:654 | a parsed non-zero entry is used as is; an unparsable entry or 0 resets to 1.34, so the threshold is never 0 |
| EntityStatus.NextStatus | frontend/src/MetaStyleAdsManagerPreview.jsx:886 | the request is "ACTIVE" or "PAUSED"; mapped back through the PAUSED→Paused / else→Active rule, it is always the opposite of the displayed status |
| EntityStatus.ButtonCaption | frontend/src/MetaStyleAdsManagerPreview.jsx:916 | the caption reads "Resume" exactly when the button requests "ACTIVE", and "Pause" exactly when it requests "PAUSED" |
| EntityStatus.ToggleTwiceRestores | frontend/src/MetaStyleAdsManagerPreview.jsx:886 | two toggles, each read back after the reload, restore the original status |
| EntityStatus.ToggleRequest | frontend/src/MetaStyleAdsManagerPreview.jsx:883-891 | the request names the row's kind and id and asks for the opposite of the displayed status |
| EntityStatus.Endpoint | frontend/src/MetaStyleAdsManagerPreview.jsx:883-885 | the URL is `http://127.0.0.1:5000/campaigns/<id>/status` for a campaign row and `http://127.0.0.1:5000/adsets/<id>/status` for an ad-set row: the collection prefix, then exactly the id, then `/status` |
| EntityStatus.EndpointIdentifiesRow | frontend/src/MetaStyleAdsManagerPreview.jsx:883-885 | the URL determines the row's kind and id |
| DateRange.ApplyCustom | frontend/src/MetaStyleAdsManagerPreview.jsx:154-163 | nothing is applied unless both dates parse; otherwise from ≤ to, the range holds the same two dates, and already-ordered dates are kept as typed |
| DateRange.ApplyCustomIdempotent | frontend/src/MetaStyleAdsManagerPreview.jsx:158-160 | applying an applied range again changes nothing |
| DateRange.ApplyCustomSymmetric | frontend/src/MetaStyleAdsManagerPreview.jsx:158-160 | the order in which the two dates are entered does not matter |
| Scenarios.SearchIgnoresCase | frontend/src/MetaStyleAdsManagerPreview.jsx:482-485 | the query "summer" finds a campaign named "Summer Sale" |
| Scenarios.MissingInsightIsZero | frontend/src/MetaStyleAdsManagerPreview.jsx:501-508 | an ad set without an insight gets zero metrics, null cpp and Keep |
| Scenarios.SpendWithoutPurchases | frontend/src/MetaStyleAdsManagerPreview.jsx:506-508 | spend 100, no purchases, roas 0.5 and break-even 1.34 give null cpp and Turn off |
| Scenarios.NoSpendKeeps | frontend/src/MetaStyleAdsManagerPreview.jsx:508 | zero spend gives Keep |
| Scenarios.TwoRowTotals | frontend/src/MetaStyleAdsManagerPreview.jsx:529-535 | rows (100, 2, 150) and (50, 0, 0) total spend 150, purchases 2, revenue 150, roas 1 and cpp 75 |
| Scenarios.EndToEnd | frontend/src/MetaStyleAdsManagerPreview.jsx:479-544 | one active ad set that spent 60 for revenue 50 at roas 0.83 is recommended Turn off and is the only suggested turn-off; the portfolio roas is 50/60 |

## Left out

- Network and I/O are not modelled: the `fetch` calls, sending the POST status request, the reload after it, and console logging. The page only keeps whichever collections have arrived; `Aggregate` takes them as parameters.
- The Flask routes, the Facebook Business SDK calls and `fetch_campaigns` are not modelled. `fetch_campaigns` is a field-for-field copy of the API objects.
- Floating point is not modelled: Python `round(x, 2)` on spend, revenue and roas, currency and `toFixed` formatting, and JavaScript number semantics (NaN, infinities). Money is an exact `real`.
- EntityStatus.ToggleRequest: the row's kind is taken as given. The page infers it from `selectedRow.campaign === undefined`, so an ad-set row whose JSON lacked the `campaign_id` key would be posted to the campaigns endpoint; the model does not tell an absent key from a null one. This never misfires with this backend, because `fetch_adsets` always emits the key (app.py:51).
- Backend.BudgetRoundTrip: holds for exact reals only. With the program's floating-point division, `floor(m / 100 * 100)` differs from `m` for some minor amounts (29, 57, 58, ...); the model does not promise recovery under float arithmetic.
- Backend.ShapeInsight: the stored spend, revenue and roas are the unrounded values, because `round` to two decimals is left out.
- Number coercion of malformed strings is not modelled. Metrics arrive as numbers or are missing, and a malformed string would become NaN in the source, not 0.
- Python `int()` and `float()` on malformed strings are not modelled, nor `.get(k, 0)` on a key that is present but null. Each of these raises in the source; the model assumes well-formed values.
- Text.Lower: only ASCII letters are lowercased. JavaScript `toLowerCase` also maps non-ASCII letters; both the query and the fields go through the same function, so matching on ASCII text is exact.
- `String(x)` on non-string ids is not modelled. Ids and campaign ids are taken as strings, which is how the Graph API returns them.
- The date presets, `startOfToday`, `parseISO` and `formatDateISO` depend on the clock and the locale. Dates are integer day numbers, and a failed parse is `None`.
- The `ads` collection is not modelled. It is always empty in the source.
- React rendering, hooks, panel state and the UI widget files are not modelled. They are display plumbing with no domain behaviour.
