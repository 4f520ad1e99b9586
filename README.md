# BankingMLService recommendation core in Dafny

This project models the recommendation pipeline of `BankingMLService` (a
Python/pandas service). The service turns a clients table, a transactions
table and a transfers table into a ranked list of up to four financial
products per client. Each product carries an estimated monthly benefit. The
pipeline has three stages, and each stage is one module:

- `Features` models `process_data`. It folds the transaction and transfer
  records into group-by sums and builds the pivot of monthly run-rates. It
  computes the composites TRAVEL_m, ONLINE_m, TOP3_m and TOTAL_m, the transfer
  sums INFLOWS_m and OUTFLOWS_m, and the flags HAS_FX, HAS_CC and HAS_ATM_P2P.
  Everything here is pure, so it is written as functions and lemmas.
- `Scoring` models `calculate_benefits` and the ten benefit formulas. Each
  formula is a function of the feature row and of the value `u` that the
  generator returns. Clipping into `[0, cap]` is modelled too. The loop over
  products and rows is a method with loop invariants. The shared generator
  `random.Random(42)` is a class with a cursor into a stream of draws. The
  method is proved equal to a fold (`ScoreTable`), and a lemma states exactly
  which draw scores which cell. The fold takes the table of formulas as a
  parameter, and the method passes it `Formula`. The draw accounting
  depends only on the guards, so it is proved for any formulas.
- `Allocation` models `_apply_global_diversity`, which has these steps:
  1. collect every positive benefit cell;
  2. run a stable descending sort;
  3. seed each of the four product groups with one client;
  4. fill the groups up to their target counts;
  5. build each row's final list.

  The loops are methods, each proved equal to a fold over the sorted list. The
  lemmas about those folds state the allocator's guarantees.

Two smaller modules support them. `Catalog` holds the products, caps, groups
and target shares. `Sorting` specifies Python's stable `sort(reverse=True)`
by an insertion sort and proves it ordered, a permutation and stable. `Common`
holds `Option`, the numeric type `Num` (a real number or NaN) and Python's
`min`/`max`.

Missing values follow pandas. A client without transactions has no row in
the pivot. The left merge with the clients table therefore leaves all of its
metrics NaN: `fillna(0)` runs before that merge, not after it. In `Num`, such
metrics are `None`. A comparison with NaN is false, so guards on metrics do
not fire for such a client. Arithmetic with NaN gives NaN. Python's
`min(c, NaN)` is `c`.

The code does the following, and the model follows it:

- Target counts are truncated (`int(n * share)`), not rounded.
- An assigned client is recommended only its one assigned product. Ranks 2-4
  are not filled, and no list is padded with zero-benefit products.
- A client without transactions gets NaN metrics, not zeros. Its transfers
  are dropped with them.
- A transaction whose currency is missing counts as foreign for HAS_FX,
  because a missing value is not equal to `'KZT'`. `Transaction.currency` is
  therefore an `Option`.
- The generator is created once when the service is constructed. It is not
  reseeded per run, so where it stands carries over from one
  `calculate_benefits` call to the next. `rng.cursor` models that position.

`Service.Recommendations` chains the three stages as the `/process`
handler does, feeding the client codes of the feature table into the
allocator.

Sources: all cited lines are in `app.py`.

## Model

| member | source | states |
|---|---|---|
| Catalog.Index | app.py:36-47 | each product has one column, at its position in the iteration order of `benefit_formulas` |
| Catalog.Cap | app.py:49-60 | every product has a cap, and every cap lies between 50000 and 200000 |
| Catalog.GroupOf | app.py:197-202 | the four groups partition the catalogue: every product is in exactly one group's member list |
| Catalog.Target | app.py:263-268 | the target count of a group is `int(total * share)`: the largest whole number not above total times the share, and never more than total |
| Sorting.SortDescFacts | app.py:280 | `SortDesc` (Python's `sort(key=..., reverse=True)`) leaves the sequence in descending key order and is a permutation of its input |
| Sorting.SortDescStable | app.py:280 | the sort is stable: for every key value, the elements with that key keep their input order |
| Sorting.SortDescInjective | app.py:325 | sorting keeps distinct elements distinct (used to show that no product is listed twice) |
| Features.Categories | app.py:93-95 | the pivot's columns are the categories of the transactions table, every one of them and each once |
| Features.SpendTable | app.py:84 | the group-by table has a row for exactly the clients that have a transaction |
| Features.SpendTableCell | app.py:84-94 | a pivot cell after `fillna(0)` is the client's summed amount in that category, 0 when the pair is absent |
| Features.RunRateIsCategorySpend | app.py:93-97 | the k-th metric column is named `<category>_m` and holds the client's category spend divided by 3 |
| Features.MetricsOf | app.py:93-135 | a client's metrics have one run-rate column per category, and TOTAL_m equals the sum of those run-rates |
| Features.TransferSumAppend | app.py:88 | the per-client, per-direction transfer sum is additive over any split of the transfers table |
| Features.FlowsAreTransferSums | app.py:88-118 | INFLOWS_m and OUTFLOWS_m are the sums of the client's incoming and outgoing transfer amounts, taken in table order, over three |
| Features.MarkedSum | app.py:100-105 | with non-negative run-rates, a composite over the marked columns lies between 0 and the sum of all run-rates |
| Features.CompositesAreMarkedSpend | app.py:100-105 | TRAVEL_m and ONLINE_m are the summed spend, over 3, of the categories whose `<category>_m` name contains one of the marker words |
| Features.Top3Sum | app.py:108-111 | `nlargest(3).sum()` lies between 0 and the row's sum when the values are non-negative, and is the whole sum when the row has at most three values |
| Features.Top3AreLargest | app.py:108-111 | the first three values of the descending order are not exceeded by any later value, and the order is a permutation of the row |
| Features.Top3IsSumOfLargest | app.py:108-111 | TOP3_m sums up to three values drawn from the row, and every value left out is at most every value taken |
| Features.Top3AtMostTotal | app.py:108-111 | with non-negative amounts, TOP3_m lies between 0 and TOTAL_m |
| Features.CompositesAtMostTotal | app.py:100-105 | with non-negative amounts, TRAVEL_m and ONLINE_m each lie between 0 and TOTAL_m |
| Features.TransferZeroFill | app.py:114-137 | a client with transactions but no transfers gets INFLOWS_m = OUTFLOWS_m = 0; a client without transactions gets no metrics at all |
| Features.FxClients | app.py:143-144 | a client is listed exactly when it has a transaction whose currency is not `KZT`, a missing currency included |
| Features.CcClients | app.py:147-148 | a client is listed exactly when it has a transaction whose product is present and contains "Кредит" |
| Features.AtmP2pClients | app.py:151-152 | a client is listed exactly when it has a transfer whose type is present and contains "atm" or "p2p" |
| Features.RowOf | app.py:120-156 | the merged row keeps the client; it has metrics exactly when the client has a transaction; each flag holds exactly when a matching record exists (non-KZT currency, product tag containing "Кредит", transfer type containing "atm" or "p2p") |
| Features.ProcessData | app.py:155-156 | one merged row per row of the clients table, in its order |
| Scoring.DepositBenefit | app.py:570-606 | the deposit benefit is always a number, and it is positive when the rate, the balance and the draw are positive |
| Scoring.CashLoanBenefit | app.py:608-636 | 0 when the outflow or balance guard fires; a number when metrics exist, positive exactly when the guards pass; NaN when metrics are missing and the balance guard passes |
| Scoring.TravelCardBenefit | app.py:638-669 | 0 when TRAVEL_m is below 5000; a number exactly when the client has metrics |
| Scoring.PositiveColumns | app.py:686 | the diversity count is at most the number of `_m` columns, the categories plus six |
| Scoring.CreditCardBenefit | app.py:671-704 | 0 when TOTAL_m is below 30000; a number exactly when the client has metrics |
| Scoring.PremiumCardBenefit | app.py:706-733 | 0 when the balance is below 500000; otherwise a number exactly when the client has metrics |
| Scoring.FxAccountBenefit | app.py:735-758 | always a number; 0 without FX activity and with a balance below 200000; with a positive balance, positive exactly when the guard passes |
| Scoring.InvestmentBenefit | app.py:760-793 | always a number, even without metrics; 0 under each of the three guards; positive exactly when none fires |
| Scoring.GoldBenefit | app.py:795-817 | always a number; positive exactly when the balance is at least 500000 |
| Scoring.Formula | app.py:36-47 | every formula gives 0 when it returns early (`ReturnsEarly`, the guards of each formula) and a number whenever the row has metrics |
| Scoring.GuardDecidesPositive | app.py:608-817 | outside the three card formulas, a row with metrics and a positive balance gets a positive benefit exactly when `ReturnsEarly` does not hold |
| Scoring.Clip | app.py:171-174 | clipping keeps NaN as NaN, puts every number into [0, cap], leaves in-range values unchanged and keeps positive values positive |
| Scoring.ScoreCell | app.py:170-174 | a cell takes a draw exactly when its formula gets past the guards, and is 0 without one; its value is within the cap, and a number for a row with metrics when the formulas give numbers there |
| Scoring.ScoreCellIsFormula | app.py:170-174 | with the service's formulas, every cell is the clipped formula evaluated at the draw it is given |
| Scoring.ScoreColumn | app.py:170 | a column has one value per row, each within the product's cap, and a number for every row with metrics when the formulas give numbers there |
| Scoring.ScoreTable | app.py:168-174 | one column per product, each as long as the feature table, every value within its cap |
| Scoring.ScoreColumnNext | app.py:170 | a column takes one draw per row that passes the guards |
| Scoring.ScoreColumnAt | app.py:170 | row i of a column uses the draw after those of the earlier rows that pass the guards |
| Scoring.ScoreTableNext | app.py:168-170 | the table takes one draw per (product, row) pair that passes the guards |
| Scoring.ScoreTableColumn | app.py:168-170 | column j of the table is product j's column, started where the earlier products left the generator |
| Scoring.ScoreTableAt | app.py:168-170 | cell (product j, row i) is scored with the draw after all draws of earlier products and of earlier rows of product j |
| Scoring.Random.constructor | app.py:64 | the generator starts at the beginning of a stream of draws in [0, 1) |
| Scoring.Random.Next | app.py:64 | `random()` returns the next draw of the stream, in [0, 1), and advances by one |
| Scoring.ScoreProduct | app.py:170-174 | one pass of the product loop computes exactly the column fold and advances the generator past exactly its draws |
| Scoring.CalculateBenefits | app.py:164-174 | the in-place loop computes exactly the table fold and advances the generator past exactly its draws; the table has one capped column per product |
| Allocation.EntriesMember | app.py:271-277 | an entry is collected exactly when it is a positive cell of the table |
| Allocation.CollectEntries | app.py:271-277 | the loop collects the entries row by row in column order, and they are exactly the positive cells |
| Allocation.SortedFromTable | app.py:280 | every element of the sorted list comes from a positive cell |
| Allocation.FirstEligible | app.py:288-292 | the seeding scan stops at the first entry for the group with a free client, or finds none |
| Allocation.SeedUpTo | app.py:286-292 | after seeding the first n groups, each of them holds at most one assignment and every other group none |
| Allocation.SeedFacts | app.py:286-292 | seeding keeps the state sound; a group stays empty only when every client with an entry for it is already assigned |
| Allocation.ScanGroup | app.py:288-292 | the inner seeding loop returns the position where the scan for the group stops, or none |
| Allocation.SeedGroups | app.py:286-292 | the seeding loops compute the seeding fold over the four groups in order |
| Allocation.QuotaStep | app.py:295-308 | one quota step only grows the state, lets no group outgrow its target count, and leaves the entry settled |
| Allocation.QuotaSound | app.py:295-308 | the quota pass keeps the state sound and only grows the assigned set |
| Allocation.QuotaPass | app.py:295-308 | the quota pass only appends to the group lists, and no group grows past its target count unless it already stood above it |
| Allocation.QuotaStarved | app.py:295-308 | after the pass, every entry has an assigned client or a full group |
| Allocation.FindGroup | app.py:299-304 | the group search finds the product's group, which lists the product |
| Allocation.FillQuotas | app.py:295-308 | the quota loop computes the quota fold over the sorted list |
| Allocation.FirstMatch | app.py:317-320 | the search of one assignment list stops at the first match, and a match exists exactly when the client occurs there |
| Allocation.AssignedCount | app.py:315-320 | the search finds at most as many products as the client has assignments, at least one when it has any, and each is an assignment of the client |
| Allocation.SearchAssignments | app.py:317-320 | the inner search loop returns the product of the client's first assignment in the list, or nothing |
| Allocation.FindAssigned | app.py:315-320 | the search loops compute the products found for the client |
| Allocation.WalkPositives | app.py:326-328 | the fallback walk is the first four positive items in sorted order |
| Allocation.WalkSorted | app.py:326-328 | the walk loop keeps positive items while fewer than four are taken |
| Allocation.Recommend | app.py:311-330 | a row gets at most four products; a client without an assignment gets the first four positive items of its row in descending benefit order |
| Allocation.FinalRecommendation | app.py:311-330 | one row's list is the assigned product if found, or else the walk over the row's sorted benefits, cut to four |
| Allocation.FinalRecommendations | app.py:332 | one list per row, each the row's final recommendation |
| Allocation.RankedFacts | app.py:324-325 | a row's ranking is descending, is a permutation of the row's positive benefits and names no product twice |
| Allocation.RankedCells | app.py:324-328 | every ranked item is a positive cell of the row, with its value |
| Allocation.FinalSound | app.py:283-308 | after both passes the groups hold each assigned client once and only justified assignments in the right group |
| Allocation.AssignedOnce | app.py:284-308 | each client holds at most one assignment, and holds one exactly when it is in `assigned_clients` |
| Allocation.GroupCapacity | app.py:286-308 | no group ends above its target count, except that seeding may put one entry into a group whose target is 0 |
| Allocation.StarvedClient | app.py:295-308 | a client left unassigned has, for each product with a positive benefit, that product's group at its target count |
| Allocation.EmptyGroup | app.py:286-292 | a group ends empty only if every client with a positive benefit for one of its products is assigned elsewhere |
| Allocation.AssignedRecommendation | app.py:315-330 | an assigned client's row is recommended exactly one product: its assignment, in its product's group and backed by a positive benefit |
| Allocation.UnassignedRecommendation | app.py:322-330 | an unassigned client's row is recommended its positive benefits in descending order, at most four |
| Allocation.RecommendationJustified | app.py:311-330 | every row gets at most four products, each with a positive benefit for its client |
| Allocation.RankedJustified | app.py:322-330 | the first four ranked products of a row are each positive for its client |
| Allocation.RecommendationDistinct | app.py:311-330 | no product is recommended twice to the same row |
| Allocation.NoPositiveNoRecommendation | app.py:322-330 | a client with no positive benefit gets an empty list: there is no fallback product and no padding |
| Allocation.Allocate | app.py:261-335 | the allocator yields one list per client row, each of at most four products |
| Allocation.GlobalDiversity | app.py:261-335 | the allocator computes the fold for every row; each list has at most four products, each positive for its client |
| Service.Recommendations | app.py:950-962 | `process_data` then `calculate_benefits` give the scored table and the allocation: one list per client, each of at most four distinct products, each positive for that client |

## Left out

- The Flask application, upload endpoints, CSV reading and writing, logging and error wrapping (app.py:1-29, 822 onward). They are I/O; the model takes the three tables as sequences.
- The push-notification templates and their date handling (app.py:66-78, 462-568). They are text presentation and are not part of scoring or allocation.
- `create_diverse_recommendations` (app.py:213-254) and the members at app.py:337-460. They read from the same data but nothing calls them, so they are dead code.
- The Mersenne Twister behind `random.Random(42)`: the stream of draws is a parameter of `Random`, constrained only to [0, 1).
- Floating-point rounding: benefits, run-rates and shares are exact reals. Truncation `int(n * share)` is modelled as `n * percent / 100`, which for the four shares used gives the same value as the floating-point product for any client count a table can realistically hold.
- `Scoring.CalculateBenefits`: the draw accounting (one draw per cell that passes its guards) holds for a non-empty feature table. On an empty table the source's behaviour depends on the pandas version. What follows is a reading of pandas' `DataFrame.apply` and `__setitem__`, not a run. With pandas 1.1 or later, `apply` calls each formula once on an all-NaN row indexed by the frame's columns, to infer the result shape. The savings deposit, cash loan, travel card and credit card each take one draw on that row. The premium card then raises a `TypeError` at app.py:721; `apply` swallows it and returns a copy of the whole frame, and the assignment at app.py:170 raises `ValueError`, which app.py:181-183 re-raise. When the clients table has no `status` column, all ten formulas take a draw and the run ends with an empty result. Older pandas passes an empty row instead, so `row.get` supplies the defaults and only the three deposit formulas take a draw. The model takes no draw on an empty table.
- `Service.Recommendations`: on an empty clients table the feature table is empty. With a `status` column and pandas 1.1 or later, the source then fails as described in the previous line, and `/process` answers with status 500 (app.py:974-976). The model instead returns an empty result and leaves the generator where it was.
- `Scoring.PositiveColumns`: counts the category columns plus the six composite
  and transfer columns. That matches the source only when the clients table
  adds no other column ending in `_m`.
- `Allocation.Recommend`: cells that are NaN (possible only for clients
  without transactions) are dropped before the row is sorted. Python's
  `sorted` places a NaN wherever the comparisons happen to leave it, and the
  model does not follow that. NaN is never positive, so no NaN item is ever
  recommended; but the exact order among the remaining items then equals the
  source's only when the row has no NaN.
- The pivot's column order: pandas sorts the categories, while `Features.Categories` keeps their first-appearance order. Nothing computed depends on the order: sums, `nlargest(3)` and the composites all ignore it.
- Duplicate client codes in the clients table: the model keys the allocator by client code, as the source does, and states no property that would tell two rows with the same code apart.
- `row.get` defaults for absent columns: the upload reads the clients CSV without checking its columns, and `process_data` reads only `client_code` from it. A clients table that lacks a `status`, `age` or `avg_monthly_balance_KZT` column therefore reaches the formulas, where `row.get` supplies `''`, 30 or 0. The model represents such a client as `Client(code, "", 30, 0.0)`. The metric and flag columns always exist after the merges.
- Blank cells in the input tables. In the clients table a blank cell is NaN, not the default. `Client` holds a total `age: int` and `balance: real`, so it cannot represent a NaN balance or age. In the source, a NaN balance makes every balance guard false, and a NaN status raises a `TypeError` at `'Премиальный' in status` (app.py:721). In the transactions table, the group-by at app.py:84 drops a row whose category is blank, so that spend never enters the pivot. `Transaction.category` is a plain string and cannot express the blank case.
- The test scripts and the test-data generator of the repository: they are not part of the service.
