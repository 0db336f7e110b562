# Athena query cost report, modelled in Dafny

`athea_cost.py` estimates what the Amazon Athena queries of a region cost. It lists the ids of the
queries in the `primary` workgroup's history, page by page. It fetches each query's details and
prices the query from the bytes it scanned. It writes one CSV row per query and keeps a running
count and total.

This project models the three parts of the script that carry logic:

- `CostRule` (`cost_rule.dfy`) is the per-query cost rule. Only a `DML` statement whose state is
  not `FAILED` is billed. A failed query reports 0 bytes scanned. The scanned bytes are rounded up
  to a multiple of 10,000,000, divided by 1,000,000,000 and multiplied by the unit price. Bytes are
  unbounded integers and costs are exact reals.
- `QueryHistory` (`query_history.dfy`) is `get_query_history`. The listing service is a finite
  sequence of responses, each with a status, a page of ids and an optional next-page token. The
  loop is a method proved against `FetchedIds`, the in-order concatenation of the pages it consumes.
- `CostReport` (`cost_report.dfy`) is the report loop of `main`. The detail lookup is a map from id
  to response. The CSV file is the sequence of rows written, header first. The loop is a method
  proved against `TotalCost`, a recursive sum of per-query costs.
- `Analysis` (`analysis.dfy`) chains the two: the history fetch, then the report.
- `Wrappers` (`wrappers.dfy`) holds the `Option` type.

Two behaviours of the code are modelled as written:

- After a detail response whose status is not 200, the code prints a message and still writes the
  row; there is no `continue`. `BuildReport` writes one row per id and reports `count == |ids|`
  whatever the statuses are.
- If the history fetch fails, `main` prints a message and goes on; it would then fail iterating
  over `None`. So `RunAnalysis` requires every consumed listing response to have status 200.

The constants are kept as the code has them. The rounding unit is 10,000,000 bytes and the divisor
is 1,000,000,000. So every started 10,000,000-byte block costs 1/100 of the unit price, and every
billed query that scanned at least one byte is charged for at least 10,000,000 bytes. The comment in
the code speaks of rounding to the megabyte, a 10 MB minimum per query and a price per terabyte. The
arithmetic differs in three ways. It rounds to 10,000,000-byte blocks, not to megabytes. It charges
nothing to a billed query that scanned 0 bytes, so the minimum does not apply there. It divides by
1,000,000,000, not by a terabyte.

## Model

| member | source | states |
|---|---|---|
| CostRule.Blocks | athea_cost.py:102 | the block count is the ceiling of bytes / 10,000,000: the least n with bytes <= n * 10,000,000 |
| CostRule.RoundUp | athea_cost.py:102 | the rounded count is a multiple of 10,000,000, at least the byte count and less than 10,000,000 above it |
| CostRule.RoundUpIsLeast | athea_cost.py:102 | the rounded count is the least multiple of 10,000,000 that is at least the byte count |
| CostRule.RoundUpIdempotent | athea_cost.py:96-102 | an aligned count is left unchanged, and rounding twice equals rounding once |
| CostRule.RoundUpFirstBlock | athea_cost.py:96-102 | every count from 1 to 10,000,000 rounds to exactly 10,000,000 |
| CostRule.RoundUpMonotone | athea_cost.py:102 | rounding preserves the order of byte counts |
| CostRule.Cost | athea_cost.py:89-103 | cost is 0 for a non-DML or FAILED query whatever it scanned; 0 when nothing was scanned; otherwise blocks * price / 100; never negative at a non-negative price |
| CostRule.OneByteCost | athea_cost.py:102-103 | a billed query scanning 1 byte costs price / 100 |
| CostRule.SecondBlockCost | athea_cost.py:102-103 | a billed query scanning 10,000,001 bytes costs 2 * price / 100 |
| CostRule.CostMonotone | athea_cost.py:102-103 | at a non-negative price, scanning more never costs less |
| QueryHistory.LastConsumed | athea_cost.py:43-53 | the fetch consumes responses up to the first that failed or has no next-page token, and no further |
| QueryHistory.FlattenSnoc | athea_cost.py:54 | extending the result with one more page appends that page's ids |
| QueryHistory.GetQueryHistory | athea_cost.py:40-56 | first request without a token, each later one with the previous response's token, requested exactly while that response succeeded and has a token; all-200 gives the in-order concatenation of every consumed page's ids, any non-200 gives None and no partial list |
| QueryHistory.ThreePagesFetch | athea_cost.py:47-54 | three successful pages of 50, 50 and 7 ids, the first two with tokens, yield the 107 ids in page order |
| CostReport.HeaderRow | athea_cost.py:81-83 | the header row has 11 cells and names each column exactly once, so every row cell belongs to one column |
| CostReport.RecordRow | athea_cost.py:105-121 | each row has 11 cells, the k-th holding the value of the k-th header column |
| CostReport.FailedRow | athea_cost.py:91-94 | a FAILED query is not charged, and its row shows 0 bytes scanned and a cost of 0 |
| CostReport.TotalCostSnoc | athea_cost.py:126 | adding one more row's cost to the running total gives the sum over one more query |
| CostReport.TotalCostNonNegative | athea_cost.py:92-103 | at a non-negative price, the total cost is non-negative |
| CostReport.UnbilledAddNothing | athea_cost.py:93-94 | queries that are not billed add nothing to the total |
| CostReport.BuildReport | athea_cost.py:77-126 | writes the header, then one row per id in id order (non-200 responses included), count equals the number of rows written, and the total is the exact sum of the per-row costs |
| Analysis.RunAnalysis | athea_cost.py:71-126 | on a successful fetch, the report is the header followed by the row of each listed id's execution, in listing order; the count is the number of listed ids and the total is the sum of their costs |

## Left out

- The price lookup `get_price` is not modelled. It parses a JSON price list, takes the first key
  of dictionaries and converts a string to a float. The price is an input `Option<real>`, and
  `None` stands for a failed lookup.
- The unchecked `None` price is modelled as a precondition. The code multiplies by the price only
  for a charged query, so the price may be absent only if no listed query is charged.
- Detail responses without execution details are excluded by a precondition. The code would fail
  reading them.
- The network calls are not modelled. The listing and detail calls become a sequence of responses
  and a map. A listing that never stops is excluded by a precondition. The script would loop
  forever on it.
- Command-line handling and `sys.exit`, the console output and the CSV file itself are not
  modelled. So are the final `round(total_cost, 2)` and the `isoformat()` conversion of
  timestamps. Timestamps are opaque strings.
- Floating point is not modelled. `data_amount / 10000000` is a float division whose quotient is
  usually rounded. Below 2^53 bytes, the ceiling of the rounded quotient still equals the exact
  ceiling: the rounding error, at most 2^-24, is smaller than the gap of at least 10^-7 between a
  non-integral quotient and the nearest integer.
  The model uses exact integer ceiling division. Costs and the running total are exact
  reals, so the accumulation has no rounding drift.
