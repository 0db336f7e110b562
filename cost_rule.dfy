/**
 * The per-query cost rule of the Athena cost report: which executions are
 * billed, how the scanned byte count is rounded, and how the rounded count
 * is turned into a cost at a given unit price.
 *
 * Bytes are unbounded integers and costs exact reals, so the rule is stated
 * without the floating-point error of the script's `/` and `ceil`.
 */
module CostRule {

  /** Scanned bytes are billed in whole blocks of this many bytes. */
  const RoundingUnit: nat := 10_000_000

  /** The rounded byte count is divided by this before the unit price is applied. */
  const PriceDivisor: nat := 1_000_000_000

  /** The only statement type that is charged. */
  const BilledStatementType: string := "DML"

  /** The state of a query that is never charged. */
  const FailedState: string := "FAILED"

  /** A query is billed when it is a DML statement that did not fail. */
  predicate Billable(statementType: string, state: string) {
    statementType == BilledStatementType && state != FailedState
  }

  /** The byte count the report uses: what the statistics say, or 0 for a failed query. */
  function ReportedBytes(state: string, scanned: nat): nat {
    if state != FailedState then scanned else 0
  }

  /** Whether the cost formula, and so the unit price, is used at all. */
  predicate Charged(statementType: string, state: string, scanned: nat) {
    Billable(statementType, state) && ReportedBytes(state, scanned) != 0
  }

  /** Number of started rounding blocks in `bytes`: the ceiling of bytes / RoundingUnit. */
  function Blocks(bytes: nat): (n: nat)
    ensures (n - 1) * RoundingUnit < bytes <= n * RoundingUnit || (bytes == 0 && n == 0)
  {
    (bytes + RoundingUnit - 1) / RoundingUnit
  }

  /** `bytes` rounded up to the next multiple of RoundingUnit. */
  function RoundUp(bytes: nat): (r: nat)
    ensures r % RoundingUnit == 0
    ensures bytes <= r < bytes + RoundingUnit
  {
    Blocks(bytes) * RoundingUnit
  }

  /**
   * The cost of one query: zero unless it is billed and scanned something;
   * otherwise every started block of RoundingUnit bytes costs
   * RoundingUnit / PriceDivisor = 1/100 of the unit price.
   */
  function Cost(statementType: string, state: string, scanned: nat, price: real): (c: real)
    ensures !Billable(statementType, state) ==> c == 0.0
    ensures scanned == 0 ==> c == 0.0
    ensures Billable(statementType, state) ==> c == (Blocks(scanned) as real) * price / 100.0
    ensures price >= 0.0 ==> c >= 0.0
  {
    var bytes := ReportedBytes(state, scanned);
    if statementType != BilledStatementType || state == FailedState then 0.0
    else if bytes != 0 then (RoundUp(bytes) as real) / (PriceDivisor as real) * price
    else 0.0
  }

  /** RoundUp gives the least multiple of RoundingUnit that is at least `bytes`. */
  lemma RoundUpIsLeast(bytes: nat, m: nat)
    requires m % RoundingUnit == 0 && bytes <= m
    ensures RoundUp(bytes) <= m
  {
  }

  /** Rounding leaves an aligned count alone and is therefore idempotent. */
  lemma RoundUpIdempotent(bytes: nat)
    ensures bytes % RoundingUnit == 0 ==> RoundUp(bytes) == bytes
    ensures RoundUp(RoundUp(bytes)) == RoundUp(bytes)
  {
    if bytes % RoundingUnit == 0 {
      RoundUpIsLeast(bytes, bytes);
    }
    RoundUpIsLeast(RoundUp(bytes), RoundUp(bytes));
  }

  /** Every count from 1 to RoundingUnit rounds to exactly one block. */
  lemma RoundUpFirstBlock(bytes: nat)
    requires 1 <= bytes <= RoundingUnit
    ensures RoundUp(bytes) == RoundingUnit
  {
    RoundUpIsLeast(bytes, RoundingUnit);
  }

  /** Rounding preserves order. */
  lemma RoundUpMonotone(a: nat, b: nat)
    requires a <= b
    ensures RoundUp(a) <= RoundUp(b)
  {
    RoundUpIsLeast(a, RoundUp(b));
  }

  /** A billed query that scanned one byte is charged one block: a hundredth of the unit price. */
  lemma OneByteCost(state: string, price: real)
    requires state != FailedState
    ensures Cost(BilledStatementType, state, 1, price) == price / 100.0
  {
    RoundUpFirstBlock(1);
  }

  /** One byte past the first block starts a second block: two hundredths of the unit price. */
  lemma SecondBlockCost(state: string, price: real)
    requires state != FailedState
    ensures Cost(BilledStatementType, state, 10_000_001, price) == 2.0 * price / 100.0
  {
    assert Blocks(10_000_001) == 2;
  }

  /** At a non-negative price, scanning more never costs less. */
  lemma CostMonotone(statementType: string, state: string, a: nat, b: nat, price: real)
    requires a <= b && price >= 0.0
    ensures Cost(statementType, state, a, price) <= Cost(statementType, state, b, price)
  {
    if Billable(statementType, state) {
      RoundUpMonotone(a, b);
      assert Blocks(a) <= Blocks(b);
      assert (Blocks(a) as real) * price <= (Blocks(b) as real) * price;
    }
  }
}
