/**
 * The report loop of the script's `main`: for every execution id it looks up
 * the execution's details, computes its cost, writes one row of the CSV
 * report, and keeps a running count and total cost.
 *
 * The detail lookup is a map from id to response; the CSV file is the
 * sequence of rows written to it, header first.
 */
module CostReport {
  import opened Wrappers
  import CostRule

  /** The details of one query execution, as the report reads them. Timestamps are opaque text. */
  datatype Execution = Execution(
    id: string,
    query: string,
    workGroup: string,
    statementType: string,
    database: string,
    state: string,
    submitted: string,
    completed: string,
    dataScanned: nat,
    totalMillis: nat)

  /** One response of the detail lookup; `execution` is absent when the response carries no details. */
  datatype DetailResponse = DetailResponse(status: int, execution: Option<Execution>)

  /** One cell of the CSV report. */
  datatype Cell = Text(text: string) | Number(n: int) | Money(amount: real)

  type Row = seq<Cell>

  /** The report's column names, in order. */
  const Header: seq<string> := [
    "QueryExecutionId", "Query", "WorkGroup", "StatementType", "Database", "State",
    "SubmissionDateTime", "CompletionDateTime", "DataScannedInBytes", "TotalExecutionTimeInMillis",
    "price($)"]

  /**
   * The first line of the report: one cell per column, and every column named
   * once, so that the name-indexed contract of RecordRow picks out exactly one
   * cell per column.
   */
  function HeaderRow(): (row: Row)
    ensures |row| == |Header| == 11
    ensures forall k :: 0 <= k < |row| ==> row[k] == Text(Header[k])
    ensures forall j, k :: 0 <= j < k < |row| ==> row[j] != row[k]
  {
    seq(|Header|, k requires 0 <= k < |Header| => Text(Header[k]))
  }

  /** The value the report holds in the named column for an execution of the given cost. */
  function Column(x: Execution, cost: real, name: string): Cell {
    match name
    case "QueryExecutionId" => Text(x.id)
    case "Query" => Text(x.query)
    case "WorkGroup" => Text(x.workGroup)
    case "StatementType" => Text(x.statementType)
    case "Database" => Text(x.database)
    case "State" => Text(x.state)
    case "SubmissionDateTime" => Text(x.submitted)
    case "CompletionDateTime" => Text(x.completed)
    case "DataScannedInBytes" => Number(CostRule.ReportedBytes(x.state, x.dataScanned))
    case "TotalExecutionTimeInMillis" => Number(x.totalMillis)
    case "price($)" => Money(cost)
    case _ => Text("")
  }

  /** The row written for an execution of the given cost: one cell per column, in header order. */
  function RecordRow(x: Execution, cost: real): (row: Row)
    ensures |row| == |Header|
    ensures forall k :: 0 <= k < |Header| ==> row[k] == Column(x, cost, Header[k])
  {
    [ Text(x.id), Text(x.query), Text(x.workGroup), Text(x.statementType), Text(x.database),
      Text(x.state), Text(x.submitted), Text(x.completed),
      Number(CostRule.ReportedBytes(x.state, x.dataScanned)), Number(x.totalMillis), Money(cost) ]
  }

  /** The cost formula, and so the price, is used for this execution. */
  predicate Charged(x: Execution) {
    CostRule.Charged(x.statementType, x.state, x.dataScanned)
  }

  /** The price can be absent only if no execution needs it. */
  predicate PriceCovers(xs: seq<Execution>, price: Option<real>) {
    price.Some? || forall i :: 0 <= i < |xs| ==> !Charged(xs[i])
  }

  /** The cost of one execution; when no price is known the execution is not charged and costs 0. */
  function ExecutionCost(x: Execution, price: Option<real>): real
    requires price.Some? || !Charged(x)
  {
    CostRule.Cost(x.statementType, x.state, x.dataScanned, price.GetOr(0.0))
  }

  /** A failed query's row reports 0 bytes scanned and a cost of 0, whatever its statistics say. */
  lemma FailedRow(x: Execution, price: Option<real>)
    requires x.state == CostRule.FailedState
    ensures !Charged(x)
    ensures RecordRow(x, ExecutionCost(x, price))[8] == Number(0)
    ensures RecordRow(x, ExecutionCost(x, price))[10] == Money(0.0)
  {
  }

  /** Every id has a detail response that carries the execution's details. */
  predicate Resolvable(ids: seq<string>, details: map<string, DetailResponse>) {
    forall i :: 0 <= i < |ids| ==> ids[i] in details && details[ids[i]].execution.Some?
  }

  /** The executions of the ids, in id order. */
  function Executions(ids: seq<string>, details: map<string, DetailResponse>): (xs: seq<Execution>)
    requires Resolvable(ids, details)
    ensures |xs| == |ids|
    ensures forall i :: 0 <= i < |ids| ==> xs[i] == details[ids[i]].execution.value
  {
    if ids == [] then []
    else [details[ids[0]].execution.value] + Executions(ids[1..], details)
  }

  /** The sum of the costs of the executions. */
  function TotalCost(xs: seq<Execution>, price: Option<real>): real
    requires PriceCovers(xs, price)
  {
    if xs == [] then 0.0
    else ExecutionCost(xs[0], price) + TotalCost(xs[1..], price)
  }

  /** Adding one more execution adds its cost to the total. */
  lemma {:induction false} TotalCostSnoc(xs: seq<Execution>, x: Execution, price: Option<real>)
    requires PriceCovers(xs + [x], price)
    ensures PriceCovers(xs, price) && (price.Some? || !Charged(x))
    ensures TotalCost(xs + [x], price) == TotalCost(xs, price) + ExecutionCost(x, price)
  {
    assert forall i :: 0 <= i < |xs| ==> xs[i] == (xs + [x])[i];
    assert x == (xs + [x])[|xs|];
    if xs != [] {
      assert (xs + [x])[1..] == xs[1..] + [x];
      TotalCostSnoc(xs[1..], x, price);
    }
  }

  /** At a non-negative price the total cost is non-negative. */
  lemma {:induction false} TotalCostNonNegative(xs: seq<Execution>, price: Option<real>)
    requires PriceCovers(xs, price)
    requires price.GetOr(0.0) >= 0.0
    ensures TotalCost(xs, price) >= 0.0
  {
    if xs != [] {
      TotalCostNonNegative(xs[1..], price);
    }
  }

  /** Executions that are not billed, or failed, add nothing to the total, whatever they scanned. */
  lemma {:induction false} UnbilledAddNothing(xs: seq<Execution>, price: Option<real>)
    requires forall i :: 0 <= i < |xs| ==> !CostRule.Billable(xs[i].statementType, xs[i].state)
    ensures PriceCovers(xs, price)
    ensures TotalCost(xs, price) == 0.0
  {
    if xs != [] {
      UnbilledAddNothing(xs[1..], price);
    }
  }

  /**
   * The report loop. It writes the header and then one row per id, in id
   * order, whatever the status of the detail response: a non-200 response
   * is reported but not skipped. `count` is the number of rows written,
   * zero-cost rows included, and `total` the exact sum of their costs.
   */
  method BuildReport(ids: seq<string>, details: map<string, DetailResponse>, price: Option<real>)
    returns (lines: seq<Row>, count: nat, total: real)
    requires Resolvable(ids, details)
    requires PriceCovers(Executions(ids, details), price)
    ensures |lines| == |ids| + 1 && lines[0] == HeaderRow()
    ensures forall i :: 0 <= i < |ids| ==>
      lines[i + 1] == RecordRow(details[ids[i]].execution.value, ExecutionCost(details[ids[i]].execution.value, price))
    ensures count == |ids|
    ensures total == TotalCost(Executions(ids, details), price)
  {
    ghost var xs := Executions(ids, details);
    lines := [HeaderRow()];
    count := 0;
    total := 0.0;
    for n := 0 to |ids|
      invariant |lines| == n + 1 && lines[0] == HeaderRow()
      invariant forall i :: 0 <= i < n ==> lines[i + 1] == RecordRow(xs[i], ExecutionCost(xs[i], price))
      invariant count == n
      invariant PriceCovers(xs[..n], price)
      invariant total == TotalCost(xs[..n], price)
    {
      var resp := details[ids[n]];
      // A status other than 200 is only reported; the row is still written.
      var x := resp.execution.value;
      assert xs[..n + 1] == xs[..n] + [x];
      TotalCostSnoc(xs[..n], x, price);
      var cost := ExecutionCost(x, price);
      lines := lines + [RecordRow(x, cost)];
      count := count + 1;
      total := total + cost;
    }
    assert xs[..|ids|] == xs;
  }
}
