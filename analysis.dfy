/**
 * The flow of the script's `main` once the region and the price are known:
 * list the workgroup's execution ids, then build the report over them.
 */
module Analysis {
  import opened Wrappers
  import QueryHistory
  import CostReport

  /**
   * `main` does not stop when the history fetch fails; it would then fail
   * on the missing list. So the fetch must succeed: every listing response
   * it consumes has status 200. Every detail response must carry the
   * execution's details, and the price may be missing only if no execution
   * is charged.
   */
  method RunAnalysis(pages: seq<QueryHistory.Page>, details: map<string, CostReport.DetailResponse>, price: Option<real>)
    returns (lines: seq<CostReport.Row>, count: nat, total: real)
    requires QueryHistory.Terminates(pages) && QueryHistory.AllConsumedOk(pages)
    requires CostReport.Resolvable(QueryHistory.FetchedIds(pages), details)
    requires CostReport.PriceCovers(CostReport.Executions(QueryHistory.FetchedIds(pages), details), price)
    ensures count == |QueryHistory.FetchedIds(pages)| == |lines| - 1
    ensures lines[0] == CostReport.HeaderRow()
    ensures forall i :: 0 <= i < count ==>
      var x := details[QueryHistory.FetchedIds(pages)[i]].execution.value;
      lines[i + 1] == CostReport.RecordRow(x, CostReport.ExecutionCost(x, price))
    ensures total == CostReport.TotalCost(CostReport.Executions(QueryHistory.FetchedIds(pages), details), price)
  {
    ghost var tokens;
    var history;
    history, tokens := QueryHistory.GetQueryHistory(pages);
    var ids := history.value;
    lines, count, total := CostReport.BuildReport(ids, details, price);
  }
}
