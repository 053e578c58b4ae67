/**
 * The tool-layer search entry point: it builds the request for a query,
 * flattens the decoded response, and packages the rows with their count.
 * The HTTP round trip itself is outside the model; the decoded response is
 * passed in beside the query.
 */
module VloMcp {
  import opened Vlo

  /** The tool's structured result: the rows as dictionaries, and their number. */
  datatype ToolResult = ToolResult(results: seq<map<string, string>>, count: int)

  /** The row count used when the tool's caller gives none. */
  const ToolDefaultRows := 5

  /** Packages flattened rows: one dictionary per row, in order, with the count equal to the number of rows. */
  function Package(rows: seq<FlatRecord>): (r: ToolResult)
    ensures r.count == |r.results| == |rows|
    ensures forall i :: 0 <= i < |rows| ==> r.results[i] == RowMap(rows[i])
    ensures forall i :: 0 <= i < |rows| ==> r.results[i].Keys == ColumnNames
  {
    ToolResult(seq(|rows|, i requires 0 <= i < |rows| => RowMap(rows[i])), |rows|)
  }

  /**
   * `vlo_search`: the request sent is the parameter map for query and rows,
   * and the result holds one dictionary per record of the response, in
   * order, with the count equal to the number of results.
   */
  method VloSearch(query: string, response: RawResponse, rows: int := ToolDefaultRows)
    returns (request: map<string, ParamValue>, result: ToolResult)
    ensures request == QueryParams(query, rows)
    ensures result.count == |result.results| == |RecordsOf(response)|
    ensures response.records.None? ==> result.count == 0
    ensures forall i :: 0 <= i < |result.results| ==>
              result.results[i] == RowMap(Flatten(RecordsOf(response)[i]))
  {
    request := QueryParams(query, rows);
    var data := ParseResults(response);
    result := Package(data);
  }
}
