/** The older tool handlers of tools.go: `listAllTables`, which filters
    the full listing without any limit, and `executeSQL`, the orchestrator's
    legacy variant. */
module LegacyTools {
  import opened Base
  import opened Mcp
  import opened Common
  import opened Sql
  import opened Orchestrator
  import opened Tables

  /** `listAllTables`, with `listAll` the `Tables.ListAll` call for a
      catalog and schema: no limit is applied, and filtering is skipped for
      the patterns "" and ".*". */
  method ListAllTables(request: CallToolRequest, listAll: (string, string) -> Result<seq<Table>>, e: Engine)
    returns (out: Outcome<ToolResult<seq<Table>>>)
    ensures !StringArg(request, "catalog") ==> out == Panicked(CatalogNotString)
    ensures StringArg(request, "catalog") && !StringArg(request, "schema") ==> out == Panicked(SchemaNotString)
    ensures StringArg(request, "catalog") && StringArg(request, "schema") ==>
      var listing := listAll(request.arguments["catalog"].s, request.arguments["schema"].s);
      var pattern := ExtractStringParam(request, "filter_pattern", "");
      && (listing.Err? ==> out == Done(ErrorResult(ListError, Some(listing.cause))))
      && (listing.Ok? && SkipsFilter(pattern) ==> out == Done(TextResult(listing.value)))
      && (listing.Ok? && !SkipsFilter(pattern) && !Compiles(e, pattern) ==>
            out == Done(ErrorResult(FilterError, e.compileError(pattern))))
      && (listing.Ok? && !SkipsFilter(pattern) && Compiles(e, pattern) ==>
            out == Done(TextResult(Matching(listing.value, pattern, e))))
  {
    if !StringArg(request, "catalog") {
      return Panicked(CatalogNotString);
    }
    if !StringArg(request, "schema") {
      return Panicked(SchemaNotString);
    }
    var pattern := ExtractStringParam(request, "filter_pattern", "");
    var fetched := listAll(request.arguments["catalog"].s, request.arguments["schema"].s);
    if fetched.Err? {
      return Done(ErrorResult(ListError, Some(fetched.cause)));
    }
    var tables := fetched.value;
    if !SkipsFilter(pattern) {
      var filtered := FilterTables(tables, pattern, e);
      if filtered.Err? {
        return Done(ErrorResult(FilterError, Some(filtered.cause)));
      }
      tables := filtered.value;
    }
    out := Done(TextResult(tables));
  }

  /** `executeSQL`, with `svc` the global workspace client's services,
      `sink` the MCP server found in the context and `clock` the sleeps. */
  method ExecuteSql(request: CallToolRequest, svc: StatementService, sink: ProgressSink, clock: Clock)
    returns (out: Outcome<ToolResult<SqlRows>>)
    requires Ascending(svc.chunkStore)
    modifies svc, sink, clock
    ensures var run := Execute(Legacy, request, old(svc.Answers()), old(sink.budget));
      out == run.outcome && Performed(svc, sink, clock, run)
  {
    out := HandleStatement(Legacy, request, svc, sink, clock);
  }
}
