/** The `execute_sql` tool (tools/execute_sql.go): the handler bound to a
    workspace client, running the orchestrator's current variant. */
module ExecuteSqlTool {
  import opened Base
  import opened Mcp
  import opened Sql
  import opened Orchestrator

  /** `ExecuteSQL(w)` applied to a request, with `svc` the workspace
      client's statement and warehouse services, `sink` the MCP server found
      in the context and `clock` the sleeps taken. */
  method ExecuteSql(request: CallToolRequest, svc: StatementService, sink: ProgressSink, clock: Clock)
    returns (out: Outcome<ToolResult<SqlRows>>)
    requires Ascending(svc.chunkStore)
    modifies svc, sink, clock
    ensures var run := Execute(Current, request, old(svc.Answers()), old(sink.budget));
      out == run.outcome && Performed(svc, sink, clock, run)
  {
    out := HandleStatement(Current, request, svc, sink, clock);
  }
}
