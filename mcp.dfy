/** The surface of the tool-invocation library the handlers are written
    against: the request a tool handler receives, the result it returns,
    the progress notifications it sends, and the sleeps between polls. The
    library itself is not part of this model; its client connection is
    reduced to how many more notifications it will deliver. */
module Mcp {
  import opened Base

  /** The request metadata; present only when the client sent a `_meta`. */
  datatype Meta = Meta(progressToken: Json)

  datatype CallToolRequest = CallToolRequest(arguments: map<string, Json>, meta: Option<Meta>)

  /** A tool result: a text payload (the JSON the handler marshals, kept
      structured here) or an error result built from a text and, for
      `NewToolResultErrorFromErr`, the underlying error. */
  datatype ToolResult<+P> = TextResult(payload: P) | ErrorResult(text: string, cause: Option<string>)

  /** The parameters of one "notifications/progress" notification. */
  datatype ProgressEvent = ProgressEvent(message: string, token: Json, progress: Option<int>, total: Option<int>)

  /** True when a client with this remaining budget accepts one more notification. */
  predicate Accepts(budget: Option<nat>) {
    budget != Some(0)
  }

  /** The budget left after one delivered notification. */
  function Spend(budget: Option<nat>): (b: Option<nat>)
    ensures budget.None? <==> b.None?
    ensures budget.Some? && budget.value > 0 ==> b == Some(budget.value - 1)
  {
    match budget
    case None => None
    case Some(n) => if n == 0 then Some(0) else Some(n - 1)
  }

  /** The connection of the calling client. `budget` is how many further
      notifications it will take (`None`: no limit); once it is spent,
      sending fails, as it does when the client has gone away. */
  class ProgressSink {
    var budget: Option<nat>
    var delivered: seq<ProgressEvent>

    constructor (budget: Option<nat>)
      ensures this.budget == budget && delivered == []
    {
      this.budget := budget;
      delivered := [];
    }

    method Notify(e: ProgressEvent) returns (ok: bool)
      modifies this
      ensures ok == Accepts(old(budget))
      ensures delivered == if ok then old(delivered) + [e] else old(delivered)
      ensures budget == if ok then Spend(old(budget)) else old(budget)
    {
      ok := Accepts(budget);
      if ok {
        delivered := delivered + [e];
        budget := Spend(budget);
      }
    }
  }

  /** `time.Sleep`, reduced to a count of the sleeps taken. */
  class Clock {
    var sleeps: nat

    constructor ()
      ensures sleeps == 0
    {
      sleeps := 0;
    }

    method Sleep()
      modifies this
      ensures sleeps == old(sleeps) + 1
    {
      sleeps := sleeps + 1;
    }
  }
}
