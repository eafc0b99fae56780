/** The statement execution orchestrator behind both SQL tools: pick the
    first warehouse, submit the statement, poll its status a bounded number
    of times with a progress notification and a sleep before each fetch,
    then report the error, cancel on timeout, or assemble the result by
    following the chunk chain until its next index is 0.

    The two handlers of the repository run the same steps with different
    settings and guards, named by `Variant`: `Current` is tools/execute_sql.go,
    `Legacy` is `executeSQL` in tools.go.

    Each loop is specified by a recursive function over the oracle's answers
    (`PollFrom`, `ChainFrom`), and the whole handler by `Execute`; the
    properties the handlers promise are proved about those functions in
    module StatementProperties. */
module Orchestrator {
  import opened Base
  import opened Mcp
  import opened Common
  import opened Sql

  datatype Variant = Current | Legacy

  /** The guard of the legacy poll loop. */
  predicate IsStatementInProgress(state: State) {
    state == Pending
  }

  /** Only Pending counts as in progress, so a statement already Running is
      not waited for, nor is one in a terminal state. */
  lemma InProgressOnlyPending(state: State)
    ensures IsStatementInProgress(state) ==>
      state != Running && state != Succeeded && state != Failed && state != Canceled && state != Closed
    ensures state == Pending ==> IsStatementInProgress(state)
  {
  }

  /** The condition under which the poll loop fetches the status once more
      (the attempt budget aside). */
  predicate KeepPolling(v: Variant, status: Status) {
    match v
    case Current => status.state != Succeeded && status.error.None?
    case Legacy => IsStatementInProgress(status.state)
  }

  /** Neither variant polls a statement that succeeded; the current one
      stops at a reported error and polls every other state, terminal ones
      without an error included, while the legacy one polls exactly while
      the statement is in progress. */
  lemma PollingGuards(v: Variant, status: Status)
    ensures status.state == Succeeded ==> !KeepPolling(v, status)
    ensures v == Current && status.error.Some? ==> !KeepPolling(v, status)
    ensures v == Current && status.state != Succeeded && status.error.None? ==> KeepPolling(v, status)
    ensures v == Legacy ==> (KeepPolling(v, status) <==> IsStatementInProgress(status.state))
  {
  }

  const StillRunning := "The statement is still running, please wait..."

  function InProgressMessage(attempts: nat, state: State): string {
    "Statement execution in progress (" + DecimalString(attempts * 10) + " seconds), current status: " + StateName(state)
  }

  /** The notification sent before the sleep of attempt `attempts`. The
      current variant falls back to token 0 without metadata; the legacy one
      reads the token through the metadata pointer, and panics (`None`) when
      the request has none. */
  function ProgressFor(v: Variant, attempts: nat, max: nat, state: State, meta: Option<Meta>): Option<ProgressEvent>
  {
    match v
    case Current =>
      var token := if meta.Some? then meta.value.progressToken else JNumber(0.0);
      Some(ProgressEvent(InProgressMessage(attempts, state), token, Some(attempts), Some(max)))
    case Legacy =>
      if meta.None? then None else Some(ProgressEvent(StillRunning, meta.value.progressToken, None, None))
  }

  /** The current notification reports the attempt and the budget, with the
      request's progress token or 0 without metadata; the legacy one is the
      fixed message with the request's token and no figures, and exists
      exactly when the request has metadata. */
  lemma ProgressShape(v: Variant, attempts: nat, max: nat, state: State, meta: Option<Meta>)
    ensures var r := ProgressFor(v, attempts, max, state, meta);
      && (v == Current ==>
            r.Some? && r.value.message == InProgressMessage(attempts, state) &&
            r.value.progress == Some(attempts as int) && r.value.total == Some(max as int))
      && (v == Current && meta.Some? ==> r.value.token == meta.value.progressToken)
      && (v == Current && meta.None? ==> r.value.token == JNumber(0.0))
      && (v == Legacy ==> (r.Some? <==> meta.Some?))
      && (v == Legacy && r.Some? ==>
            r.value.message == StillRunning && r.value.token == meta.value.progressToken &&
            r.value.progress.None? && r.value.total.None?)
  {
  }


  /** How the poll loop ends: its condition became false with this response,
      or building, sending or the status fetch after it failed. */
  datatype PollEnd = Settled(response: Response) | MetaMissing | NotifyFailed | FetchFailed(cause: string)

  /** The end of the poll loop, the number of completed attempts, the
      notifications delivered, the statement ids whose status was fetched
      (one sleep precedes each fetch) and the client's remaining budget. */
  datatype Polled = Polled(end: PollEnd, attempts: nat, events: seq<ProgressEvent>, asked: seq<string>, budget: Option<nat>)

  /** The poll loop from a state in which `attempts` attempts are done, the
      last response is `res`, and `replies` are the status replies still to
      come; `events` and `asked` are what was delivered and fetched so far. */
  function PollFrom(v: Variant, max: nat, meta: Option<Meta>, res: Response, replies: seq<Result<Response>>,
                    budget: Option<nat>, attempts: nat, events: seq<ProgressEvent>, asked: seq<string>): Polled
    decreases max - attempts, 1
  {
    if attempts >= max || !KeepPolling(v, res.status) then
      Polled(Settled(res), attempts, events, asked, budget)
    else
      AttemptFrom(v, max, meta, res, replies, budget, attempts, events, asked)
  }

  /** One attempt of the poll loop, taken when its condition holds: build
      and send the notification, sleep, fetch the status, and go on polling
      from the fetched response. */
  function AttemptFrom(v: Variant, max: nat, meta: Option<Meta>, res: Response, replies: seq<Result<Response>>,
                       budget: Option<nat>, attempts: nat, events: seq<ProgressEvent>, asked: seq<string>): Polled
    requires attempts < max
    decreases max - attempts, 0
  {
    match ProgressFor(v, attempts, max, res.status.state, meta)
    case None => Polled(MetaMissing, attempts, events, asked, budget)
    case Some(e) =>
      if !Accepts(budget) then
        Polled(NotifyFailed, attempts, events, asked, budget)
      else if replies == [] then
        Polled(FetchFailed(NoReply), attempts, events + [e], asked + [res.statementId], Spend(budget))
      else
        match replies[0]
        case Err(cause) => Polled(FetchFailed(cause), attempts, events + [e], asked + [res.statementId], Spend(budget))
        case Ok(next) =>
          PollFrom(v, max, meta, next, replies[1..], Spend(budget), attempts + 1, events + [e], asked + [res.statementId])
  }

  /** What the poll loop has done to the service, the client and the clock
      since the handler's call began: delivered `events`, fetched the status
      of the ids in `asked`, one sleep and one scripted reply each, nothing else. */
  twostate predicate PolledSoFar(svc: StatementService, sink: ProgressSink, clock: Clock,
                                 events: seq<ProgressEvent>, asked: seq<string>)
    reads svc, sink, clock
  {
    && sink.delivered == old(sink.delivered) + events
    && svc.statusRequests == old(svc.statusRequests) + asked
    && svc.statusReplies == Drop(old(svc.statusReplies), |asked|)
    && clock.sleeps == old(clock.sleeps) + |asked|
    && svc.submitted == old(svc.submitted) && svc.chunkRequests == old(svc.chunkRequests)
    && svc.cancelled == old(svc.cancelled)
  }

  /** One attempt of the poll loop, taken when its condition holds: build
      and send the notification, sleep, fetch the status. `stop` is how the
      loop ends here, if it does; otherwise `next` is the fetched response.
      `sent` and `fetched` are the notification delivered and the statement
      id fetched by this attempt. */
  method Attempt(v: Variant, max: nat, meta: Option<Meta>, res: Response, attempts: nat,
                 ghost events: seq<ProgressEvent>, ghost asked: seq<string>,
                 svc: StatementService, sink: ProgressSink, clock: Clock)
    returns (stop: Option<PollEnd>, next: Response, ghost sent: seq<ProgressEvent>, ghost fetched: seq<string>)
    requires attempts < max && KeepPolling(v, res.status)
    modifies svc, sink, clock
    ensures var p := PollFrom(v, max, meta, res, old(svc.statusReplies), old(sink.budget), attempts, events, asked);
      if stop.Some? then p == Polled(stop.value, attempts, events + sent, asked + fetched, sink.budget)
      else p == PollFrom(v, max, meta, next, svc.statusReplies, sink.budget, attempts + 1, events + sent, asked + fetched)
    ensures PolledSoFar(svc, sink, clock, sent, fetched)
  {
    assert PollFrom(v, max, meta, res, svc.statusReplies, sink.budget, attempts, events, asked)
        == AttemptFrom(v, max, meta, res, svc.statusReplies, sink.budget, attempts, events, asked);
    next, sent, fetched := res, [], [];
    var event := ProgressFor(v, attempts, max, res.status.state, meta);
    if event.None? {
      return Some(MetaMissing), next, sent, fetched;
    }
    var ok := sink.Notify(event.value);
    if !ok {
      return Some(NotifyFailed), next, sent, fetched;
    }
    clock.Sleep();
    var reply := svc.GetStatementByStatementId(res.statementId);
    sent, fetched := [event.value], [res.statementId];
    if reply.Err? {
      return Some(FetchFailed(reply.cause)), next, sent, fetched;
    }
    return None, reply.value, sent, fetched;
  }

  /** The poll loop of both handlers. */
  method PollLoop(v: Variant, max: nat, meta: Option<Meta>, first: Response,
                  svc: StatementService, sink: ProgressSink, clock: Clock)
    returns (end: PollEnd, attempts: nat)
    modifies svc, sink, clock
    ensures var p := PollFrom(v, max, meta, first, old(svc.statusReplies), old(sink.budget), 0, [], []);
      && end == p.end && attempts == p.attempts && sink.budget == p.budget
      && PolledSoFar(svc, sink, clock, p.events, p.asked)
  {
    var res := first;
    attempts := 0;
    ghost var events: seq<ProgressEvent> := [];
    ghost var asked: seq<string> := [];
    ghost var whole := PollFrom(v, max, meta, first, svc.statusReplies, sink.budget, 0, [], []);
    while attempts < max && KeepPolling(v, res.status)
      invariant whole == PollFrom(v, max, meta, res, svc.statusReplies, sink.budget, attempts, events, asked)
      invariant PolledSoFar(svc, sink, clock, events, asked)
      decreases max - attempts
    {
      var stop, next, sent, fetched := Attempt(v, max, meta, res, attempts, events, asked, svc, sink, clock);
      AppendAfterAppend(old(sink.delivered), events, sent);
      AppendAfterAppend(old(svc.statusRequests), asked, fetched);
      DropAfterDrop(old(svc.statusReplies), |asked|, |fetched|);
      events, asked := events + sent, asked + fetched;
      if stop.Some? {
        return stop.value, attempts;
      }
      res := next;
      attempts := attempts + 1;
    }
    end := Settled(res);
  }

  /** A bound on the chunk fetches still to come from next index `idx`. */
  function Remaining(store: seq<Result<Chunk>>, idx: int): nat {
    if 0 < idx < |store| then |store| - idx else 0
  }

  /** The rows assembled and the chunk indices fetched. */
  datatype Chained = Chained(rows: Result<seq<Row>>, asked: seq<int>)

  /** Chunk assembly from next index `idx`, with `rows` assembled and `asked` fetched so far. */
  function ChainFrom(store: seq<Result<Chunk>>, idx: int, rows: seq<Row>, asked: seq<int>): Chained
    requires Ascending(store)
    decreases Remaining(store, idx)
  {
    if idx == 0 then Chained(Ok(rows), asked)
    else
      match ChunkAt(store, idx)
      case Err(cause) => Chained(Err(cause), asked + [idx])
      case Ok(chunk) => ChainFrom(store, chunk.nextChunkIndex, rows + chunk.rows, asked + [idx])
  }

  /** The chunk requests for the statement `id` at the indices `idxs`, in order. */
  function ChunkRequests(id: string, idxs: seq<int>): (reqs: seq<ChunkRequest>)
    ensures |reqs| == |idxs|
    ensures forall i :: 0 <= i < |idxs| ==> reqs[i] == ChunkRequest(id, idxs[i])
  {
    seq(|idxs|, i requires 0 <= i < |idxs| => ChunkRequest(id, idxs[i]))
  }

  /** The chunk loop of both handlers: starting from the chunk embedded in the
      response, fetch the chunk at each next index until it is 0. A failed
      fetch returns its error and none of the rows. */
  method CollectRows(svc: StatementService, id: string, first: Chunk) returns (r: Result<seq<Row>>)
    requires Ascending(svc.chunkStore)
    modifies svc
    ensures var c := ChainFrom(svc.chunkStore, first.nextChunkIndex, first.rows, []);
      r == c.rows && svc.chunkRequests == old(svc.chunkRequests) + ChunkRequests(id, c.asked)
    ensures svc.submitted == old(svc.submitted) && svc.statusReplies == old(svc.statusReplies)
    ensures svc.statusRequests == old(svc.statusRequests) && svc.cancelled == old(svc.cancelled)
  {
    var data := first;
    var rows := first.rows;
    ghost var asked: seq<int> := [];
    while data.nextChunkIndex != 0
      invariant ChainFrom(svc.chunkStore, first.nextChunkIndex, first.rows, [])
             == ChainFrom(svc.chunkStore, data.nextChunkIndex, rows, asked)
      invariant svc.chunkRequests == old(svc.chunkRequests) + ChunkRequests(id, asked)
      invariant svc.submitted == old(svc.submitted) && svc.statusReplies == old(svc.statusReplies)
      invariant svc.statusRequests == old(svc.statusRequests) && svc.cancelled == old(svc.cancelled)
      decreases Remaining(svc.chunkStore, data.nextChunkIndex)
    {
      var idx := data.nextChunkIndex;
      var reply := svc.GetStatementResultChunkN(ChunkRequest(id, idx));
      asked := asked + [idx];
      if reply.Err? {
        return Err(reply.cause);
      }
      data := reply.value;
      rows := rows + data.rows;
    }
    r := Ok(rows);
  }

  /** What a handler's arguments fix before anything is sent: the attempt
      budget of the poll loop, the row limit and the submission's wait. */
  datatype Settings = Settings(maxAttempts: nat, rowLimit: int, waitTimeout: string)

  /** The attempt budget for a timeout in seconds: one attempt per whole
      10 seconds, and none for a timeout under 5 seconds. */
  function MaxAttempts(timeoutSeconds: real): (n: nat)
    ensures timeoutSeconds < 5.0 ==> n == 0
    ensures 5.0 <= timeoutSeconds ==> n as real <= timeoutSeconds / 10.0 < n as real + 1.0
  {
    if timeoutSeconds < 5.0 then 0 else Truncate(timeoutSeconds / 10.0)
  }

  const DefaultTimeout := 60.0
  const DefaultRowLimit := 100.0
  const LegacyMaxAttempts := 5

  function SettingsFor(v: Variant, request: CallToolRequest): Settings
  {
    match v
    case Current =>
      Settings(MaxAttempts(ExtractFloatParam(request, "max_wait_timeout", DefaultTimeout)),
               Truncate(ExtractFloatParam(request, "row_limit", DefaultRowLimit)), "5s")
    case Legacy => Settings(LegacyMaxAttempts, 100, "10s")
  }

  /** The payload of a successful call: the column manifest, the assembled
      rows and, for the current variant, the warehouse used. */
  datatype SqlRows = SqlRows(columns: seq<Column>, rows: seq<Row>, warehouse: Option<Warehouse>)

  /** Everything one call does: its outcome, the requests it sends to the
      service (submissions, status fetches, chunk fetches, cancellations),
      the notifications delivered and the client's remaining budget. Every
      status fetch is preceded by one sleep. */
  datatype Run = Run(
    outcome: Outcome<ToolResult<SqlRows>>,
    submitted: seq<SubmitRequest>,
    events: seq<ProgressEvent>,
    statusAsked: seq<string>,
    chunksAsked: seq<ChunkRequest>,
    cancelled: seq<string>,
    budget: Option<nat>)

  const StatementNotString := "statement argument is not a string"
  const NilMeta := "nil request metadata"
  const ListWarehousesError := "Error listing warehouses"
  const NoWarehouses := "No warehouses available"
  const SubmitError := "Error executing SQL statement"
  const StatusError := "Error getting statement status"
  const ChunkError := "Error getting statement result chunk"

  function StatementError(state: State): string {
    "Error executing the statement, current status " + StateName(state)
  }

  function CanceledError(state: State): string {
    StatementError(state) + ", canceled execution"
  }

  /** A call that ends before any notification or status fetch. */
  function Early(outcome: Outcome<ToolResult<SqlRows>>, submitted: seq<SubmitRequest>, budget: Option<nat>): Run {
    Run(outcome, submitted, [], [], [], [], budget)
  }

  /** How a call ends once its poll loop has settled: the outcome, the
      chunk fetches and the cancellations it sends. */
  datatype Exit = Exit(outcome: Outcome<ToolResult<SqlRows>>, chunksAsked: seq<ChunkRequest>, cancelled: seq<string>)

  /** The exit handling once the poll loop has settled on `res`. */
  function Finish(v: Variant, res: Response, warehouse: Warehouse, chunks: seq<Result<Chunk>>): (x: Exit)
    requires Ascending(chunks)
    ensures x.outcome.Done?
  {
    if res.status.error.Some? then
      Exit(Done(ErrorResult(StatementError(res.status.state), Some(res.status.error.value))), [], [])
    else if res.status.state != Succeeded then
      match v
      case Current => Exit(Done(ErrorResult(CanceledError(res.status.state), None)), [], [res.statementId])
      case Legacy => Exit(Done(ErrorResult(StatementError(res.status.state), None)), [], [])
    else
      var c := ChainFrom(chunks, res.result.nextChunkIndex, res.result.rows, []);
      var outcome := match c.rows
        case Err(cause) => Done(ErrorResult(ChunkError, Some(cause)))
        case Ok(rows) => Done(TextResult(SqlRows(res.columns, rows, if v == Current then Some(warehouse) else None)));
      Exit(outcome, ChunkRequests(res.statementId, c.asked), [])
  }

  /** The poll loop of a call, from the response to its submission. */
  function PollOf(v: Variant, request: CallToolRequest, first: Response, statuses: seq<Result<Response>>, budget: Option<nat>): Polled
  {
    PollFrom(v, SettingsFor(v, request).maxAttempts, request.meta, first, statuses, budget, 0, [], [])
  }

  /** One call of a SQL handler against a service that will give the
      answers `remote` and a client that takes `budget` more notifications. */
  function Execute(v: Variant, request: CallToolRequest, remote: Remote, budget: Option<nat>): Run
    requires Ascending(remote.chunks)
  {
    var args := request.arguments;
    if !("statement" in args && args["statement"].JString?) then Early(Panicked(StatementNotString), [], budget)
    else
      var settings := SettingsFor(v, request);
      match remote.warehouses
      case Err(cause) => Early(Done(ErrorResult(ListWarehousesError, Some(cause))), [], budget)
      case Ok(warehouses) =>
        if warehouses == [] then Early(Done(ErrorResult(NoWarehouses, None)), [], budget)
        else
          var submitted := [SubmitRequest(args["statement"].s, settings.rowLimit, settings.waitTimeout, warehouses[0].id)];
          match remote.submit
          case Err(cause) => Early(Done(ErrorResult(SubmitError, Some(cause))), submitted, budget)
          case Ok(first) =>
            var p := PollOf(v, request, first, remote.statuses, budget);
            match p.end
            case MetaMissing => Run(Panicked(NilMeta), submitted, p.events, p.asked, [], [], p.budget)
            case NotifyFailed => Run(Errored(NotDelivered), submitted, p.events, p.asked, [], [], p.budget)
            case FetchFailed(cause) => Run(Done(ErrorResult(StatusError, Some(cause))), submitted, p.events, p.asked, [], [], p.budget)
            case Settled(res) =>
              var x := Finish(v, res, warehouses[0], remote.chunks);
              Run(x.outcome, submitted, p.events, p.asked, x.chunksAsked, x.cancelled, p.budget)
  }

  /** The effects of a call on the service, the client and the clock, as `run` describes them. */
  twostate predicate Performed(svc: StatementService, sink: ProgressSink, clock: Clock, run: Run)
    reads svc, sink, clock
  {
    && svc.submitted == old(svc.submitted) + run.submitted
    && svc.statusRequests == old(svc.statusRequests) + run.statusAsked
    && svc.statusReplies == Drop(old(svc.statusReplies), |run.statusAsked|)
    && svc.chunkRequests == old(svc.chunkRequests) + run.chunksAsked
    && svc.cancelled == old(svc.cancelled) + run.cancelled
    && sink.delivered == old(sink.delivered) + run.events
    && sink.budget == run.budget
    && clock.sleeps == old(clock.sleeps) + |run.statusAsked|
  }

  /** The body shared by both SQL handlers; `v` selects the variant's
      settings, loop guard, notification, cancellation and payload. */
  method HandleStatement(v: Variant, request: CallToolRequest, svc: StatementService, sink: ProgressSink, clock: Clock)
    returns (out: Outcome<ToolResult<SqlRows>>)
    requires Ascending(svc.chunkStore)
    modifies svc, sink, clock
    ensures var run := Execute(v, request, old(svc.Answers()), old(sink.budget));
      out == run.outcome && Performed(svc, sink, clock, run)
  {
    var args := request.arguments;
    if !("statement" in args && args["statement"].JString?) {
      return Panicked(StatementNotString);
    }
    var statement := args["statement"].s;
    var settings := SettingsFor(v, request);

    var warehouses := svc.ListWarehouses();
    if warehouses.Err? {
      return Done(ErrorResult(ListWarehousesError, Some(warehouses.cause)));
    }
    if warehouses.value == [] {
      return Done(ErrorResult(NoWarehouses, None));
    }
    var warehouse := warehouses.value[0];

    var submitted := svc.ExecuteStatement(SubmitRequest(statement, settings.rowLimit, settings.waitTimeout, warehouse.id));
    if submitted.Err? {
      return Done(ErrorResult(SubmitError, Some(submitted.cause)));
    }

    var end, attempts := PollLoop(v, settings.maxAttempts, request.meta, submitted.value, svc, sink, clock);
    match end
    case MetaMissing =>
      return Panicked(NilMeta);
    case NotifyFailed =>
      return Errored(NotDelivered);
    case FetchFailed(cause) =>
      return Done(ErrorResult(StatusError, Some(cause)));
    case Settled(res) =>
      out := Conclude(v, res, warehouse, svc);
  }

  /** The exit handling of both handlers once the poll loop has settled on
      `res`: report a status error, cancel (current variant) or report an
      unfinished statement, or collect the rows. */
  method Conclude(v: Variant, res: Response, warehouse: Warehouse, svc: StatementService)
    returns (out: Outcome<ToolResult<SqlRows>>)
    requires Ascending(svc.chunkStore)
    modifies svc
    ensures var x := Finish(v, res, warehouse, svc.chunkStore);
      && out == x.outcome
      && svc.chunkRequests == old(svc.chunkRequests) + x.chunksAsked
      && svc.cancelled == old(svc.cancelled) + x.cancelled
    ensures svc.submitted == old(svc.submitted) && svc.statusReplies == old(svc.statusReplies)
    ensures svc.statusRequests == old(svc.statusRequests)
  {
    if res.status.error.Some? {
      return Done(ErrorResult(StatementError(res.status.state), Some(res.status.error.value)));
    }
    if res.status.state != Succeeded {
      if v == Current {
        svc.CancelExecution(res.statementId);
        return Done(ErrorResult(CanceledError(res.status.state), None));
      }
      return Done(ErrorResult(StatementError(res.status.state), None));
    }
    var rows := CollectRows(svc, res.statementId, res.result);
    if rows.Err? {
      return Done(ErrorResult(ChunkError, Some(rows.cause)));
    }
    out := Done(TextResult(SqlRows(res.columns, rows.value, if v == Current then Some(warehouse) else None)));
  }
}
