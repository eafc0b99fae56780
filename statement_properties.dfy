/** What the SQL handlers promise, proved about the specification functions
    of module Orchestrator: the shape and bounds of the poll loop, the
    numbering of progress notifications, the choice of warehouse and
    settings, when a statement is cancelled, and how the result rows are
    assembled from the chunk chain. */
module StatementProperties {
  import opened Base
  import opened Mcp
  import opened Common
  import opened Sql
  import opened Orchestrator

  /* ---------------------------------------------------------------- */
  /* The poll loop                                                      */
  /* ---------------------------------------------------------------- */

  /** The poll loop never exceeds its attempt budget; it delivers one
      notification per status fetch; every completed attempt is one fetch,
      and a failed fetch is one more; it ends on a settled response only when
      the budget is spent or the variant's condition no longer holds; and
      only the legacy variant stops for want of request metadata, before its
      first notification. */
  lemma {:induction false} PollShape(v: Variant, max: nat, meta: Option<Meta>, res: Response, replies: seq<Result<Response>>,
                                     budget: Option<nat>, k: nat, events: seq<ProgressEvent>, asked: seq<string>)
    requires k <= max && |events| == k && |asked| == k
    ensures var p := PollFrom(v, max, meta, res, replies, budget, k, events, asked);
      && k <= p.attempts <= max
      && |p.events| == |p.asked|
      && |p.asked| == p.attempts + (if p.end.FetchFailed? then 1 else 0)
      && |p.asked| <= max
      && p.events[..k] == events && p.asked[..k] == asked
      && (p.end.Settled? ==> p.attempts == max || !KeepPolling(v, p.end.response.status))
      && (!p.end.Settled? ==> p.attempts < max)
      && (p.end.MetaMissing? ==> v == Legacy && meta.None? && p.events == events)
    decreases max - k
  {
    var p := PollFrom(v, max, meta, res, replies, budget, k, events, asked);
    if k >= max || !KeepPolling(v, res.status) {
    } else {
      match ProgressFor(v, k, max, res.status.state, meta)
      case None =>
      case Some(e) =>
        if !Accepts(budget) {
        } else if replies == [] {
          assert (events + [e])[..k] == events;
          assert (asked + [res.statementId])[..k] == asked;
        } else {
          match replies[0]
          case Err(cause) =>
            assert (events + [e])[..k] == events;
            assert (asked + [res.statementId])[..k] == asked;
          case Ok(next) =>
            PollShape(v, max, meta, next, replies[1..], Spend(budget), k + 1, events + [e], asked + [res.statementId]);
            assert p.events[..k] == p.events[..k + 1][..k];
            assert p.asked[..k] == p.asked[..k + 1][..k];
      }
    }
  }

  /** Every id in `ids` is `id`. */
  predicate AllAre(ids: seq<string>, id: string) {
    forall i :: 0 <= i < |ids| ==> ids[i] == id
  }

  /** Every status fetch is for the statement submitted, as long as the
      service keeps the statement id across replies. */
  lemma {:induction false} PollAsksForStatement(v: Variant, max: nat, meta: Option<Meta>, res: Response, replies: seq<Result<Response>>,
                                                budget: Option<nat>, k: nat, events: seq<ProgressEvent>, asked: seq<string>, id: string)
    requires res.statementId == id
    requires forall i :: 0 <= i < |replies| && replies[i].Ok? ==> replies[i].value.statementId == id
    requires AllAre(asked, id)
    ensures AllAre(PollFrom(v, max, meta, res, replies, budget, k, events, asked).asked, id)
    decreases max - k
  {
    if k >= max || !KeepPolling(v, res.status) {
    } else {
      match ProgressFor(v, k, max, res.status.state, meta)
      case None =>
      case Some(e) =>
        var asked' := asked + [res.statementId];
        assert AllAre(asked', id);
        if Accepts(budget) && replies != [] && replies[0].Ok? {
          assert replies[0].value.statementId == id;
          assert forall i :: 0 <= i < |replies[1..]| && replies[1..][i].Ok? ==> replies[1..][i].value.statementId == id by {
            forall i | 0 <= i < |replies[1..]| && replies[1..][i].Ok?
              ensures replies[1..][i].value.statementId == id
            {
              assert replies[1..][i] == replies[i + 1];
            }
          }
          PollAsksForStatement(v, max, meta, replies[0].value, replies[1..], Spend(budget), k + 1, events + [e], asked', id);
        }
    }
  }

  /** The token the current variant puts in its notifications. */
  function CurrentToken(meta: Option<Meta>): Json {
    if meta.Some? then meta.value.progressToken else JNumber(0.0)
  }

  /** The i-th notification reports progress i out of `max` and carries `token`. */
  predicate Numbered(events: seq<ProgressEvent>, max: nat, token: Json) {
    forall i :: 0 <= i < |events| ==> events[i].progress == Some(i) && events[i].total == Some(max) && events[i].token == token
  }

  /** In the current variant, the i-th notification reports progress i out of
      the attempt budget, and carries the request's progress token (0 when
      the request has no metadata). */
  lemma {:induction false} CurrentEventsNumbered(max: nat, meta: Option<Meta>, res: Response, replies: seq<Result<Response>>,
                                                 budget: Option<nat>, k: nat, events: seq<ProgressEvent>, asked: seq<string>)
    requires |events| == k && Numbered(events, max, CurrentToken(meta))
    ensures Numbered(PollFrom(Current, max, meta, res, replies, budget, k, events, asked).events, max, CurrentToken(meta))
    decreases max - k
  {
    if k < max && KeepPolling(Current, res.status) {
      var e := ProgressFor(Current, k, max, res.status.state, meta).value;
      assert Numbered(events + [e], max, CurrentToken(meta)) by {
        assert e.progress == Some(k) && e.total == Some(max) && e.token == CurrentToken(meta);
      }
      if Accepts(budget) && replies != [] && replies[0].Ok? {
        CurrentEventsNumbered(max, meta, replies[0].value, replies[1..], Spend(budget), k + 1, events + [e], asked + [res.statementId]);
      }
    }
  }

  /** In the legacy variant every notification is the fixed "still running"
      message with the request's progress token and no progress figures. */
  lemma {:induction false} LegacyEventsFixed(max: nat, meta: Option<Meta>, res: Response, replies: seq<Result<Response>>,
                                             budget: Option<nat>, k: nat, events: seq<ProgressEvent>, asked: seq<string>)
    requires events != [] ==>
      meta.Some? && forall i :: 0 <= i < |events| ==> events[i] == ProgressEvent(StillRunning, meta.value.progressToken, None, None)
    ensures var p := PollFrom(Legacy, max, meta, res, replies, budget, k, events, asked);
      p.events != [] ==>
        meta.Some? && forall i :: 0 <= i < |p.events| ==> p.events[i] == ProgressEvent(StillRunning, meta.value.progressToken, None, None)
    decreases max - k
  {
    if k >= max || !KeepPolling(Legacy, res.status) || meta.None? {
    } else {
      var e := ProgressFor(Legacy, k, max, res.status.state, meta).value;
      if Accepts(budget) && replies != [] && replies[0].Ok? {
        LegacyEventsFixed(max, meta, replies[0].value, replies[1..], Spend(budget), k + 1, events + [e], asked + [res.statementId]);
      }
    }
  }

  /** A statement that stays Pending for the whole attempt budget, with a
      client that takes every notification, ends the loop settled on a
      Pending response after exactly `max` fetches. */
  lemma {:induction false} PendingThroughBudget(v: Variant, max: nat, meta: Option<Meta>, res: Response, replies: seq<Result<Response>>,
                                                k: nat, events: seq<ProgressEvent>, asked: seq<string>)
    requires k <= max && |asked| == k
    requires res.status == Status(Pending, None)
    requires v == Legacy ==> meta.Some?
    requires max - k <= |replies|
    requires forall i :: 0 <= i < |replies| ==> replies[i].Ok? && replies[i].value.status == Status(Pending, None)
    ensures var p := PollFrom(v, max, meta, res, replies, None, k, events, asked);
      && p.end.Settled? && p.end.response.status == Status(Pending, None)
      && p.attempts == max && |p.asked| == max
    decreases max - k
  {
    if k < max {
      assert replies[0].Ok?;
      PendingThroughBudget(v, max, meta, replies[0].value, replies[1..], k + 1,
                           events + [ProgressFor(v, k, max, Pending, meta).value], asked + [res.statementId]);
    }
  }

  /* ---------------------------------------------------------------- */
  /* The chunk chain                                                    */
  /* ---------------------------------------------------------------- */

  /** The rows of the chunk at `idx`, none when it cannot be fetched. */
  function ChunkRows(store: seq<Result<Chunk>>, idx: int): seq<Row>
  {
    match ChunkAt(store, idx)
    case Ok(c) => c.rows
    case Err(_) => []
  }

  /** The rows of the chunks at `idxs`, in that order. */
  function RowsOf(store: seq<Result<Chunk>>, idxs: seq<int>): seq<Row>
  {
    if idxs == [] then [] else ChunkRows(store, idxs[0]) + RowsOf(store, idxs[1..])
  }

  /** `fetched` is linked from `idx`: it starts there, never asks for
      index 0, and each fetched chunk (but the last) points to the next one
      fetched. */
  ghost predicate Linked(store: seq<Result<Chunk>>, idx: int, fetched: seq<int>)
  {
    && (fetched != [] ==> fetched[0] == idx)
    && (forall i :: 0 <= i < |fetched| ==> fetched[i] != 0)
    && (forall i :: 0 <= i < |fetched| - 1 ==>
          ChunkAt(store, fetched[i]).Ok? && ChunkAt(store, fetched[i]).value.nextChunkIndex == fetched[i + 1])
  }

  /** The indices strictly ascend, so none is fetched twice. */
  ghost predicate Increasing(xs: seq<int>)
  {
    forall i, j :: 0 <= i < j < |xs| ==> xs[i] < xs[j]
  }

  /** `fetched` follows the chain from `idx`, in ascending order. */
  ghost predicate Follows(store: seq<Result<Chunk>>, idx: int, fetched: seq<int>)
  {
    Linked(store, idx, fetched) && Increasing(fetched)
  }

  /** In a store numbered in ascending order, a linked chain ascends. */
  lemma {:induction false} LinkedIncreasing(store: seq<Result<Chunk>>, idx: int, fetched: seq<int>)
    requires Ascending(store) && Linked(store, idx, fetched)
    ensures Increasing(fetched)
    decreases |fetched|
  {
    if |fetched| >= 2 {
      var n := |fetched|;
      var init := fetched[..n - 1];
      assert Linked(store, idx, init);
      LinkedIncreasing(store, idx, init);
      var k := fetched[n - 2];
      assert ChunkAt(store, k).Ok? && ChunkAt(store, k).value.nextChunkIndex == fetched[n - 1];
      assert 0 <= k < |store| && store[k] == ChunkAt(store, k);
      assert fetched[n - 2] < fetched[n - 1];
      forall i, j | 0 <= i < j < n
        ensures fetched[i] < fetched[j]
      {
        if j < n - 1 {
          assert init[i] < init[j];
        } else if i < n - 2 {
          assert init[i] < init[n - 2];
        }
      }
    }
  }

  /** Chunk assembly only appends to the indices fetched so far, and
      fetches nothing exactly when the next index is 0. */
  lemma {:induction false} ChainExtends(store: seq<Result<Chunk>>, idx: int, rows: seq<Row>, asked: seq<int>)
    requires Ascending(store)
    ensures var c := ChainFrom(store, idx, rows, asked);
      && |asked| <= |c.asked| && c.asked[..|asked|] == asked
      && (|c.asked| == |asked| <==> idx == 0)
      && (idx != 0 ==> c.asked[|asked|] == idx)
    decreases Remaining(store, idx)
  {
    var c := ChainFrom(store, idx, rows, asked);
    if idx != 0 && ChunkAt(store, idx).Ok? {
      var chunk := ChunkAt(store, idx).value;
      ChainExtends(store, chunk.nextChunkIndex, rows + chunk.rows, asked + [idx]);
      assert c.asked[..|asked|] == c.asked[..|asked| + 1][..|asked|];
    }
  }

  /** The indices fetched are linked from `idx`. */
  lemma {:induction false} ChainLinked(store: seq<Result<Chunk>>, idx: int, rows: seq<Row>, asked: seq<int>)
    requires Ascending(store)
    ensures var c := ChainFrom(store, idx, rows, asked);
      |asked| <= |c.asked| && Linked(store, idx, c.asked[|asked|..])
    decreases Remaining(store, idx)
  {
    var c := ChainFrom(store, idx, rows, asked);
    ChainExtends(store, idx, rows, asked);
    if idx != 0 && ChunkAt(store, idx).Ok? {
      var chunk := ChunkAt(store, idx).value;
      var next := chunk.nextChunkIndex;
      ChainLinked(store, next, rows + chunk.rows, asked + [idx]);
      ChainExtends(store, next, rows + chunk.rows, asked + [idx]);
      var rest := c.asked[|asked| + 1..];
      var fetched := c.asked[|asked|..];
      assert fetched == [idx] + rest;
      assert rest != [] ==> rest[0] == next;
      assert forall i :: 1 <= i < |fetched| ==> fetched[i] == rest[i - 1];
    }
  }

  /** The indices fetched follow the chain from `idx`. */
  lemma ChainFollows(store: seq<Result<Chunk>>, idx: int, rows: seq<Row>, asked: seq<int>)
    requires Ascending(store)
    ensures var c := ChainFrom(store, idx, rows, asked);
      |asked| <= |c.asked| && Follows(store, idx, c.asked[|asked|..])
  {
    var c := ChainFrom(store, idx, rows, asked);
    ChainLinked(store, idx, rows, asked);
    LinkedIncreasing(store, idx, c.asked[|asked|..]);
  }

  /** A successful assembly holds the rows so far followed by the rows of
      every fetched chunk in order, and stops at a chunk whose next index is
      0; a failed one carries the error of the last chunk fetched. */
  lemma {:induction false} ChainRows(store: seq<Result<Chunk>>, idx: int, rows: seq<Row>, asked: seq<int>)
    requires Ascending(store)
    ensures var c := ChainFrom(store, idx, rows, asked);
      && |asked| <= |c.asked|
      && var fetched := c.asked[|asked|..];
      && (c.rows.Ok? ==> c.rows.value == rows + RowsOf(store, fetched))
      && (c.rows.Ok? && fetched != [] ==>
            ChunkAt(store, fetched[|fetched| - 1]).Ok? && ChunkAt(store, fetched[|fetched| - 1]).value.nextChunkIndex == 0)
      && (c.rows.Err? ==> fetched != [] && ChunkAt(store, fetched[|fetched| - 1]) == Err(c.rows.cause))
    decreases Remaining(store, idx)
  {
    var c := ChainFrom(store, idx, rows, asked);
    ChainExtends(store, idx, rows, asked);
    if idx == 0 {
      assert c.asked[|asked|..] == [];
    } else {
      match ChunkAt(store, idx)
      case Err(cause) =>
        assert c.asked[|asked|..] == [idx];
      case Ok(chunk) =>
        var next := chunk.nextChunkIndex;
        ChainRows(store, next, rows + chunk.rows, asked + [idx]);
        ChainExtends(store, next, rows + chunk.rows, asked + [idx]);
        var rest := c.asked[|asked| + 1..];
        var fetched := c.asked[|asked|..];
        assert fetched == [idx] + rest;
        assert RowsOf(store, fetched) == chunk.rows + RowsOf(store, rest);
        if rest == [] {
          assert fetched == [idx];
        } else {
          assert fetched[|fetched| - 1] == rest[|rest| - 1];
        }
        if c.rows.Ok? {
          assert c.rows.value == (rows + chunk.rows) + RowsOf(store, rest);
        }
    }
  }

  /* ---------------------------------------------------------------- */
  /* Whole calls                                                        */
  /* ---------------------------------------------------------------- */

  /** The request carries the statement text as a string. */
  predicate HasStatement(request: CallToolRequest) {
    "statement" in request.arguments && request.arguments["statement"].JString?
  }

  /** Without a string statement the handler panics before it talks to the service. */
  lemma StatementRequired(v: Variant, request: CallToolRequest, remote: Remote, budget: Option<nat>)
    requires Ascending(remote.chunks)
    requires !HasStatement(request)
    ensures Execute(v, request, remote, budget) == Run(Panicked(StatementNotString), [], [], [], [], [], budget)
  {
  }

  /** The current handler's defaults: a 60-second timeout is six attempts,
      the row limit is 100 and the submission waits 5 seconds; timeouts under
      5 seconds allow no attempt at all. */
  lemma CurrentDefaults(request: CallToolRequest)
    ensures "max_wait_timeout" !in request.arguments && "row_limit" !in request.arguments ==>
      SettingsFor(Current, request) == Settings(6, 100, "5s")
    ensures ("max_wait_timeout" in request.arguments && request.arguments["max_wait_timeout"].JNumber? &&
             request.arguments["max_wait_timeout"].x < 5.0) ==> SettingsFor(Current, request).maxAttempts == 0
  {
    assert MaxAttempts(60.0) == 6;
  }

  /** A failed listing or an empty one ends the call with an error result
      before anything is submitted. */
  lemma NoWarehouseNoSubmission(v: Variant, request: CallToolRequest, remote: Remote, budget: Option<nat>)
    requires Ascending(remote.chunks)
    requires HasStatement(request)
    requires remote.warehouses.Err? || remote.warehouses == Ok([])
    ensures var run := Execute(v, request, remote, budget);
      && run.submitted == [] && run.events == [] && run.statusAsked == [] && run.chunksAsked == [] && run.cancelled == []
      && run.outcome.Done? && run.outcome.value.ErrorResult?
      && (remote.warehouses.Err? ==> run.outcome.value == ErrorResult(ListWarehousesError, Some(remote.warehouses.cause)))
      && (remote.warehouses.Ok? ==> run.outcome.value == ErrorResult(NoWarehouses, None))
  {
  }

  /** With warehouses available exactly one submission is made: the request's
      statement, on the first warehouse listed, with the variant's row limit
      and wait. */
  lemma FirstWarehouseUsed(v: Variant, request: CallToolRequest, remote: Remote, budget: Option<nat>)
    requires Ascending(remote.chunks)
    requires HasStatement(request)
    requires remote.warehouses.Ok? && remote.warehouses.value != []
    ensures var run := Execute(v, request, remote, budget);
      var settings := SettingsFor(v, request);
      run.submitted == [SubmitRequest(request.arguments["statement"].s, settings.rowLimit, settings.waitTimeout,
                                      remote.warehouses.value[0].id)]
    ensures v == Legacy ==> SettingsFor(v, request) == Settings(5, 100, "10s")
  {
  }

  /** Every call makes at most the attempt budget's number of status
      fetches, each one preceded by a delivered notification; the legacy
      handler therefore fetches at most five times. */
  lemma PollBudget(v: Variant, request: CallToolRequest, remote: Remote, budget: Option<nat>)
    requires Ascending(remote.chunks)
    ensures var run := Execute(v, request, remote, budget);
      && |run.events| == |run.statusAsked| <= SettingsFor(v, request).maxAttempts
      && (v == Legacy ==> |run.statusAsked| <= 5)
  {
    if HasStatement(request) && remote.warehouses.Ok? && remote.warehouses.value != [] && remote.submit.Ok? {
      PollShape(v, SettingsFor(v, request).maxAttempts, request.meta, remote.submit.value, remote.statuses, budget, 0, [], []);
    }
  }

  /** A statement already settled when submitted (for the current handler:
      succeeded or failed with an error; for the legacy one: anything but
      Pending, Running included) is not polled at all. */
  lemma SettledAtSubmissionNotPolled(v: Variant, request: CallToolRequest, remote: Remote, budget: Option<nat>)
    requires Ascending(remote.chunks)
    requires remote.submit.Ok? && !KeepPolling(v, remote.submit.value.status)
    ensures var run := Execute(v, request, remote, budget);
      run.events == [] && run.statusAsked == [] && run.budget == budget
  {
  }

  /** The legacy handler treats a Running statement as finished: it reports
      the state as an error at once, without polling or cancelling. */
  lemma LegacyRunningExitsAtOnce(request: CallToolRequest, remote: Remote, budget: Option<nat>)
    requires Ascending(remote.chunks)
    requires HasStatement(request) && remote.warehouses.Ok? && remote.warehouses.value != []
    requires remote.submit.Ok? && remote.submit.value.status == Status(Running, None)
    ensures var run := Execute(Legacy, request, remote, budget);
      && run.outcome == Done(ErrorResult(StatementError(Running), None))
      && run.statusAsked == [] && run.cancelled == [] && run.chunksAsked == []
  {
  }

  /** In the current handler the i-th notification reports attempt i of the
      attempt budget. */
  lemma CurrentProgressNumbered(request: CallToolRequest, remote: Remote, budget: Option<nat>)
    requires Ascending(remote.chunks)
    ensures Numbered(Execute(Current, request, remote, budget).events, SettingsFor(Current, request).maxAttempts, CurrentToken(request.meta))
  {
    if HasStatement(request) && remote.warehouses.Ok? && remote.warehouses.value != [] && remote.submit.Ok? {
      CurrentEventsNumbered(SettingsFor(Current, request).maxAttempts, request.meta, remote.submit.value, remote.statuses,
                            budget, 0, [], []);
    }
  }

  /** Every status fetch of a call is for the statement it submitted,
      given a service that keeps the statement id across replies. */
  lemma StatusFetchesForSubmitted(v: Variant, request: CallToolRequest, remote: Remote, budget: Option<nat>, first: Response)
    requires Ascending(remote.chunks)
    requires remote.submit == Ok(first)
    requires forall i :: 0 <= i < |remote.statuses| && remote.statuses[i].Ok? ==> remote.statuses[i].value.statementId == first.statementId
    ensures AllAre(Execute(v, request, remote, budget).statusAsked, first.statementId)
  {
    PollAsksForStatement(v, SettingsFor(v, request).maxAttempts, request.meta, first, remote.statuses, budget, 0, [], [], first.statementId);
  }

  /** Only the legacy handler panics for want of request metadata, and only
      once it has to notify. */
  lemma MetadataPanicOnlyLegacy(v: Variant, request: CallToolRequest, remote: Remote, budget: Option<nat>)
    requires Ascending(remote.chunks)
    ensures var run := Execute(v, request, remote, budget);
      run.outcome == Panicked(NilMeta) ==> v == Legacy && request.meta.None? && run.events == []
  {
    if HasStatement(request) && remote.warehouses.Ok? && remote.warehouses.value != [] && remote.submit.Ok? {
      PollShape(v, SettingsFor(v, request).maxAttempts, request.meta, remote.submit.value, remote.statuses, budget, 0, [], []);
    }
  }

  /** A notification the client does not take ends the call with that Go
      error: the status is not fetched again, nothing is cancelled and no
      chunk is fetched. */
  lemma NotifyFailureStops(v: Variant, request: CallToolRequest, remote: Remote, budget: Option<nat>)
    requires Ascending(remote.chunks)
    ensures var run := Execute(v, request, remote, budget);
      run.outcome.Errored? ==>
        && run.outcome.cause == NotDelivered && run.budget == Some(0)
        && run.chunksAsked == [] && run.cancelled == []
        && |run.statusAsked| == |run.events| < SettingsFor(v, request).maxAttempts
  {
    if HasStatement(request) && remote.warehouses.Ok? && remote.warehouses.value != [] && remote.submit.Ok? {
      PollShape(v, SettingsFor(v, request).maxAttempts, request.meta, remote.submit.value, remote.statuses, budget, 0, [], []);
      NotifyEndsOnSpentBudget(v, SettingsFor(v, request).maxAttempts, request.meta, remote.submit.value, remote.statuses, budget, 0, [], []);
    }
  }

  /** The poll loop fails to notify only once the client's budget is spent. */
  lemma {:induction false} NotifyEndsOnSpentBudget(v: Variant, max: nat, meta: Option<Meta>, res: Response, replies: seq<Result<Response>>,
                                                   budget: Option<nat>, k: nat, events: seq<ProgressEvent>, asked: seq<string>)
    ensures var p := PollFrom(v, max, meta, res, replies, budget, k, events, asked);
      p.end.NotifyFailed? ==> p.budget == Some(0)
    decreases max - k
  {
    if k >= max || !KeepPolling(v, res.status) {
    } else {
      match ProgressFor(v, k, max, res.status.state, meta)
      case None =>
      case Some(e) =>
        if Accepts(budget) && replies != [] && replies[0].Ok? {
          NotifyEndsOnSpentBudget(v, max, meta, replies[0].value, replies[1..], Spend(budget), k + 1, events + [e], asked + [res.statementId]);
        }
    }
  }

  /** A failed status fetch ends the call with an error result carrying the
      fetch's error; nothing is cancelled and no chunk is fetched. */
  lemma StatusFetchFailureReported(v: Variant, request: CallToolRequest, remote: Remote, budget: Option<nat>, first: Response)
    requires Ascending(remote.chunks)
    requires HasStatement(request) && remote.warehouses.Ok? && remote.warehouses.value != [] && remote.submit == Ok(first)
    requires PollOf(v, request, first, remote.statuses, budget).end.FetchFailed?
    ensures var run := Execute(v, request, remote, budget);
      && run.outcome == Done(ErrorResult(StatusError, Some(PollOf(v, request, first, remote.statuses, budget).end.cause)))
      && run.cancelled == [] && run.chunksAsked == [] && run.statusAsked != []
  {
    PollShape(v, SettingsFor(v, request).maxAttempts, request.meta, first, remote.statuses, budget, 0, [], []);
  }

  /** The exit handling once the loop settles on `res`: a status error is
      reported with its message and nothing is cancelled; an unfinished
      statement is reported by its state and, by the current handler only,
      cancelled exactly once, which happens only when the whole attempt
      budget was used. */
  lemma SettledExit(v: Variant, request: CallToolRequest, remote: Remote, budget: Option<nat>, first: Response, res: Response)
    requires Ascending(remote.chunks)
    requires HasStatement(request) && remote.warehouses.Ok? && remote.warehouses.value != [] && remote.submit == Ok(first)
    requires PollOf(v, request, first, remote.statuses, budget).end == Settled(res)
    ensures var run := Execute(v, request, remote, budget);
      && (res.status.error.Some? ==>
            run.outcome == Done(ErrorResult(StatementError(res.status.state), Some(res.status.error.value)))
            && run.cancelled == [] && run.chunksAsked == [])
      && (res.status.error.None? && res.status.state != Succeeded ==>
            && run.chunksAsked == []
            && (v == Current ==>
                  && run.cancelled == [res.statementId]
                  && run.outcome == Done(ErrorResult(CanceledError(res.status.state), None))
                  && |run.statusAsked| == SettingsFor(v, request).maxAttempts)
            && (v == Legacy ==>
                  && run.cancelled == []
                  && run.outcome == Done(ErrorResult(StatementError(res.status.state), None))))
      && (res.status == Status(Succeeded, None) ==> run.cancelled == [])
  {
    PollShape(v, SettingsFor(v, request).maxAttempts, request.meta, first, remote.statuses, budget, 0, [], []);
  }

  /** The current handler cancels at most once, and a cancellation always
      comes with an error result and a spent attempt budget. */
  lemma CancelOnlyOnTimeout(request: CallToolRequest, remote: Remote, budget: Option<nat>)
    requires Ascending(remote.chunks)
    ensures var run := Execute(Current, request, remote, budget);
      && |run.cancelled| <= 1
      && (run.cancelled != [] ==>
            && run.outcome.Done? && run.outcome.value.ErrorResult? && run.outcome.value.cause.None?
            && |run.statusAsked| == SettingsFor(Current, request).maxAttempts && run.chunksAsked == [])
  {
    if HasStatement(request) && remote.warehouses.Ok? && remote.warehouses.value != [] && remote.submit.Ok? {
      var p := PollOf(Current, request, remote.submit.value, remote.statuses, budget);
      if p.end.Settled? {
        SettledExit(Current, request, remote, budget, remote.submit.value, p.end.response);
      }
    }
  }

  /** The legacy handler never cancels a statement. */
  lemma LegacyNeverCancels(request: CallToolRequest, remote: Remote, budget: Option<nat>)
    requires Ascending(remote.chunks)
    ensures Execute(Legacy, request, remote, budget).cancelled == []
  {
  }

  /** A statement that stays Pending through the whole attempt budget, with
      a client that takes every notification, makes the current handler
      fetch the status `maxAttempts` times and then cancel it exactly once,
      reporting the timeout. */
  lemma PendingTimesOut(request: CallToolRequest, remote: Remote, w: seq<Warehouse>, first: Response)
    requires Ascending(remote.chunks)
    requires HasStatement(request) && remote.warehouses == Ok(w) && w != [] && remote.submit == Ok(first)
    requires first.status == Status(Pending, None)
    requires SettingsFor(Current, request).maxAttempts <= |remote.statuses|
    requires forall i :: 0 <= i < |remote.statuses| ==>
      remote.statuses[i].Ok? && remote.statuses[i].value.status == Status(Pending, None)
    ensures var run := Execute(Current, request, remote, None);
      && |run.statusAsked| == |run.events| == SettingsFor(Current, request).maxAttempts
      && |run.cancelled| == 1 && run.chunksAsked == []
      && run.outcome == Done(ErrorResult(CanceledError(Pending), None))
  {
    var max := SettingsFor(Current, request).maxAttempts;
    PendingThroughBudget(Current, max, request.meta, first, remote.statuses, 0, [], []);
    PollShape(Current, max, request.meta, first, remote.statuses, None, 0, [], []);
    var p := PollOf(Current, request, first, remote.statuses, None);
    SettledExit(Current, request, remote, None, first, p.end.response);
  }

  /** A statement that succeeded: its rows are the embedded first chunk's
      rows followed by those of every chunk fetched, in order; the fetches
      follow the chain from the first chunk's next index, all for this
      statement; a failed fetch is reported with its error. Only the current
      handler names the warehouse. Nothing is cancelled. */
  lemma SucceededRowsFollowChain(v: Variant, request: CallToolRequest, remote: Remote, budget: Option<nat>, first: Response, res: Response)
    requires Ascending(remote.chunks)
    requires HasStatement(request) && remote.warehouses.Ok? && remote.warehouses.value != [] && remote.submit == Ok(first)
    requires PollOf(v, request, first, remote.statuses, budget).end == Settled(res)
    requires res.status == Status(Succeeded, None)
    ensures var run := Execute(v, request, remote, budget);
      var fetched := seq(|run.chunksAsked|, i requires 0 <= i < |run.chunksAsked| => run.chunksAsked[i].chunkIndex);
      && run.chunksAsked == ChunkRequests(res.statementId, fetched)
      && Follows(remote.chunks, res.result.nextChunkIndex, fetched)
      && (fetched == [] <==> res.result.nextChunkIndex == 0)
      && run.cancelled == []
      && run.outcome.Done?
      && (run.outcome.value.TextResult? ==>
            run.outcome.value.payload == SqlRows(res.columns, res.result.rows + RowsOf(remote.chunks, fetched),
                                                 if v == Current then Some(remote.warehouses.value[0]) else None))
      && (run.outcome.value.ErrorResult? ==>
            run.outcome.value.text == ChunkError && fetched != [] &&
            ChunkAt(remote.chunks, fetched[|fetched| - 1]) == Err(run.outcome.value.cause.value))
  {
    var c := ChainFrom(remote.chunks, res.result.nextChunkIndex, res.result.rows, []);
    ChainExtends(remote.chunks, res.result.nextChunkIndex, res.result.rows, []);
    ChainFollows(remote.chunks, res.result.nextChunkIndex, res.result.rows, []);
    ChainRows(remote.chunks, res.result.nextChunkIndex, res.result.rows, []);
    var run := Execute(v, request, remote, budget);
    assert run.chunksAsked == ChunkRequests(res.statementId, c.asked);
    var fetched := seq(|run.chunksAsked|, i requires 0 <= i < |run.chunksAsked| => run.chunksAsked[i].chunkIndex);
    assert fetched == c.asked;
    assert c.asked[0..] == c.asked;
  }

  /** A small example: a statement Pending at submission, Pending at the
      first fetch and Succeeded at the second, whose result spans the
      embedded chunk and chunk 1, gives two progress notifications and the
      rows of both chunks, with nothing cancelled. */
  lemma PendingPendingSucceeded(request: CallToolRequest, w: Warehouse, id: string, columns: seq<Column>, rows0: seq<Row>, rows1: seq<Row>)
    requires request.arguments == map["statement" := JString("SELECT * FROM t")]
    ensures var pending := Response(id, Status(Pending, None), columns, Chunk([], 0));
      var done := Response(id, Status(Succeeded, None), columns, Chunk(rows0, 1));
      var remote := Remote(Ok([w]), Ok(pending), [Ok(pending), Ok(done)], [Err(NoSuchChunk), Ok(Chunk(rows1, 0))]);
      Ascending(remote.chunks) &&
      var run := Execute(Current, request, remote, None);
      && |run.events| == 2 && run.statusAsked == [id, id]
      && run.chunksAsked == [ChunkRequest(id, 1)] && run.cancelled == []
      && run.outcome == Done(TextResult(SqlRows(columns, rows0 + rows1, Some(w))))
  {
    var pending := Response(id, Status(Pending, None), columns, Chunk([], 0));
    var done := Response(id, Status(Succeeded, None), columns, Chunk(rows0, 1));
    var remote := Remote(Ok([w]), Ok(pending), [Ok(pending), Ok(done)], [Err(NoSuchChunk), Ok(Chunk(rows1, 0))]);
    assert SettingsFor(Current, request).maxAttempts == 6 by {
      assert MaxAttempts(60.0) == 6;
    }
    assert ChainFrom(remote.chunks, 1, rows0, []) == Chained(Ok(rows0 + rows1), [1]);
    assert ChunkRequests(id, [1]) == [ChunkRequest(id, 1)];
  }
}
