/** The statement-execution side of the Databricks SDK as the handlers use
    it: the statement states and the shapes of responses and result chunks,
    and the remote service itself, modelled as an oracle. The oracle's
    answers are fixed in advance (the warehouse listing, the submission
    reply, a script of replies for successive status fetches, and the chunk
    store by index); the service also records every request it receives, so
    that what the handlers send can be stated. */
module Sql {
  import opened Base

  /** `sql.StatementState`. */
  datatype State = Pending | Running | Succeeded | Failed | Canceled | Closed

  /** The state's text, as it appears in messages. */
  function StateName(s: State): string
  {
    match s
    case Pending => "PENDING"
    case Running => "RUNNING"
    case Succeeded => "SUCCEEDED"
    case Failed => "FAILED"
    case Canceled => "CANCELED"
    case Closed => "CLOSED"
  }

  /** A statement's status: its state and, when the service reports one, an error message. */
  datatype Status = Status(state: State, error: Option<string>)

  type Row = seq<string>

  datatype Column = Column(name: string, typeName: string)

  /** A chunk of rows; `nextChunkIndex` 0 means there are no more chunks. */
  datatype Chunk = Chunk(rows: seq<Row>, nextChunkIndex: int)

  /** A statement response: its id, status, column manifest and the first chunk of its result. */
  datatype Response = Response(statementId: string, status: Status, columns: seq<Column>, result: Chunk)

  datatype Warehouse = Warehouse(id: string, name: string)

  /** The parameters of `ExecuteStatement`. */
  datatype SubmitRequest = SubmitRequest(statement: string, rowLimit: int, waitTimeout: string, warehouseId: string)

  /** The parameters of `GetStatementResultChunkN`. */
  datatype ChunkRequest = ChunkRequest(statementId: string, chunkIndex: int)

  /** The service's answers, as a value. */
  datatype Remote = Remote(
    warehouses: Result<seq<Warehouse>>,
    submit: Result<Response>,
    statuses: seq<Result<Response>>,
    chunks: seq<Result<Chunk>>)

  const NoReply := "no reply from the statement service"
  const NoSuchChunk := "no such result chunk"

  /** What is left of a script of replies after `n` calls. */
  function Drop<T>(s: seq<T>, n: nat): (r: seq<T>)
    ensures n <= |s| ==> r == s[n..]
    ensures |s| < n ==> r == []
  {
    if n <= |s| then s[n..] else []
  }

  /** Appending in two steps. */
  lemma AppendAfterAppend<T>(s: seq<T>, a: seq<T>, b: seq<T>)
    ensures s + a + b == s + (a + b)
  {
  }

  /** Dropping `m` elements after `n`. */
  lemma DropAfterDrop<T>(s: seq<T>, n: nat, m: nat)
    ensures Drop(Drop(s, n), m) == Drop(s, n + m)
  {
  }

  /** The reply to a fetch of chunk `idx` from a store that holds the
      replies for indices 0 to |store| - 1; other indices do not exist. */
  function ChunkAt(store: seq<Result<Chunk>>, idx: int): (r: Result<Chunk>)
    ensures 0 <= idx < |store| ==> r == store[idx]
    ensures !(0 <= idx < |store|) ==> r == Err(NoSuchChunk)
  {
    if 0 <= idx < |store| then store[idx] else Err(NoSuchChunk)
  }

  /** The Statement Execution API numbers a result's chunks in ascending
      order: a stored chunk points to 0 or to a later index. */
  ghost predicate Ascending(store: seq<Result<Chunk>>)
  {
    forall k :: 0 <= k < |store| && store[k].Ok? ==> store[k].value.nextChunkIndex == 0 || k < store[k].value.nextChunkIndex
  }

  class StatementService {
    const warehouses: Result<seq<Warehouse>>
    const submitReply: Result<Response>
    var statusReplies: seq<Result<Response>>
    const chunkStore: seq<Result<Chunk>>

    var submitted: seq<SubmitRequest>
    var statusRequests: seq<string>
    var chunkRequests: seq<ChunkRequest>
    var cancelled: seq<string>

    constructor (remote: Remote)
      ensures Answers() == remote
      ensures submitted == [] && statusRequests == [] && chunkRequests == [] && cancelled == []
    {
      warehouses := remote.warehouses;
      submitReply := remote.submit;
      statusReplies := remote.statuses;
      chunkStore := remote.chunks;
      submitted, statusRequests, chunkRequests, cancelled := [], [], [], [];
    }

    /** The answers the service has still to give. */
    function Answers(): Remote
      reads this
    {
      Remote(warehouses, submitReply, statusReplies, chunkStore)
    }

    /** `Warehouses.ListAll`. */
    method ListWarehouses() returns (r: Result<seq<Warehouse>>)
      ensures r == warehouses
    {
      r := warehouses;
    }

    /** `StatementExecution.ExecuteStatement`. */
    method ExecuteStatement(request: SubmitRequest) returns (r: Result<Response>)
      modifies this
      ensures r == submitReply
      ensures submitted == old(submitted) + [request]
      ensures statusReplies == old(statusReplies) && statusRequests == old(statusRequests)
      ensures chunkRequests == old(chunkRequests) && cancelled == old(cancelled)
    {
      r := submitReply;
      submitted := submitted + [request];
    }

    /** `StatementExecution.GetStatementByStatementId`: the next scripted
        reply; once the script is spent, the call fails. */
    method GetStatementByStatementId(id: string) returns (r: Result<Response>)
      modifies this
      ensures r == if old(statusReplies) == [] then Err(NoReply) else old(statusReplies)[0]
      ensures statusReplies == Drop(old(statusReplies), 1)
      ensures statusRequests == old(statusRequests) + [id]
      ensures submitted == old(submitted) && chunkRequests == old(chunkRequests) && cancelled == old(cancelled)
    {
      statusRequests := statusRequests + [id];
      if statusReplies == [] {
        r := Err(NoReply);
      } else {
        r := statusReplies[0];
        statusReplies := statusReplies[1..];
      }
    }

    /** `StatementExecution.GetStatementResultChunkN`: the stored chunk, or an error for an unknown index. */
    method GetStatementResultChunkN(request: ChunkRequest) returns (r: Result<Chunk>)
      modifies this
      ensures r == ChunkAt(chunkStore, request.chunkIndex)
      ensures chunkRequests == old(chunkRequests) + [request]
      ensures submitted == old(submitted) && statusReplies == old(statusReplies)
      ensures statusRequests == old(statusRequests) && cancelled == old(cancelled)
    {
      chunkRequests := chunkRequests + [request];
      r := ChunkAt(chunkStore, request.chunkIndex);
    }

    /** `StatementExecution.CancelExecution`; its error is ignored by every caller. */
    method CancelExecution(id: string)
      modifies this
      ensures cancelled == old(cancelled) + [id]
      ensures submitted == old(submitted) && statusReplies == old(statusReplies)
      ensures statusRequests == old(statusRequests) && chunkRequests == old(chunkRequests)
    {
      cancelled := cancelled + [id];
    }
  }
}
