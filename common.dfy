/** Helpers shared by the tool handlers (tools/common.go): typed argument
    lookups with defaults, the wrapper that turns an operation into a tool
    handler, the workspace client carried in a context, and the progress
    notification guard. */
module Common {
  import opened Base
  import opened Mcp

  /** Go's `int(f)` for a float64 in range: truncation toward zero. */
  function Truncate(x: real): (n: int)
    ensures 0.0 <= x ==> n as real <= x < n as real + 1.0
    ensures x < 0.0 ==> n as real - 1.0 < x <= n as real
  {
    if x >= 0.0 then x.Floor else -((-x).Floor)
  }

  /** The string argument `name`, or `default` when it is absent or not a string. */
  function ExtractStringParam(request: CallToolRequest, name: string, default: string): (v: string)
    ensures name in request.arguments && request.arguments[name].JString? ==> v == request.arguments[name].s
    ensures !(name in request.arguments && request.arguments[name].JString?) ==> v == default
  {
    match Field(request.arguments, name)
    case JString(s) => s
    case _ => default
  }

  /** The boolean argument `name`, or `default` when it is absent or not a boolean. */
  function ExtractBoolParam(request: CallToolRequest, name: string, default: bool): (v: bool)
    ensures name in request.arguments && request.arguments[name].JBool? ==> v == request.arguments[name].b
    ensures !(name in request.arguments && request.arguments[name].JBool?) ==> v == default
  {
    match Field(request.arguments, name)
    case JBool(b) => b
    case _ => default
  }

  /** The numeric argument `name` truncated toward zero (JSON numbers arrive
      as float64), or `default` when it is absent or not a number. */
  function ExtractIntParam(request: CallToolRequest, name: string, default: int): (v: int)
    ensures name in request.arguments && request.arguments[name].JNumber? ==>
      var x := request.arguments[name].x;
      (0.0 <= x ==> v as real <= x < v as real + 1.0) && (x < 0.0 ==> v as real - 1.0 < x <= v as real)
    ensures !(name in request.arguments && request.arguments[name].JNumber?) ==> v == default
  {
    match Field(request.arguments, name)
    case JNumber(x) => Truncate(x)
    case _ => default
  }

  /** The numeric argument `name`, or `default` when it is absent or not a number. */
  function ExtractFloatParam(request: CallToolRequest, name: string, default: real): (v: real)
    ensures name in request.arguments && request.arguments[name].JNumber? ==> v == request.arguments[name].x
    ensures !(name in request.arguments && request.arguments[name].JNumber?) ==> v == default
  {
    match Field(request.arguments, name)
    case JNumber(x) => x
    case _ => default
  }

  const OperationError := "Error executing operation"

  /** Wraps an operation (its answer for each request) into a tool handler.
      The handler never returns a Go error: a failed operation becomes an
      error result that carries the operation's error, a successful one a
      text result carrying the marshalled value. */
  function ExecuteOperation(operation: CallToolRequest -> Result<Json>): (handler: CallToolRequest -> Outcome<ToolResult<Json>>)
    ensures forall request :: handler(request).Done?
    ensures forall request :: operation(request).Err? ==>
      handler(request) == Done(ErrorResult(OperationError, Some(operation(request).cause)))
    ensures forall request :: operation(request).Ok? ==>
      handler(request) == Done(TextResult(operation(request).value))
  {
    request =>
      match operation(request)
      case Err(cause) => Done(ErrorResult(OperationError, Some(cause)))
      case Ok(v) => Done(TextResult(v))
  }

  /** A `*databricks.WorkspaceClient`, known by its identity. */
  datatype WorkspaceClient = WorkspaceClient(id: nat)

  /** Context keys: the package's own `workspaceClientKey`, the library's
      server key, and keys of other packages (distinct types never collide). */
  datatype ContextKey = WorkspaceClientKey | ServerKey | ForeignKey(name: string)

  /** Values stored in a context; `None` stands for a typed nil pointer. */
  datatype ContextValue =
    | ClientValue(client: Option<WorkspaceClient>)
    | ServerValue(server: Option<ProgressSink>)
    | ForeignValue(v: Json)

  /** A `context.Context`: the background context or a parent with one more value. */
  datatype Context = Background | WithValue(parent: Context, key: ContextKey, value: ContextValue)

  /** `ctx.Value(key)`: the value of the innermost binding of `key`. */
  function Value(ctx: Context, key: ContextKey): Option<ContextValue>
  {
    match ctx
    case Background => None
    case WithValue(parent, k, v) => if k == key then Some(v) else Value(parent, key)
  }

  /** The bindings of a context, outermost first. */
  function Bindings(ctx: Context): seq<(ContextKey, ContextValue)>
  {
    match ctx
    case Background => []
    case WithValue(parent, k, v) => Bindings(parent) + [(k, v)]
  }

  /** `Value` finds exactly the latest binding of the key, and nothing when
      the key was never bound. */
  lemma {:induction false} ValueIsLatestBinding(ctx: Context, key: ContextKey)
    ensures Value(ctx, key).None? <==> forall i :: 0 <= i < |Bindings(ctx)| ==> Bindings(ctx)[i].0 != key
    ensures Value(ctx, key).Some? ==>
      exists i :: 0 <= i < |Bindings(ctx)| && Bindings(ctx)[i] == (key, Value(ctx, key).value) &&
        forall j :: i < j < |Bindings(ctx)| ==> Bindings(ctx)[j].0 != key
  {
    match ctx
    case Background =>
    case WithValue(parent, k, v) =>
      ValueIsLatestBinding(parent, key);
      var b := Bindings(ctx);
      assert b == Bindings(parent) + [(k, v)];
      if k == key {
        var last := |b| - 1;
        assert b[last] == (key, v);
        assert Bindings(ctx)[last].0 == key;
      } else if Value(parent, key).Some? {
        var i :| 0 <= i < |Bindings(parent)| && Bindings(parent)[i] == (key, Value(parent, key).value) &&
          forall j :: i < j < |Bindings(parent)| ==> Bindings(parent)[j].0 != key;
        assert b[i] == Bindings(parent)[i];
      }
  }

  /** A new context carrying the workspace client `w`. Reading it back
      yields `w`; a nil client reads back as "not found". */
  function WithWorkspaceClient(ctx: Context, w: Option<WorkspaceClient>): (c: Context)
    ensures w.Some? ==> WorkspaceClientFromContext(c) == Ok(w.value)
    ensures w.None? ==> WorkspaceClientFromContext(c).Err?
    ensures forall key :: key != WorkspaceClientKey ==> Value(c, key) == Value(ctx, key)
  {
    WithValue(ctx, WorkspaceClientKey, ClientValue(w))
  }

  const ClientNotFound := "workspace client not found in context"

  /** The workspace client stored in `ctx`, or an error when none is stored or it is nil. */
  function WorkspaceClientFromContext(ctx: Context): (r: Result<WorkspaceClient>)
    ensures r.Ok? <==> Value(ctx, WorkspaceClientKey).Some? && Value(ctx, WorkspaceClientKey).value.ClientValue?
                       && Value(ctx, WorkspaceClientKey).value.client.Some?
    ensures r.Ok? ==> Value(ctx, WorkspaceClientKey) == Some(ClientValue(Some(r.value)))
    ensures r.Err? ==> r.cause == ClientNotFound
  {
    match Value(ctx, WorkspaceClientKey)
    case Some(ClientValue(Some(w))) => Ok(w)
    case _ => Err(ClientNotFound)
  }

  /** Values stored under other keys never hide or replace the workspace client. */
  lemma ForeignValuesDoNotHideClient(ctx: Context, key: ContextKey, v: ContextValue)
    requires key != WorkspaceClientKey
    ensures WorkspaceClientFromContext(WithValue(ctx, key, v)) == WorkspaceClientFromContext(ctx)
  {
  }

  /** `server.ServerFromContext`: the server stored in `ctx`, if any. */
  function ServerFromContext(ctx: Context): Option<ProgressSink>
  {
    match Value(ctx, ServerKey)
    case Some(ServerValue(Some(s))) => Some(s)
    case _ => None
  }

  /** The objects a notification through `ctx` may change. */
  function ServerFootprint(ctx: Context): set<object>
  {
    match ServerFromContext(ctx)
    case Some(s) => {s}
    case None => {}
  }

  const ServerNotFound := "server not found in context"
  const NotDelivered := "notification could not be delivered to the client"

  /** Sends one progress notification (token 0) through the server found in
      `ctx`; fails without sending when no server is there, and fails when
      the client does not take the notification. */
  method SendProgressNotification(ctx: Context, message: string, progress: int, total: int) returns (err: Option<string>)
    modifies ServerFootprint(ctx)
    ensures ServerFromContext(ctx).None? ==> err == Some(ServerNotFound)
    ensures ServerFromContext(ctx).Some? ==>
      var s := ServerFromContext(ctx).value;
      && old(allocated(s))
      && (err.None? <==> Accepts(old(s.budget)))
      && (err.Some? ==> err == Some(NotDelivered) && s.delivered == old(s.delivered))
      && (err.None? ==> s.delivered == old(s.delivered) + [ProgressEvent(message, JNumber(0.0), Some(progress), Some(total))])
  {
    var server := ServerFromContext(ctx);
    if server.None? {
      return Some(ServerNotFound);
    }
    var ok := server.value.Notify(ProgressEvent(message, JNumber(0.0), Some(progress), Some(total)));
    err := if ok then None else Some(NotDelivered);
  }
}
