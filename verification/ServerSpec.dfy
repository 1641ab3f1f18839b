/**
  What the operations of the MCP server mean, one at a time: the store of human answers, the registry of tools
  with their health, and the result of an executed tool. The server object and the lock-level system are both
  stated with these.
 */
module ServerSpec {
  import opened Wrappers

  /** A protobuf `Value`, of which only the object kind is told apart. */
  datatype Value = Scalar(text: string) | Struct(fields: map<string, Value>)

  // ---- Human answers ----

  /** A `GetHumanInputResponse`. */
  datatype Answer = Answer(status: string, response: Option<Value>)

  const PENDING := Answer("pending", None)

  function Completed(v: Value): Answer {
    Answer("completed", Some(v))
  }

  datatype StoreOp = Provide(id: string, value: Value) | Get(id: string)

  datatype StoreResult = InvalidArgument | Received | Found(answer: Answer)

  /** The effect of one operation on the store of answers. */
  function StoreAfter(m: map<string, Answer>, op: StoreOp): map<string, Answer> {
    if op.Provide? && op.id != "" then m[op.id := Completed(op.value)] else m
  }

  function StoreReturns(m: map<string, Answer>, op: StoreOp): StoreResult {
    if op.id == "" then InvalidArgument
    else if op.Provide? then Received
    else if op.id in m then Found(m[op.id])
    else Found(PENDING)
  }

  // ---- Health ----

  /** Statuses of the gRPC Health Checking Protocol. */
  datatype Status = UNKNOWN | SERVING | NOT_SERVING | SERVICE_UNKNOWN

  /** The outcome of one health check RPC. */
  datatype Reply = Failed | Replied(status: Status)

  function StatusAfter(r: Reply): Status {
    match r
    case Failed => NOT_SERVING
    case Replied(st) => st
  }

  /** The statuses once the tools in `replies` have been checked. */
  function Swept(m: map<string, Status>, replies: map<string, Reply>): (r: map<string, Status>)
    ensures r.Keys == m.Keys
  {
    map n | n in m :: if n in replies then StatusAfter(replies[n]) else m[n]
  }

  function Serving(m: map<string, Status>): set<string> {
    set n | n in m && m[n] == SERVING
  }

  // ---- Tools ----

  /** A `ToolDescription`, of which the name is used. */
  datatype Description = Description(name: string, text: string)

  ghost predicate NoRepeats<T>(xs: seq<T>) {
    forall i, j | 0 <= i < j < |xs| :: xs[i] != xs[j]
  }

  lemma NoRepeatsStep<T>(xs: seq<T>, x: T)
    requires NoRepeats(xs) && x !in xs
    ensures NoRepeats(xs + [x])
  {
  }

  /** `ds` lists the descriptions of the tools that `m` says are serving, each once, in some order. */
  ghost predicate ListsServing(ds: seq<Description>, m: map<string, Status>, registered: map<string, Description>) {
    && NoRepeats(ds)
    && forall d :: d in ds <==> d.name in Serving(m) && d.name in registered && registered[d.name] == d
  }

  /** A call of a tool's Run: the connection it goes to, and the request. */
  datatype RunCall = RunCall(conn: nat, name: string, args: Value)

  /** What a Run call comes back with. */
  datatype RunReply = RpcFailed | Response(error: string, result: Value)

  datatype ExecuteResult =
    | NotFound
    | Internal
    | Aborted(error: string)
    | Executed(taskId: string, result: map<string, Value>)

  /** A result that is not an object is wrapped in one. */
  function Wrap(v: Value): map<string, Value> {
    if v.Struct? then v.fields else map["result" := v]
  }

  /** What ExecuteTool answers once the Run call has come back. */
  function ExecuteReturns(taskId: string, reply: RunReply): ExecuteResult {
    match reply
    case RpcFailed => Internal
    case Response(error, result) => if error != "" then Aborted(error) else Executed(taskId, Wrap(result))
  }

  /** Wrapping loses nothing but the difference between a plain value and an object that already looks wrapped. */
  lemma WrapLosesOnlyWrapping(v: Value, w: Value)
    ensures Wrap(v) == Wrap(w) <==>
      v == w || (w.Scalar? && v == Struct(map["result" := w])) || (v.Scalar? && w == Struct(map["result" := v]))
  {
    if v.Scalar? && w.Scalar? && Wrap(v) == Wrap(w) {
      assert Wrap(v)["result"] == Wrap(w)["result"];
    }
  }
}
