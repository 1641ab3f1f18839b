/**
  The MCP server under concurrency: any number of RPC handlers and the health-check goroutine over one
  `sync.RWMutex`. Taking the lock, releasing it, each access to the shared maps and each read or write of a
  tool's status is a step of its own; the assignment to the map of answers takes two. All of them are recorded in a
  trace, which decides what happens before what.
 */
module ServerSystem {
  import opened Wrappers
  import opened ServerSpec
  import opened LockOrder

  datatype Call = Store(op: StoreOp) | ListTools | ExecuteTool(taskId: string, name: string, args: Value)

  /** What a handler returns. `Pointer` is the address of a response object, read by the caller later. */
  datatype Outcome =
    | Rejected
    | Accepted
    | Pointer(at: nat)
    | Tools(list: seq<Description>)
    | Answered(result: ExecuteResult)

  /** The control point of a handler. */
  datatype Pc =
    | Called                                             // waiting for the lock
    | Holding                                            // lock taken, nothing accessed yet
    | Storing                                            // ProvideHumanInput: inside the assignment to the map
    | Listing(todo: set<string>, acc: seq<Description>)  // ListTools: inside the range loop
    | Looked(found: Option<Link>)                        // ExecuteTool: has the pointer from the registry, if any
    | Leaving(outcome: Outcome)                          // result computed, the deferred unlock still to run
    | Routed(found: Option<Link>)                        // ExecuteTool: has released the lock
    | Approved(tool: nat)                                // ExecuteTool: has read SERVING through its pointer
    | Forwarded                                          // ExecuteTool: the tool's Run has been called
    | Done(outcome: Outcome)

  /**
    A pointer from the registry, and how many values its status had been given when it was looked up: all of those
    but the last have been overwritten, before the reader released the lock.
   */
  datatype Link = Link(tool: nat, known: nat)

  /** The unlocked status read of an ExecuteTool handler, as history: the value, its number, and `known`. */
  datatype Seen = Seen(status: Status, index: nat, known: nat)

  /**
    A handler. The fields after `pc` are history: the lengths of the linearization and of the list of sweeps
    when it was called, the position in the one that concerns its call at which it took effect, and its status
    read.
   */
  datatype Handler = Handler(
    call: Call, pc: Pc, since: nat, sweepsBefore: nat, point: Option<nat>, seen: Option<Seen>)

  /**
    The health-check goroutine: waiting for its ticker, or inside the sweep with the lock held. `asking` is the tool
    whose health check has been sent and not answered.
   */
  datatype Sweep =
    | Resting
    | Sweeping(todo: set<string>, replies: map<string, Reply>, asking: Option<string>)

  /** A registered tool, at some address. `written` are the values its status has been given, the last one current. */
  datatype Tool = Tool(description: Description, conn: nat, written: seq<Status>)

  function Current(tool: Tool): Status {
    if tool.written == [] then UNKNOWN else tool.written[|tool.written| - 1]
  }

  datatype Point = Point(t: nat, op: StoreOp, result: StoreResult)

  datatype Forwarding = Forwarding(t: nat, call: RunCall)

  datatype Return = Return(t: nat, reply: RunReply)

  datatype State = State(
    // the lock
    writer: Option<Owner>,
    readers: set<nat>,
    // the shared data: the registry and its records, the map from task ids to response objects on the heap
    tools: map<string, nat>,
    records: seq<Tool>,
    inputs: map<string, nat>,
    heap: seq<Answer>,
    // the goroutines
    sweep: Sweep,
    handlers: seq<Handler>,
    // history
    trace: seq<Event>,                 // uses of the lock and accesses to shared variables
    lin: seq<Point>,                   // store operations in the order they took effect
    sweeps: seq<map<string, Status>>,  // the statuses after newServer and after each completed sweep
    rounds: seq<map<string, Reply>>,   // the health replies of each completed sweep
    forwards: seq<Forwarding>,         // the calls of tools' Run, in order
    answers: seq<Return>)              // what these calls came back with

  /** Each key of the registry is the name its tool gave, and no two tools share a connection. */
  ghost predicate RegistryOk(tools: map<string, nat>, records: seq<Tool>) {
    && (forall n <- tools ::
          tools[n] < |records| && records[tools[n]].description.name == n && records[tools[n]].written != [])
    && (forall m, n | m in tools && n in tools && m != n :: records[tools[m]].conn != records[tools[n]].conn)
  }

  function StatusesOf(tools: map<string, nat>, records: seq<Tool>): map<string, Status> {
    map n | n in tools && tools[n] < |records| :: Current(records[tools[n]])
  }

  function DescriptionsOf(tools: map<string, nat>, records: seq<Tool>): map<string, Description> {
    map n | n in tools && tools[n] < |records| :: records[tools[n]].description
  }

  /** A registry as discovery leaves it: every status has been set once. */
  ghost predicate Discovered(tools: map<string, nat>, records: seq<Tool>) {
    RegistryOk(tools, records) && forall n <- tools :: |records[tools[n]].written| == 1
  }

  /** The server after discovery. */
  function Init(tools: map<string, nat>, records: seq<Tool>): State {
    State(None, {}, tools, records, map[], [], Resting, [], [], [], [StatusesOf(tools, records)], [], [], [])
  }

  datatype Step =
    | Call(call: Call)
    | Lock(t: nat)
    | Unlock(t: nat)
    | Reject(t: nat)
    | BeginStore(t: nat)
    | EndStore(t: nat)
    | LookupAnswer(t: nat)
    | StartList(t: nat)
    | Visit(t: nat, name: string)
    | EndList(t: nat)
    | LookupTool(t: nat)
    | CheckStatus(t: nat, index: nat)
    | Forward(t: nat)
    | ToolReturn(t: nat, reply: RunReply)
    | SweepLock
    | SweepAsk(name: string)
    | SweepReply(health: Reply)
    | SweepUnlock

  /** Whether the handler takes the lock for writing. */
  predicate Exclusive(c: Call) {
    c.Store? && c.op.Provide?
  }

  predicate Inside(h: Handler) {
    h.pc.Holding? || h.pc.Storing? || h.pc.Listing? || h.pc.Looked? || h.pc.Leaving?
  }

  predicate AtPc(s: State, t: nat, pc: Pc) {
    t < |s.handlers| && s.handlers[t].pc == pc
  }

  /**
    What an unordered read of a status may yield: a value that has not been overwritten by the time the reader
    released the lock. A status fits into a word, so it is one that has been written.
   */
  predicate Readable(s: State, link: Link, index: nat) {
    link.tool < |s.records| && link.known <= index + 1 && index < |s.records[link.tool].written|
  }

  predicate Enabled(s: State, step: Step) {
    match step
    case Call(_) => true
    case Lock(t) => AtPc(s, t, Called) && s.writer.None? && (Exclusive(s.handlers[t].call) ==> s.readers == {})
    case Unlock(t) => t < |s.handlers| && (s.handlers[t].pc.Leaving? || s.handlers[t].pc.Looked?)
    case Reject(t) => AtPc(s, t, Holding) && s.handlers[t].call.Store? && s.handlers[t].call.op.id == ""
    case BeginStore(t) =>
      AtPc(s, t, Holding) && Exclusive(s.handlers[t].call) && s.handlers[t].call.op.id != ""
    case EndStore(t) => AtPc(s, t, Storing) && Exclusive(s.handlers[t].call)
    case LookupAnswer(t) =>
      AtPc(s, t, Holding) && s.handlers[t].call.Store? && s.handlers[t].call.op.Get? && s.handlers[t].call.op.id != ""
    case StartList(t) => AtPc(s, t, Holding) && s.handlers[t].call.ListTools?
    case Visit(t, n) =>
      && t < |s.handlers| && s.handlers[t].pc.Listing? && n in s.handlers[t].pc.todo
      && n in s.tools && s.tools[n] < |s.records|
    case EndList(t) => t < |s.handlers| && s.handlers[t].pc.Listing? && s.handlers[t].pc.todo == {}
    case LookupTool(t) =>
      && AtPc(s, t, Holding) && s.handlers[t].call.ExecuteTool?
      && (s.handlers[t].call.name in s.tools ==> s.tools[s.handlers[t].call.name] < |s.records|)
    case CheckStatus(t, index) =>
      && t < |s.handlers| && s.handlers[t].pc.Routed?
      && (s.handlers[t].pc.found.Some? ==> Readable(s, s.handlers[t].pc.found.value, index))
    case Forward(t) =>
      && t < |s.handlers| && s.handlers[t].pc.Approved? && s.handlers[t].pc.tool < |s.records|
      && s.handlers[t].call.ExecuteTool?
    case ToolReturn(t, _) => AtPc(s, t, Forwarded) && s.handlers[t].call.ExecuteTool?
    case SweepLock => s.sweep.Resting? && s.writer.None? && s.readers == {}
    case SweepAsk(n) => s.sweep.Sweeping? && s.sweep.asking.None? && n in s.sweep.todo
    case SweepReply(_) =>
      && s.sweep.Sweeping? && s.sweep.asking.Some?
      && s.sweep.asking.value in s.tools && s.tools[s.sweep.asking.value] < |s.records|
    case SweepUnlock => s.sweep.Sweeping? && s.sweep.asking.None? && s.sweep.todo == {}
  }

  /** The response object at an address. */
  function Deref(heap: seq<Answer>, at: nat): Answer {
    if at < |heap| then heap[at] else PENDING
  }

  function Set(s: State, t: nat, h: Handler): State
    requires t < |s.handlers|
  {
    s.(handlers := s.handlers[t := h])
  }

  /** The handler moves to `pc`, and its operation takes effect with the given result. */
  function TakeEffect(s: State, t: nat, pc: Pc, result: StoreResult): State
    requires t < |s.handlers| && s.handlers[t].call.Store?
  {
    var h := s.handlers[t];
    Set(s, t, h.(pc := pc, point := Some(|s.lin|))).(lin := s.lin + [Point(t, h.call.op, result)])
  }

  function Log(s: State, e: Event): State {
    s.(trace := s.trace + [e])
  }

  function Apply(s: State, step: Step): State
    requires Enabled(s, step)
  {
    match step
    case Call(c) => s.(handlers := s.handlers + [Handler(c, Called, |s.lin|, |s.sweeps|, None, None)])
    case Lock(t) =>
      var h := s.handlers[t];
      var s' := Log(Set(s, t, h.(pc := Holding)), Locked(Of(t), Exclusive(h.call)));
      if Exclusive(h.call) then s'.(writer := Some(Of(t))) else s'.(readers := s.readers + {t})
    case Unlock(t) =>
      var h := s.handlers[t];
      var pc := if h.pc.Looked? then Routed(h.pc.found) else Done(h.pc.outcome);
      var s' := Log(Set(s, t, h.(pc := pc)), Unlocked(Of(t), Exclusive(h.call)));
      if Exclusive(h.call) then s'.(writer := None) else s'.(readers := s.readers - {t})
    case Reject(t) => TakeEffect(s, t, Leaving(Rejected), InvalidArgument)
    case BeginStore(t) => Log(Set(s, t, s.handlers[t].(pc := Storing)), Writes(Of(t), AnswerMap))
    case EndStore(t) =>
      var op := s.handlers[t].call.op;
      var s' := TakeEffect(s, t, Leaving(Accepted), Received).(
        inputs := s.inputs[op.id := |s.heap|], heap := s.heap + [Completed(op.value)]);
      Log(s', Writes(Of(t), AnswerMap))
    case LookupAnswer(t) =>
      var id := s.handlers[t].call.op.id;
      var hit := id in s.inputs;
      var at := if hit then s.inputs[id] else |s.heap|;
      var heap := if hit then s.heap else s.heap + [PENDING];
      var s' := TakeEffect(s, t, Leaving(Pointer(at)), Found(Deref(heap, at))).(heap := heap);
      Log(s', Reads(Of(t), AnswerMap))
    case StartList(t) => Set(s, t, s.handlers[t].(pc := Listing(s.tools.Keys, [])))
    case Visit(t, n) =>
      var h := s.handlers[t];
      var tool := s.records[s.tools[n]];
      var acc := h.pc.acc + if Current(tool) == SERVING then [tool.description] else [];
      Log(Set(s, t, h.(pc := Listing(h.pc.todo - {n}, acc))), Reads(Of(t), StatusOf(s.tools[n])))
    case EndList(t) =>
      var h := s.handlers[t];
      Set(s, t, h.(pc := Leaving(Tools(h.pc.acc)), point := Some(|s.sweeps|)))
    case LookupTool(t) =>
      var h := s.handlers[t];
      var name := h.call.name;
      var found := if name in s.tools then Some(Link(s.tools[name], |s.records[s.tools[name]].written|)) else None;
      Set(s, t, h.(pc := Looked(found)))
    case CheckStatus(t, index) =>
      var h := s.handlers[t];
      if h.pc.found.None? then Set(s, t, h.(pc := Done(Answered(NotFound))))
      else
        var a := h.pc.found.value.tool;
        var status := s.records[a].written[index];
        var pc := if status == SERVING then Approved(a) else Done(Answered(NotFound));
        var seen := Seen(status, index, h.pc.found.value.known);
        Log(Set(s, t, h.(pc := pc, seen := Some(seen))), Reads(Of(t), StatusOf(a)))
    case Forward(t) =>
      var h := s.handlers[t];
      var call := RunCall(s.records[h.pc.tool].conn, h.call.name, h.call.args);
      Set(s, t, h.(pc := Forwarded)).(forwards := s.forwards + [Forwarding(t, call)])
    case ToolReturn(t, reply) =>
      var h := s.handlers[t];
      Set(s, t, h.(pc := Done(Answered(ExecuteReturns(h.call.taskId, reply))))).(
        answers := s.answers + [Return(t, reply)])
    case SweepLock =>
      Log(s, Locked(Sweeper, true)).(writer := Some(Sweeper), sweep := Sweeping(s.tools.Keys, map[], None))
    case SweepAsk(n) => s.(sweep := s.sweep.(todo := s.sweep.todo - {n}, asking := Some(n)))
    case SweepReply(r) =>
      var n := s.sweep.asking.value;
      var a := s.tools[n];
      var tool := s.records[a];
      Log(s, Writes(Sweeper, StatusOf(a))).(
        records := s.records[a := tool.(written := tool.written + [StatusAfter(r)])],
        sweep := s.sweep.(replies := s.sweep.replies[n := r], asking := None))
    case SweepUnlock =>
      Log(s, Unlocked(Sweeper, true)).(
        writer := None, sweep := Resting,
        sweeps := s.sweeps + [StatusesOf(s.tools, s.records)], rounds := s.rounds + [s.sweep.replies])
  }

  predicate CanRun(s: State, steps: seq<Step>)
    decreases |steps|
  {
    steps == [] || (Enabled(s, steps[0]) && CanRun(Apply(s, steps[0]), steps[1..]))
  }

  function RunOf(s: State, steps: seq<Step>): State
    requires CanRun(s, steps)
    decreases |steps|
  {
    if steps == [] then s else RunOf(Apply(s, steps[0]), steps[1..])
  }

  ghost predicate Reachable(s: State) {
    exists tools, records, steps ::
      Discovered(tools, records) && CanRun(Init(tools, records), steps) && s == RunOf(Init(tools, records), steps)
  }

  lemma {:induction false} RunAppend(s: State, steps: seq<Step>, step: Step)
    requires CanRun(s, steps) && Enabled(RunOf(s, steps), step)
    ensures CanRun(s, steps + [step]) && RunOf(s, steps + [step]) == Apply(RunOf(s, steps), step)
    decreases |steps|
  {
    if steps != [] {
      RunAppend(Apply(s, steps[0]), steps[1..], step);
      assert (steps + [step])[1..] == steps[1..] + [step];
    }
  }

  lemma ReachableStep(s: State, step: Step)
    requires Reachable(s) && Enabled(s, step)
    ensures Reachable(Apply(s, step))
  {
    var tools, records, steps :|
      Discovered(tools, records) && CanRun(Init(tools, records), steps) && s == RunOf(Init(tools, records), steps);
    RunAppend(Init(tools, records), steps, step);
  }

  lemma {:induction false} ReachableRun(s: State, steps: seq<Step>)
    requires Reachable(s) && CanRun(s, steps)
    ensures Reachable(RunOf(s, steps))
    decreases |steps|
  {
    if steps != [] {
      ReachableStep(s, steps[0]);
      ReachableRun(Apply(s, steps[0]), steps[1..]);
    }
  }

  lemma ReachableInit(tools: map<string, nat>, records: seq<Tool>)
    requires Discovered(tools, records)
    ensures Reachable(Init(tools, records))
  {
    assert CanRun(Init(tools, records), []) && Init(tools, records) == RunOf(Init(tools, records), []);
  }

  // ---- What a step leaves alone ----

  /** The steps of the health-check goroutine. */
  predicate OfSweep(step: Step) {
    step.SweepLock? || step.SweepAsk? || step.SweepReply? || step.SweepUnlock?
  }

  /** A step of a handler does not touch the registry, its records or the sweep. */
  lemma ToolsStay(s: State, step: Step)
    requires Enabled(s, step) && !OfSweep(step)
    ensures var s' := Apply(s, step);
      && s'.tools == s.tools && s'.records == s.records && s'.sweep == s.sweep
      && s'.sweeps == s.sweeps && s'.rounds == s.rounds
  {
  }

  /** A step of one handler, or of the sweep, does not touch any other handler. */
  lemma OthersStay(s: State, step: Step, t: nat)
    requires Enabled(s, step) && t < |s.handlers|
    ensures t < |Apply(s, step).handlers|
    ensures OfSweep(step) || step.Call? || t != step.t ==> Apply(s, step).handlers[t] == s.handlers[t]
  {
    if OfSweep(step) || step.Call? {
      assert s.handlers <= Apply(s, step).handlers;
    } else {
      assert Apply(s, step).handlers == s.handlers[step.t := Apply(s, step).handlers[step.t]];
    }
  }

  // ---- The lock ----

  ghost predicate HandlerLockOk(s: State, t: nat)
    requires t < |s.handlers|
  {
    var h := s.handlers[t];
    && (t in s.readers <==> Inside(h) && !Exclusive(h.call))
    && (s.writer == Some(Of(t)) <==> Inside(h) && Exclusive(h.call))
    && (h.pc.Storing? ==> Exclusive(h.call) && h.call.op.id != "")
    && (h.pc.Listing? ==> h.call.ListTools?)
    && (h.pc.Leaving? ==> !h.call.ExecuteTool?)
    && (h.pc.Looked? || h.pc.Routed? || h.pc.Approved? || h.pc.Forwarded? ==> h.call.ExecuteTool?)
  }

  /** Readers exclude writers, and the lock is held by exactly the goroutines inside their critical sections. */
  ghost predicate LockInv(s: State) {
    && (s.writer.Some? ==> s.readers == {})
    && (s.writer == Some(Sweeper) <==> s.sweep.Sweeping?)
    && (s.writer.Some? && s.writer.value.Of? ==> s.writer.value.t < |s.handlers|)
    && (forall t <- s.readers :: t < |s.handlers|)
    && (forall t: nat | t < |s.handlers| :: HandlerLockOk(s, t))
  }

  lemma LockStepKeepsLockInv(s: State, step: Step)
    requires LockInv(s) && Enabled(s, step) && (step.Lock? || step.Unlock?)
    ensures LockInv(Apply(s, step))
  {
    var s' := Apply(s, step);
    assert HandlerLockOk(s, step.t);
    forall t: nat | t < |s'.handlers| ensures HandlerLockOk(s', t) {
      assert HandlerLockOk(s, t);
    }
  }

  /** A step inside a critical section, or outside of all, leaves the lock as it is. */
  lemma InnerStepKeepsHolds(s: State, step: Step)
    requires LockInv(s) && Enabled(s, step) && !step.Lock? && !step.Unlock? && !step.Call? && !OfSweep(step)
    ensures var s' := Apply(s, step);
      && s'.writer == s.writer && s'.readers == s.readers && s'.sweep == s.sweep
      && |s'.handlers| == |s.handlers|
      && HandlerLockOk(s', step.t)
  {
    assert HandlerLockOk(s, step.t);
  }

  lemma InnerStepKeepsLockInv(s: State, step: Step)
    requires LockInv(s) && Enabled(s, step) && !step.Lock? && !step.Unlock? && !step.Call? && !OfSweep(step)
    ensures LockInv(Apply(s, step))
  {
    var s' := Apply(s, step);
    InnerStepKeepsHolds(s, step);
    forall t: nat | t < |s'.handlers| ensures HandlerLockOk(s', t) {
      OthersStay(s, step, t);
      assert HandlerLockOk(s, t);
    }
  }

  lemma OtherStepKeepsLockInv(s: State, step: Step)
    requires LockInv(s) && Enabled(s, step) && (step.Call? || OfSweep(step))
    ensures LockInv(Apply(s, step))
  {
    var s' := Apply(s, step);
    forall t: nat | t < |s'.handlers| ensures HandlerLockOk(s', t) {
      if t < |s.handlers| { assert HandlerLockOk(s, t); }
    }
  }

  lemma StepKeepsLockInv(s: State, step: Step)
    requires LockInv(s) && Enabled(s, step)
    ensures LockInv(Apply(s, step))
  {
    if step.Lock? || step.Unlock? {
      LockStepKeepsLockInv(s, step);
    } else if step.Call? || OfSweep(step) {
      OtherStepKeepsLockInv(s, step);
    } else {
      InnerStepKeepsLockInv(s, step);
    }
  }
}
