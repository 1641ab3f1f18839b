/**
  One run of the composed protocol, from a request for a human to the answer: what the theorems about answers assume
  does happen.
 */
module HumanRun {
  import opened Wrappers
  import opened ServerSpec
  import HubCore
  import HubSystem
  import LockOrder
  import ServerSystem
  import opened HumanSystem
  import HumanTheorems

  // ---- Stretches of steps of one part ----

  /** Steps of the server that concern no run of the tool and no operator. */
  predicate Plain(step: ServerSystem.Step) {
    && (step.Call? ==> step.call.ExecuteTool? || (step.call.Store? && step.call.op.Get?))
    && !step.Forward? && !step.ToolReturn?
  }

  lemma ServerStepRuns(w: World, step: ServerSystem.Step) returns (w': World)
    requires Reachable(w) && ServerSystem.Enabled(w.server, step) && Plain(step)
    ensures Reachable(w') && w' == w.(server := ServerSystem.Apply(w.server, step))
  {
    ReachableStep(w, Server(step));
    w' := Apply(w, Server(step));
  }

  lemma BridgeStepRuns(w: World, step: HubSystem.Step<Prompt>) returns (w': World)
    requires Reachable(w) && HubSystem.Enabled(w.bridge, step) && !step.External()
    ensures Reachable(w') && w' == w.(bridge := HubSystem.Apply(w.bridge, step))
  {
    ReachableStep(w, Bridge(step));
    w' := Apply(w, Bridge(step));
  }

  /** Nobody holds the lock. */
  predicate Free(s: ServerSystem.State) {
    s.writer.None? && s.readers == {} && s.sweep.Resting?
  }

  /** Only the server's handler `t` has moved. */
  ghost predicate Moved(w: World, w': World, t: nat) {
    && w'.bridge == w.bridge && w'.runs == w.runs && w'.events == w.events
    && w'.server.tools == w.server.tools && w'.server.records == w.server.records
    && t < |w.server.handlers| == |w'.server.handlers|
    && w'.server.handlers == w.server.handlers[t := w'.server.handlers[t]]
    && w'.server.handlers[t].call == w.server.handlers[t].call
    && w'.server.sweep == w.server.sweep
  }

  lemma TakeLock(w: World, t: nat) returns (w': World)
    requires Reachable(w) && Free(w.server) && ServerSystem.AtPc(w.server, t, ServerSystem.Called)
    ensures Reachable(w') && Moved(w, w', t) && w'.server.handlers[t].pc == ServerSystem.Holding
    ensures w'.server.inputs == w.server.inputs && w'.server.heap == w.server.heap
    ensures if ServerSystem.Exclusive(w.server.handlers[t].call)
      then w'.server.writer == Some(LockOrder.Of(t)) && w'.server.readers == {}
      else w'.server.writer == None && w'.server.readers == {t}
  {
    w' := ServerStepRuns(w, ServerSystem.Lock(t));
  }

  lemma ReleaseLock(w: World, t: nat) returns (w': World)
    requires Reachable(w) && t < |w.server.handlers| && w.server.sweep.Resting?
    requires w.server.handlers[t].pc.Leaving? || w.server.handlers[t].pc.Looked?
    requires if ServerSystem.Exclusive(w.server.handlers[t].call) then w.server.readers == {}
      else w.server.writer == None && w.server.readers == {t}
    ensures Reachable(w') && Moved(w, w', t) && Free(w'.server)
    ensures var h := w.server.handlers[t];
      w'.server.handlers[t].pc ==
        if h.pc.Looked? then ServerSystem.Routed(h.pc.found) else ServerSystem.Done(h.pc.outcome)
    ensures w'.server.inputs == w.server.inputs && w'.server.heap == w.server.heap
  {
    w' := ServerStepRuns(w, ServerSystem.Unlock(t));
  }

  // ---- A request reaches the tool ----

  const ADDRESS: nat := 0

  /** A server whose only tool is the one for humans, found healthy by discovery. */
  function OneTool(): ServerSystem.State {
    ServerSystem.Init(
      map[HUMAN_INPUT := ADDRESS], [ServerSystem.Tool(Description(HUMAN_INPUT, ""), 0, [SERVING])])
  }

  /** A request for a human, with a prompt. */
  function Request(taskId: string, prompt: string): ServerSystem.Call {
    ServerSystem.ExecuteTool(taskId, HUMAN_INPUT, Struct(map["prompt" := Scalar(prompt)]))
  }

  lemma StartAndCall(call: ServerSystem.Call) returns (w: World)
    requires ForHuman(call)
    ensures Reachable(w) && Free(w.server) && w.bridge == HubSystem.Init() && w.runs == [] && w.events == []
    ensures w.server.tools == OneTool().tools && w.server.records == OneTool().records
    ensures w.server.inputs == map[] && w.server.heap == []
    ensures |w.server.handlers| == 1 && w.server.handlers[0].call == call && w.server.handlers[0].pc.Called?
  {
    w := World(HubSystem.Init(), OneTool(), [], []);
    assert ServerSystem.Discovered(OneTool().tools, OneTool().records);
    ReachableStart(w);
    w := ServerStepRuns(w, ServerSystem.Step.Call(call));
  }

  /** The request looks the tool up. */
  lemma Route(call: ServerSystem.Call) returns (w: World)
    requires ForHuman(call)
    ensures Reachable(w) && Free(w.server) && w.bridge == HubSystem.Init() && w.runs == [] && w.events == []
    ensures w.server.records == OneTool().records && w.server.inputs == map[] && w.server.heap == []
    ensures |w.server.handlers| == 1 && w.server.handlers[0].call == call
    ensures w.server.handlers[0].pc == ServerSystem.Routed(Some(ServerSystem.Link(ADDRESS, 1)))
  {
    w := StartAndCall(call);
    w := TakeLock(w, 0);
    var looked := ServerStepRuns(w, ServerSystem.LookupTool(0));
    assert Moved(w, looked, 0);
    w := ReleaseLock(looked, 0);
  }

  lemma Approve(call: ServerSystem.Call) returns (w: World)
    requires ForHuman(call)
    ensures Reachable(w) && Free(w.server) && w.bridge == HubSystem.Init() && w.runs == [] && w.events == []
    ensures w.server.records == OneTool().records && w.server.inputs == map[] && w.server.heap == []
    ensures |w.server.handlers| == 1 && w.server.handlers[0].call == call
    ensures w.server.handlers[0].pc == ServerSystem.Approved(ADDRESS)
  {
    w := Route(call);
    w := ServerStepRuns(w, ServerSystem.CheckStatus(0, 0));
  }

  /** The request is forwarded, which starts a run of the tool. */
  lemma StartRun(call: ServerSystem.Call) returns (w: World)
    requires ForHuman(call)
    ensures Reachable(w) && Free(w.server) && w.bridge == HubSystem.Init() && w.events == []
    ensures w.server.inputs == map[] && w.server.heap == []
    ensures |w.server.handlers| == 1 && w.server.handlers[0].call == call
    ensures w.server.handlers[0].pc == ServerSystem.Forwarded
    ensures w.runs == [Run(0, None, None, false, None)]
  {
    w := Approve(call);
    ReachableStep(w, Server(ServerSystem.Forward(0)));
    w := Apply(w, Server(ServerSystem.Forward(0)));
  }

  // ---- The message reaches an operator ----

  /** A connection that has been registered and has sent nothing. */
  function Listening(): HubSystem.Peer<Prompt> {
    HubSystem.Peer(HubSystem.Reading, [], [], [])
  }

  /** The bridge with the operator's connection registered. */
  function OneClient(): HubSystem.System<Prompt> {
    HubSystem.System([Listening()],
                     HubCore.HubState({0}, map[0 := HubCore.Wire(0, None, [], 0, 0)], multiset{}, []),
                     HubSystem.Idle, [HubCore.Register(0)])
  }

  lemma OperatorConnects(w: World) returns (w': World)
    requires Reachable(w) && w.bridge == HubSystem.Init()
    ensures Reachable(w') && w' == w.(bridge := w'.bridge)
    ensures w'.bridge.peers == [HubSystem.Peer(HubSystem.Registering, [], [], [])]
    ensures w'.bridge == HubSystem.Init().(peers := w'.bridge.peers)
  {
    ReachableStep(w, Join);
    w' := Apply(w, Join);
  }

  lemma OperatorJoins(w: World) returns (w': World)
    requires Reachable(w) && w.bridge == HubSystem.Init()
    ensures Reachable(w') && w' == w.(bridge := OneClient())
  {
    w' := OperatorConnects(w);
    w' := BridgeStepRuns(w', HubSystem.RecvRegister(0));
    w' := BridgeStepRuns(w', HubSystem.Add);
  }

  /** The bridge with the tool's connection, on which some messages have been sent, not yet registered. */
  function WithTool(sent: seq<Prompt>): HubSystem.System<Prompt> {
    OneClient().(peers := [Listening(), HubSystem.Peer(HubSystem.Registering, sent, [], sent)])
  }

  lemma ToolDials(w: World) returns (w': World)
    requires Reachable(w) && w.bridge == OneClient() && w.runs == [Run(0, None, None, false, None)]
    requires PromptOfRun(w, 0).Some?
    ensures Reachable(w') && w'.server == w.server && w'.events == w.events
    ensures w'.runs == [Run(0, Some(1), None, false, None)]
    ensures w'.bridge == WithTool([])
  {
    ReachableStep(w, Dial(0));
    w' := Apply(w, Dial(0));
  }

  lemma ToolNamesRun(w: World, id: string) returns (w': World)
    requires Reachable(w) && id != "" && w.runs == [Run(0, Some(1), None, false, None)] && w.bridge == WithTool([])
    ensures Reachable(w') && w'.server == w.server && w'.bridge == w.bridge
    ensures w'.runs == [Run(0, Some(1), Some(id), false, None)]
  {
    assert !Aired(w.bridge, id);
    ReachableStep(w, NewId(0, id));
    w' := Apply(w, NewId(0, id));
  }

  lemma ToolPublishes(w: World, id: string) returns (w': World, m: Prompt)
    requires Reachable(w) && w.runs == [Run(0, Some(1), Some(id), false, None)] && w.bridge == WithTool([])
    ensures Reachable(w') && w'.server == w.server && w'.runs == [Run(0, Some(1), Some(id), true, None)]
    ensures m.taskId == id && w'.bridge == WithTool([m])
  {
    m := Message(w, 0);
    ReachableStep(w, Publish(0));
    w' := Apply(w, Publish(0));
    assert w'.bridge.peers[1] == HubSystem.Peer(HubSystem.Registering, [m], [], [m]);
    assert w'.bridge.peers == WithTool([m]).peers;
  }

  lemma ToolIsRegistered(w: World, m: Prompt) returns (w': World)
    requires Reachable(w) && w.bridge == WithTool([m])
    ensures Reachable(w') && w' == w.(bridge := w'.bridge) && w'.bridge.control == HubSystem.Idle
    ensures w'.bridge.peers == [Listening(), HubSystem.Peer(HubSystem.Reading, [m], [], [m])]
    ensures w'.bridge.hub.clients == {0, 1} && 0 in w'.bridge.hub.wires && w'.bridge.hub.wires[0].attempts == []
  {
    w' := BridgeStepRuns(w, HubSystem.RecvRegister(1));
    w' := BridgeStepRuns(w', HubSystem.Add);
  }

  /** The tool's frame is taken up for broadcast. */
  lemma MessageIsTaken(w: World, m: Prompt) returns (w': World)
    requires Reachable(w) && w.bridge.control == HubSystem.Idle && 0 in w.bridge.hub.clients
    requires w.bridge.peers == [Listening(), HubSystem.Peer(HubSystem.Reading, [m], [], [m])]
    requires 0 in w.bridge.hub.wires && w.bridge.hub.wires[0].attempts == []
    ensures Reachable(w') && w' == w.(bridge := w'.bridge)
    ensures w'.bridge.control.Writing? && w'.bridge.control.entry.payload == m && 0 in w'.bridge.control.todo
    ensures 0 in w'.bridge.hub.wires && w'.bridge.hub.wires[0].attempts == []
  {
    w' := BridgeStepRuns(w, HubSystem.Read(1));
    w' := BridgeStepRuns(w', HubSystem.RecvBroadcast(1));
  }

  lemma MessageArrives(w: World, m: Prompt) returns (w': World)
    requires Reachable(w)
    requires w.bridge == WithTool([m])
    ensures Reachable(w') && w' == w.(bridge := w'.bridge)
    ensures Carried(w'.bridge, 0, m.taskId, WrittenTo(w'.bridge, 0))
  {
    w' := ToolIsRegistered(w, m);
    w' := MessageIsTaken(w', m);
    w' := BridgeStepRuns(w', HubSystem.Write(0, true));
    var attempts := w'.bridge.hub.wires[0].attempts;
    assert attempts == [m] && attempts[..1] == [m] && m in attempts[..1];
  }

  // ---- The caller is told to wait ----

  lemma ToolAnswers(w: World, id: string) returns (w': World)
    requires Reachable(w) && w.runs == [Run(0, Some(1), Some(id), true, None)]
    ensures Reachable(w') && w'.bridge == w.bridge && w'.server == w.server
    ensures w'.runs == [Run(0, Some(1), Some(id), true, Some(Response("", Struct(Waiting(id)))))]
  {
    ReachableStep(w, Respond(0));
    w' := Apply(w, Respond(0));
  }

  lemma CallerIsTold(w: World, id: string) returns (w': World)
    requires Reachable(w) && w.runs == [Run(0, Some(1), Some(id), true, Some(Response("", Struct(Waiting(id)))))]
    requires |w.server.handlers| == 1 && w.server.handlers[0].pc == ServerSystem.Forwarded && Free(w.server)
    requires ForHuman(w.server.handlers[0].call)
    ensures Reachable(w') && w'.bridge == w.bridge && w'.runs == w.runs && Free(w'.server)
    ensures |w'.server.handlers| == 1 && w'.server.handlers[0].call == w.server.handlers[0].call
    ensures w'.server.inputs == w.server.inputs && w'.server.heap == w.server.heap
    ensures w'.server.handlers[0].pc ==
      ServerSystem.Done(ServerSystem.Answered(Executed(w.server.handlers[0].call.taskId, Waiting(id))))
  {
    var reply := Response("", Struct(Waiting(id)));
    assert w.runs[0].caller == 0 && w.runs[0].reply == Some(reply);
    assert ReplyOfRun(w.runs, 0, reply);
    ReachableStep(w, Server(ServerSystem.ToolReturn(0, reply)));
    w' := Apply(w, Server(ServerSystem.ToolReturn(0, reply)));
  }

  // ---- The operator answers ----

  lemma OperatorAsks(w: World, id: string, v: Value) returns (w': World)
    requires Reachable(w) && Free(w.server) && id != "" && Carried(w.bridge, 0, id, WrittenTo(w.bridge, 0))
    ensures Reachable(w') && Free(w'.server) && w'.runs == w.runs
    ensures w'.server.inputs == w.server.inputs && w'.server.heap == w.server.heap
    ensures |w'.server.handlers| == |w.server.handlers| + 1
    ensures forall t: nat | t < |w.server.handlers| :: w'.server.handlers[t] == w.server.handlers[t]
    ensures var h := w'.server.handlers[|w.server.handlers|];
      h.call == ServerSystem.Store(Provide(id, v)) && h.pc.Called?
  {
    ReachableStep(w, Ask(0, id, v));
    w' := Apply(w, Ask(0, id, v));
  }

  lemma AnswerBegins(w: World, t: nat, id: string, v: Value) returns (w': World)
    requires Reachable(w) && Free(w.server) && ServerSystem.AtPc(w.server, t, ServerSystem.Called) && id != ""
    requires w.server.handlers[t].call == ServerSystem.Store(Provide(id, v))
    ensures Reachable(w') && Moved(w, w', t) && w'.server.handlers[t].pc.Storing? && w'.server.readers == {}
    ensures w'.server.inputs == w.server.inputs && w'.server.heap == w.server.heap
  {
    var held := TakeLock(w, t);
    w' := ServerStepRuns(held, ServerSystem.BeginStore(t));
    assert Moved(held, w', t);
  }

  lemma AnswerEnds(w: World, t: nat, id: string, v: Value) returns (w': World)
    requires Reachable(w) && ServerSystem.AtPc(w.server, t, ServerSystem.Storing) && w.server.readers == {}
    requires w.server.sweep.Resting?
    requires w.server.handlers[t].call == ServerSystem.Store(Provide(id, v))
    ensures Reachable(w') && Free(w'.server) && Moved(w, w', t)
    ensures w'.server.inputs == w.server.inputs[id := |w.server.heap|]
    ensures w'.server.heap == w.server.heap + [Answer("completed", Some(v))]
  {
    var stored := ServerStepRuns(w, ServerSystem.EndStore(t));
    assert Moved(w, stored, t);
    w' := ReleaseLock(stored, t);
  }

  /** An operator's answer, from the call to the return. */
  lemma OperatorAnswers(w: World, id: string, v: Value) returns (w': World)
    requires Reachable(w) && Free(w.server) && id != "" && Carried(w.bridge, 0, id, WrittenTo(w.bridge, 0))
    ensures Reachable(w') && Free(w'.server) && w'.runs == w.runs
    ensures |w'.server.handlers| == |w.server.handlers| + 1
    ensures forall t: nat | t < |w.server.handlers| :: w'.server.handlers[t] == w.server.handlers[t]
    ensures w'.server.inputs == w.server.inputs[id := |w.server.heap|]
    ensures w'.server.heap == w.server.heap + [Answer("completed", Some(v))]
  {
    var t := |w.server.handlers|;
    var asked := OperatorAsks(w, id, v);
    var storing := AnswerBegins(asked, t, id, v);
    w' := AnswerEnds(storing, t, id, v);
  }

  lemma AnswerIsFetched(w: World, id: string, a: ServerSpec.Answer) returns (w': World)
    requires Reachable(w) && Free(w.server) && id != ""
    requires id in w.server.inputs && w.server.inputs[id] < |w.server.heap|
    requires w.server.heap[w.server.inputs[id]] == a
    ensures Reachable(w') && w'.runs == w.runs
    ensures |w'.server.handlers| == |w.server.handlers| + 1
    ensures forall t: nat | t < |w.server.handlers| :: w'.server.handlers[t] == w.server.handlers[t]
    ensures HumanTheorems.Showed(w'.server, |w.server.handlers|, id, a)
  {
    var t := |w.server.handlers|;
    var called := ServerStepRuns(w, ServerSystem.Step.Call(ServerSystem.Store(Get(id))));
    assert ServerSystem.AtPc(called.server, t, ServerSystem.Called);
    var held := TakeLock(called, t);
    var found := ServerStepRuns(held, ServerSystem.LookupAnswer(t));
    assert Moved(held, found, t);
    w' := ReleaseLock(found, t);
  }

  /** Up to the message on the operator's connection. */
  lemma PromptArrives(taskId: string, prompt: string, id: string) returns (w: World)
    requires id != ""
    ensures Reachable(w) && Free(w.server) && w.server.inputs == map[] && w.server.heap == []
    ensures w.runs == [Run(0, Some(1), Some(id), true, None)]
    ensures |w.server.handlers| == 1 && w.server.handlers[0].pc == ServerSystem.Forwarded
    ensures w.server.handlers[0].call == Request(taskId, prompt)
    ensures Carried(w.bridge, 0, id, WrittenTo(w.bridge, 0))
  {
    w := StartRun(Request(taskId, prompt));
    w := OperatorJoins(w);
    w := ToolDials(w);
    w := ToolNamesRun(w, id);
    var m: Prompt;
    w, m := ToolPublishes(w, id);
    w := MessageArrives(w, m);
  }

  /**
    The whole protocol: for any prompt, any id the tool generates and any answer there is a run in which a request for
    a human is answered with that id, and a GetHumanInput for it shows the answer an operator gave.
   */
  lemma RequestIsAnswered(taskId: string, prompt: string, id: string, v: Value) returns (w: World, g: nat)
    requires id != ""
    ensures Reachable(w) && |w.runs| == 1 && w.runs[0].id == Some(id)
    ensures |w.server.handlers| > 0
    ensures w.server.handlers[0].call ==
      ServerSystem.ExecuteTool(taskId, "human_input", Struct(map["prompt" := Scalar(prompt)]))
    ensures exists e <- w.events :: e.Publishes? && e.m == Prompt(id, prompt)
    ensures w.server.handlers[0].pc == ServerSystem.Done(ServerSystem.Answered(
      Executed(taskId, map["status" := Scalar("waiting_for_human"), "task_id" := Scalar(id)])))
    ensures HumanTheorems.Showed(w.server, g, id, Answer("completed", Some(v)))
  {
    var arrived := PromptArrives(taskId, prompt, id);
    var answered := ToolAnswers(arrived, id);
    var told := CallerIsTold(answered, id);
    var stored := OperatorAnswers(told, id, v);
    w := AnswerIsFetched(stored, id, Answer("completed", Some(v)));
    g := |stored.server.handlers|;
    var r, published := HumanTheorems.WaitingIdIsPublished(w, 0);
    assert w.events[published].m == Prompt(id, prompt);
  }

  lemma ToolFails(w: World, error: string) returns (w': World, reply: RunReply)
    requires Reachable(w) && error != "" && w.runs == [Run(0, None, None, false, None)]
    ensures Reachable(w') && w'.server == w.server && reply.Response? && reply.error == error
    ensures ReplyOfRun(w'.runs, 0, reply)
  {
    ReachableStep(w, Fail(0, error));
    w' := Apply(w, Fail(0, error));
    reply := w'.runs[0].reply.value;
    assert w'.runs[0].caller == 0 && w'.runs[0].reply == Some(reply);
  }

  /** Any error can end a run of the tool, and then it is what the caller is told. */
  lemma RequestFails(taskId: string, prompt: string, error: string) returns (w: World)
    requires error != ""
    ensures Reachable(w) && |w.server.handlers| == 1
    ensures w.server.handlers[0].call ==
      ServerSystem.ExecuteTool(taskId, "human_input", Struct(map["prompt" := Scalar(prompt)]))
    ensures w.server.handlers[0].pc == ServerSystem.Done(ServerSystem.Answered(Aborted(error)))
  {
    w := StartRun(Request(taskId, prompt));
    var reply: RunReply;
    w, reply := ToolFails(w, error);
    ReachableStep(w, Server(ServerSystem.ToolReturn(0, reply)));
    w := Apply(w, Server(ServerSystem.ToolReturn(0, reply)));
  }
}
