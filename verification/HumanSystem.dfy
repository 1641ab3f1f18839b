/**
  The asynchronous human-answer protocol: the MCP server at the level of its locks, runs of the `human_input` tool,
  the Human Bridge and the operators, all interleaved.

  The assumptions are in the steps. The tool registered as `human_input` runs as modelled here, and answers the
  call that started the run, unless that call breaks (`ToolReturn`). A generated task id is neither another run's
  nor in any message sent so far (`NewId`). Peers other than the tool cannot send an id that has not left the tool
  (`OtherSend`). Answers are provided by operators, for ids that the bridge wrote to their connection (`Ask`).
 */
module HumanSystem {
  import opened Wrappers
  import opened ServerSpec
  import HubSystem
  import HubTheorems
  import ServerSystem
  import StoreTheorems
  import ToolInvariant

  const HUMAN_INPUT := "human_input"

  /** The message published for a prompt. */
  datatype Prompt = Prompt(taskId: string, prompt: string)

  /**
    A run of the tool, started by the server's handler `caller`: the connection it has dialled, the id it has
    generated, whether the message has left it, and what it answered. A run that has answered does nothing more.
   */
  datatype Run = Run(caller: nat, conn: Option<nat>, id: Option<string>, sent: bool, reply: Option<RunReply>)

  /**
    Publishing a message, and an operator's call of ProvideHumanInput. `lin` is the number of store operations
    that had taken effect, `at` the number of messages written to the operator's connection by then.
   */
  datatype Event =
    | Publishes(run: nat, m: Prompt, lin: nat)
    | Provides(t: nat, conn: nat, id: string, at: nat)

  datatype World = World(
    bridge: HubSystem.System<Prompt>,
    server: ServerSystem.State,
    runs: seq<Run>,
    events: seq<Event>)  // history

  datatype Step =
    | Bridge(hub: HubSystem.Step<Prompt>)
    | Join
    | OtherSend(conn: nat, m: Prompt)
    | Server(own: ServerSystem.Step)
    | Ask(conn: nat, id: string, value: Value)
    | Dial(r: nat)
    | NewId(r: nat, id: string)
    | Publish(r: nat)
    | Respond(r: nat)
    | Fail(r: nat, error: string)  // at any point, also when publishing reports an error after the message got out

  ghost predicate IsInit(w: World) {
    && w.bridge == HubSystem.Init() && w.runs == [] && w.events == []
    && exists tools, records ::
         ServerSystem.Discovered(tools, records) && w.server == ServerSystem.Init(tools, records)
  }

  /** The request for a run of this tool. */
  predicate ForHuman(call: ServerSystem.Call) {
    call.ExecuteTool? && call.name == HUMAN_INPUT
  }

  /** The prompt in the arguments of a request, if there is one. */
  function PromptOf(args: Value): Option<string> {
    if args.Struct? && "prompt" in args.fields && args.fields["prompt"].Scalar?
    then Some(args.fields["prompt"].text)
    else None
  }

  /** The prompt run `r` was started with. */
  function PromptOfRun(w: World, r: nat): Option<string> {
    if r < |w.runs| && w.runs[r].caller < |w.server.handlers| && ForHuman(w.server.handlers[w.runs[r].caller].call)
    then PromptOf(w.server.handlers[w.runs[r].caller].call.args)
    else None
  }

  /** The message run `r` publishes. */
  function Message(w: World, r: nat): Prompt {
    var prompt := PromptOfRun(w, r);
    Prompt(if r < |w.runs| && w.runs[r].id.Some? then w.runs[r].id.value else "",
           if prompt.Some? then prompt.value else "")
  }

  /** The fields of the result that names the id an answer will come under. */
  function Waiting(id: string): map<string, Value> {
    map["status" := Scalar("waiting_for_human"), "task_id" := Scalar(id)]
  }

  /** The first `at` messages written to the connection contain one with this id. */
  ghost predicate Carried(bridge: HubSystem.System<Prompt>, conn: nat, id: string, at: nat) {
    && conn in bridge.hub.wires && at <= |bridge.hub.wires[conn].attempts|
    && exists m <- bridge.hub.wires[conn].attempts[..at] :: m.taskId == id
  }

  /** How many messages have been written to a connection. */
  function WrittenTo(bridge: HubSystem.System<Prompt>, conn: nat): nat {
    if conn in bridge.hub.wires then |bridge.hub.wires[conn].attempts| else 0
  }

  /** Some peer of the bridge has sent a message with this id. */
  ghost predicate Aired(bridge: HubSystem.System<Prompt>, id: string) {
    exists c: nat, m :: c < |bridge.peers| && m in bridge.peers[c].sent && m.taskId == id
  }

  ghost predicate Fresh(w: World, id: string) {
    !Aired(w.bridge, id) && forall run <- w.runs :: run.id != Some(id)
  }

  ghost predicate ReplyOfRun(runs: seq<Run>, t: nat, reply: RunReply) {
    exists run <- runs :: run.caller == t && run.reply == Some(reply)
  }

  predicate Running(w: World, r: nat) {
    r < |w.runs| && w.runs[r].reply.None?
  }

  /** The step of the bridge that a step of the world takes, if any. */
  function HubStep(w: World, step: Step): Option<HubSystem.Step<Prompt>> {
    match step
    case Bridge(b) => Some(b)
    case Join => Some(HubSystem.Accept)
    case Dial(_) => Some(HubSystem.Accept)
    case OtherSend(c, m) => Some(HubSystem.PeerSend(c, m))
    case Publish(r) =>
      if r < |w.runs| && w.runs[r].conn.Some? then Some(HubSystem.PeerSend(w.runs[r].conn.value, Message(w, r)))
      else None
    case _ => None
  }

  /** The step of the server that a step of the world takes, if any. */
  function ServerStep(step: Step): Option<ServerSystem.Step> {
    match step
    case Server(own) => Some(own)
    case Ask(_, id, v) => Some(ServerSystem.Step.Call(ServerSystem.Store(Provide(id, v))))
    case _ => None
  }

  ghost predicate MayTake(w: World, step: Step) {
    match step
    case Bridge(b) => !b.External()
    case Join => true
    case OtherSend(c, m) =>
      && (forall run <- w.runs :: run.conn != Some(c))
      && (forall run <- w.runs :: run.id == Some(m.taskId) ==> run.sent)
    case Server(own) =>
      && (own.Call? && own.call.Store? && own.call.op.Provide? ==> own.call.op.id == "")
      && (own.ToolReturn? && own.reply.Response? && own.t < |w.server.handlers|
            && ForHuman(w.server.handlers[own.t].call) ==>
          ReplyOfRun(w.runs, own.t, own.reply))
    case Ask(c, id, _) => id != "" && Carried(w.bridge, c, id, WrittenTo(w.bridge, c))
    case Dial(r) => Running(w, r) && w.runs[r].conn.None? && PromptOfRun(w, r).Some?
    case NewId(r, id) =>
      Running(w, r) && w.runs[r].conn.Some? && w.runs[r].id.None? && id != "" && Fresh(w, id)
    case Publish(r) => Running(w, r) && w.runs[r].conn.Some? && w.runs[r].id.Some? && !w.runs[r].sent
    case Respond(r) => Running(w, r) && w.runs[r].id.Some? && w.runs[r].sent
    case Fail(r, error) => Running(w, r) && error != ""
  }

  ghost predicate Enabled(w: World, step: Step) {
    && MayTake(w, step)
    && (HubStep(w, step).Some? ==> HubSystem.Enabled(w.bridge, HubStep(w, step).value))
    && (ServerStep(step).Some? ==> ServerSystem.Enabled(w.server, ServerStep(step).value))
  }

  /** Calling the tool's Run starts a run. */
  ghost function RunsAfter(w: World, step: Step): seq<Run>
    requires MayTake(w, step)
  {
    match step
    case Server(own) =>
      if own.Forward? && own.t < |w.server.handlers| && ForHuman(w.server.handlers[own.t].call)
      then w.runs + [Run(own.t, None, None, false, None)]
      else w.runs
    case Dial(r) => w.runs[r := w.runs[r].(conn := Some(|w.bridge.peers|))]
    case NewId(r, id) => w.runs[r := w.runs[r].(id := Some(id))]
    case Publish(r) => w.runs[r := w.runs[r].(sent := true)]
    case Respond(r) => w.runs[r := w.runs[r].(reply := Some(Response("", Struct(Waiting(w.runs[r].id.value)))))]
    case Fail(r, error) => w.runs[r := w.runs[r].(reply := Some(Response(error, Scalar(""))))]
    case _ => w.runs
  }

  function EventsAfter(w: World, step: Step): seq<Event> {
    match step
    case Publish(r) => w.events + [Publishes(r, Message(w, r), |w.server.lin|)]
    case Ask(c, id, _) => w.events + [Provides(|w.server.handlers|, c, id, WrittenTo(w.bridge, c))]
    case _ => w.events
  }

  ghost function Apply(w: World, step: Step): World
    requires Enabled(w, step)
  {
    var hub, own := HubStep(w, step), ServerStep(step);
    World(
      if hub.Some? then HubSystem.Apply(w.bridge, hub.value) else w.bridge,
      if own.Some? then ServerSystem.Apply(w.server, own.value) else w.server,
      RunsAfter(w, step),
      EventsAfter(w, step))
  }

  ghost predicate CanRun(w: World, steps: seq<Step>)
    decreases |steps|
  {
    steps == [] || (Enabled(w, steps[0]) && CanRun(Apply(w, steps[0]), steps[1..]))
  }

  ghost function RunOf(w: World, steps: seq<Step>): World
    requires CanRun(w, steps)
    decreases |steps|
  {
    if steps == [] then w else RunOf(Apply(w, steps[0]), steps[1..])
  }

  ghost predicate Reachable(w: World) {
    exists start, steps :: IsInit(start) && CanRun(start, steps) && w == RunOf(start, steps)
  }

  lemma {:induction false} RunAppend(w: World, steps: seq<Step>, step: Step)
    requires CanRun(w, steps) && Enabled(RunOf(w, steps), step)
    ensures CanRun(w, steps + [step]) && RunOf(w, steps + [step]) == Apply(RunOf(w, steps), step)
    decreases |steps|
  {
    if steps != [] {
      RunAppend(Apply(w, steps[0]), steps[1..], step);
      assert (steps + [step])[1..] == steps[1..] + [step];
    }
  }

  lemma ReachableStep(w: World, step: Step)
    requires Reachable(w) && Enabled(w, step)
    ensures Reachable(Apply(w, step))
  {
    var start, steps :| IsInit(start) && CanRun(start, steps) && w == RunOf(start, steps);
    RunAppend(start, steps, step);
  }

  lemma ReachableStart(w: World)
    requires IsInit(w)
    ensures Reachable(w)
  {
    assert CanRun(w, []) && w == RunOf(w, []);
  }

  // ---- The invariant ----

  /** Run `r` published its message before event `k`, when no more than `lin` store operations had taken effect. */
  ghost predicate PublishedBefore(events: seq<Event>, k: nat, r: nat, m: Prompt, lin: nat) {
    exists i: nat :: i < k && i < |events| && IsPublish(events[i], r, m, lin)
  }

  predicate IsPublish(e: Event, r: nat, m: Prompt, lin: nat) {
    e.Publishes? && e.run == r && e.m == m && e.lin <= lin
  }

  /** A run belongs to a request that the server has forwarded. */
  ghost predicate CallerOk(w: World, r: nat)
    requires r < |w.runs|
  {
    var t := w.runs[r].caller;
    t < |w.server.handlers| && ForHuman(w.server.handlers[t].call) && ToolInvariant.HasForwarded(w.server.handlers[t])
  }

  /** An id is secret until it is sent; once it is, the prompt of the request has been published under it. */
  ghost predicate IdOk(w: World, r: nat)
    requires r < |w.runs|
  {
    var run := w.runs[r];
    && (run.conn.Some? ==> PromptOfRun(w, r).Some?)
    && (run.id.Some? ==> run.conn.Some? && run.id.value != "")
    && (run.id.Some? && !run.sent ==> !Aired(w.bridge, run.id.value))
    && (run.sent ==> run.id.Some? && PublishedBefore(w.events, |w.events|, r, Message(w, r), |w.server.lin|))
  }

  ghost predicate ReplyOk(run: Run) {
    match run.reply
    case None => true
    case Some(RpcFailed) => false
    case Some(Response(error, result)) =>
      error == "" ==> run.sent && run.id.Some? && result == Struct(Waiting(run.id.value))
  }

  ghost predicate RunOk(w: World, r: nat)
    requires r < |w.runs|
  {
    CallerOk(w, r) && IdOk(w, r) && ReplyOk(w.runs[r])
  }

  ghost predicate RunsOk(w: World) {
    && (forall r: nat | r < |w.runs| :: RunOk(w, r))
    && (forall q, r | 0 <= q < r < |w.runs| :: w.runs[q].caller != w.runs[r].caller)
    && (forall q, r | 0 <= q < r < |w.runs| :: w.runs[q].id.Some? ==> w.runs[q].id != w.runs[r].id)
  }

  /**
    An answer was provided by an operator who had been sent the id, after every run with that id had published
    its message.
   */
  ghost predicate EventOk(w: World, k: nat)
    requires k < |w.events|
  {
    w.events[k].Provides? ==>
      var e := w.events[k];
      && e.t < |w.server.handlers| && e.id != ""
      && w.server.handlers[e.t].call.Store? && w.server.handlers[e.t].call.op.Provide?
      && w.server.handlers[e.t].call.op.id == e.id
      && Carried(w.bridge, e.conn, e.id, e.at)
      && forall r: nat | r < |w.runs| && w.runs[r].id == Some(e.id) ::
           PublishedBefore(w.events, k, r, Message(w, r), w.server.handlers[e.t].since)
  }

  ghost predicate HasEvent(events: seq<Event>, t: nat) {
    exists e <- events :: e.Provides? && e.t == t
  }

  /** Answers that a tool has given, be it a result or an error. */
  predicate FromTool(result: ExecuteResult) {
    result.Executed? || result.Aborted?
  }

  /** Every effective ProvideHumanInput is an operator's; a request for a human is answered by its run. */
  ghost predicate HandlerOk(w: World, t: nat)
    requires t < |w.server.handlers|
  {
    var h := w.server.handlers[t];
    && (h.call.Store? && h.call.op.Provide? && h.call.op.id != "" ==> HasEvent(w.events, t))
    && (ForHuman(h.call) && h.pc.Done? && h.pc.outcome.Answered? && FromTool(h.pc.outcome.result) ==>
          AnsweredByRun(w.runs, t, h.call.taskId, h.pc.outcome.result))
  }

  ghost predicate AnsweredByRun(runs: seq<Run>, t: nat, taskId: string, result: ExecuteResult) {
    exists run <- runs :: run.caller == t && run.reply.Some? && result == ExecuteReturns(taskId, run.reply.value)
  }

  ghost predicate Inv(w: World) {
    && HubSystem.Inv(w.bridge)
    && ServerSystem.Reachable(w.server)
    && RunsOk(w)
    && (forall k: nat | k < |w.events| :: EventOk(w, k))
    && (forall t: nat | t < |w.server.handlers| :: HandlerOk(w, t))
  }

  // ---- What the parts keep ----

  lemma StepKeepsBridge(w: World, step: Step)
    requires HubSystem.Inv(w.bridge) && Enabled(w, step)
    ensures HubSystem.Inv(Apply(w, step).bridge)
  {
    if HubStep(w, step).Some? {
      HubSystem.StepKeepsInv(w.bridge, HubStep(w, step).value);
    }
  }

  lemma StepKeepsServer(w: World, step: Step)
    requires ServerSystem.Reachable(w.server) && Enabled(w, step)
    ensures ServerSystem.Reachable(Apply(w, step).server)
  {
    if ServerStep(step).Some? {
      ServerSystem.ReachableStep(w.server, ServerStep(step).value);
    }
  }

  /** What no step of the server changes about its handlers. */
  ghost predicate ServerKept(s: ServerSystem.State, t: ServerSystem.State) {
    && |s.handlers| <= |t.handlers| && |s.lin| <= |t.lin|
    && forall i: nat | i < |s.handlers| :: HandlerKept(s.handlers[i], t.handlers[i])
  }

  ghost predicate HandlerKept(h: ServerSystem.Handler, h': ServerSystem.Handler) {
    && h'.call == h.call && h'.since == h.since
    && (ToolInvariant.HasForwarded(h) ==> ToolInvariant.HasForwarded(h'))
    && (h.pc.Done? ==> h' == h)
  }

  lemma ForwardedKept(s: ServerSystem.State, step: ServerSystem.Step, t: nat)
    requires ToolInvariant.ToolInv(s) && ServerSystem.Enabled(s, step) && t < |s.handlers|
    ensures t < |ServerSystem.Apply(s, step).handlers|
    ensures var h, h' := s.handlers[t], ServerSystem.Apply(s, step).handlers[t];
      h'.call == h.call && (ToolInvariant.HasForwarded(h) ==> ToolInvariant.HasForwarded(h'))
  {
    if step.Forward? {
      ServerSystem.OthersStay(s, step, t);
    } else {
      ToolInvariant.ForwardedStays(s, step, t);
    }
  }

  lemma ServerStepKeeps(s: ServerSystem.State, t: ServerSystem.State, step: ServerSystem.Step)
    requires ToolInvariant.ToolInv(s) && ServerSystem.Enabled(s, step) && t == ServerSystem.Apply(s, step)
    ensures ServerKept(s, t)
  {
    StoreTheorems.StepKeepsHistory(s, step);
    forall i: nat | i < |s.handlers| ensures HandlerKept(s.handlers[i], t.handlers[i]) {
      ForwardedKept(s, step, i);
      StoreTheorems.StepKeepsDone(s, step, i);
    }
  }

  lemma StepKeepsHandlers(w: World, step: Step)
    requires ServerSystem.Reachable(w.server) && Enabled(w, step)
    ensures ServerKept(w.server, Apply(w, step).server)
  {
    ToolInvariant.ReachableToolInv(w.server);
    if ServerStep(step).Some? {
      ServerStepKeeps(w.server, Apply(w, step).server, ServerStep(step).value);
    }
  }

  /** What no step changes about a run. */
  ghost predicate RunKept(run: Run, run': Run) {
    && run'.caller == run.caller
    && (run.conn.Some? ==> run'.conn == run.conn)
    && (run.id.Some? ==> run'.id == run.id)
    && (run.sent ==> run'.sent)
    && (run.reply.Some? ==> run' == run)
  }

  lemma StepKeepsRuns(w: World, step: Step)
    requires Enabled(w, step)
    ensures |w.runs| <= |RunsAfter(w, step)|
    ensures forall r | 0 <= r < |w.runs| :: RunKept(w.runs[r], RunsAfter(w, step)[r])
    ensures w.events <= EventsAfter(w, step)
  {
  }

  /** The prompt of a run, and its message once it has an id, stay. */
  lemma MessageKept(w: World, w': World, r: nat)
    requires ServerKept(w.server, w'.server) && r < |w.runs| && r < |w'.runs| && RunKept(w.runs[r], w'.runs[r])
    requires CallerOk(w, r)
    ensures CallerOk(w', r) && PromptOfRun(w', r) == PromptOfRun(w, r)
    ensures w'.runs[r].id == w.runs[r].id ==> Message(w', r) == Message(w, r)
  {
    assert HandlerKept(w.server.handlers[w.runs[r].caller], w'.server.handlers[w.runs[r].caller]);
  }

  lemma PublishedStays(events: seq<Event>, events': seq<Event>, k: nat, r: nat, m: Prompt, lin: nat, lin': nat)
    requires PublishedBefore(events, k, r, m, lin) && events <= events' && lin <= lin'
    ensures PublishedBefore(events', k, r, m, lin')
  {
    var i: nat :| i < k && i < |events| && IsPublish(events[i], r, m, lin);
    assert IsPublish(events'[i], r, m, lin');
  }

  // ---- Ids ----

  lemma SentIsAired(s: HubSystem.System<Prompt>, step: HubSystem.Step<Prompt>, id: string)
    requires HubSystem.Enabled(s, step) && Aired(HubSystem.Apply(s, step), id)
    ensures Aired(s, id) || (step.PeerSend? && step.m.taskId == id)
  {
    var t := HubSystem.Apply(s, step);
    var c: nat, m :| c < |t.peers| && m in t.peers[c].sent && m.taskId == id;
    assert c < |s.peers| ==> m in s.peers[c].sent || (step.PeerSend? && m == step.m);
  }

  /** Only its own run brings an id into the air that has not been sent yet. */
  lemma StepAirs(w: World, step: Step, r: nat)
    requires RunsOk(w) && Enabled(w, step) && r < |w.runs| && w.runs[r].id.Some? && !w.runs[r].sent
    requires Aired(Apply(w, step).bridge, w.runs[r].id.value)
    ensures step == Publish(r)
  {
    assert RunOk(w, r);
    var hub := HubStep(w, step);
    assert hub.Some?;
    SentIsAired(w.bridge, hub.value, w.runs[r].id.value);
  }

  lemma CarriedIsAired(bridge: HubSystem.System<Prompt>, conn: nat, id: string, at: nat)
    requires HubSystem.Inv(bridge) && Carried(bridge, conn, id, at)
    ensures Aired(bridge, id)
  {
    var attempts := bridge.hub.wires[conn].attempts;
    var m :| m in attempts[..at] && m.taskId == id;
    assert m in attempts;
    var author := HubTheorems.FrameHasAuthor(bridge, conn, m);
  }

  /** Publishing is an event of its own. */
  lemma PublishIsEvent(w: World, w': World, r: nat)
    requires Enabled(w, Publish(r)) && w' == Apply(w, Publish(r)) && CallerOk(w, r) && RunsOk(w)
    ensures PublishedBefore(w'.events, |w'.events|, r, Message(w, r), |w'.server.lin|)
  {
    assert IsPublish(w'.events[|w.events|], r, Message(w, r), |w'.server.lin|);
  }

  lemma StepKeepsId(w: World, w': World, step: Step, r: nat)
    requires RunsOk(w) && ServerKept(w.server, w'.server) && Enabled(w, step) && w' == Apply(w, step)
    requires r < |w.runs|
    ensures r < |w'.runs| && IdOk(w', r)
  {
    StepKeepsRuns(w, step);
    assert RunOk(w, r) && RunKept(w.runs[r], w'.runs[r]);
    MessageKept(w, w', r);
    if w.runs[r].sent {
      PublishedStays(w.events, w'.events, |w.events|, r, Message(w, r), |w.server.lin|, |w'.server.lin|);
    } else if step == Publish(r) {
      PublishIsEvent(w, w', r);
    }
    if w.runs[r].id.Some? && !w'.runs[r].sent && Aired(w'.bridge, w.runs[r].id.value) {
      StepAirs(w, step, r);
    }
  }

  lemma StepKeepsReply(w: World, step: Step, r: nat)
    requires RunsOk(w) && Enabled(w, step) && r < |w.runs|
    ensures r < |RunsAfter(w, step)| && ReplyOk(RunsAfter(w, step)[r])
  {
    assert RunOk(w, r);
  }

  /** A run that starts belongs to a request that is just being forwarded. */
  lemma NewRunIsOk(w: World, w': World, step: Step, r: nat)
    requires ServerSystem.Reachable(w.server) && RunsOk(w) && Enabled(w, step) && w' == Apply(w, step)
    requires |w.runs| <= r < |w'.runs|
    ensures RunOk(w', r) && r == |w.runs| && w'.runs == w.runs + [w'.runs[r]] && w'.runs[r].id.None?
    ensures forall q: nat | q < |w.runs| :: w.runs[q].caller != w'.runs[r].caller
  {
    forall q: nat | q < |w.runs| ensures w.runs[q].caller != w'.runs[r].caller {
      assert RunOk(w, q);
    }
  }

  lemma StepKeepsRunOk(w: World, w': World, step: Step, r: nat)
    requires ServerSystem.Reachable(w.server) && RunsOk(w) && ServerKept(w.server, w'.server)
    requires Enabled(w, step) && w' == Apply(w, step) && r < |w'.runs|
    ensures RunOk(w', r)
  {
    if r < |w.runs| {
      StepKeepsRuns(w, step);
      assert RunOk(w, r) && RunKept(w.runs[r], w'.runs[r]);
      MessageKept(w, w', r);
      StepKeepsId(w, w', step, r);
      StepKeepsReply(w, step, r);
    } else {
      NewRunIsOk(w, w', step, r);
    }
  }

  /** An id that a run gets in this step is nobody else's. */
  lemma NewIdIsOwn(w: World, step: Step, q: nat, r: nat)
    requires Enabled(w, step) && q < |w.runs| && r < |w.runs| && q != r
    requires w.runs[q].id.Some? ==> w.runs[q].id != w.runs[r].id
    requires RunsAfter(w, step)[q].id.Some?
    ensures RunsAfter(w, step)[q].id != RunsAfter(w, step)[r].id
  {
    assert w.runs[q] in w.runs && w.runs[r] in w.runs;
  }

  lemma StepKeepsRunsOk(w: World, w': World, step: Step)
    requires ServerSystem.Reachable(w.server) && RunsOk(w) && ServerKept(w.server, w'.server)
    requires Enabled(w, step) && w' == Apply(w, step)
    ensures RunsOk(w')
  {
    StepKeepsRuns(w, step);
    forall r: nat | r < |w'.runs| ensures RunOk(w', r) {
      StepKeepsRunOk(w, w', step, r);
    }
    forall q: nat, r: nat | q < r < |w'.runs|
      ensures w'.runs[q].caller != w'.runs[r].caller
      ensures w'.runs[q].id.Some? ==> w'.runs[q].id != w'.runs[r].id
    {
      if r < |w.runs| {
        assert RunKept(w.runs[q], w'.runs[q]) && RunKept(w.runs[r], w'.runs[r]);
        if w'.runs[q].id.Some? { NewIdIsOwn(w, step, q, r); }
      } else {
        NewRunIsOk(w, w', step, r);
      }
    }
  }

  // ---- Answers ----

  lemma CarriedStays(w: World, step: Step, conn: nat, id: string, at: nat)
    requires HubSystem.Inv(w.bridge) && Enabled(w, step) && Carried(w.bridge, conn, id, at)
    ensures Carried(Apply(w, step).bridge, conn, id, at)
  {
    if HubStep(w, step).Some? {
      HubTheorems.StepKeepsWire(w.bridge, HubStep(w, step).value, conn);
      var before, after := w.bridge.hub.wires[conn].attempts, Apply(w, step).bridge.hub.wires[conn].attempts;
      assert after[..at] == before[..at];
    }
  }

  /** When an operator answers, every run with the id has published its message. */
  lemma AskedAfterPublish(w: World, conn: nat, id: string, at: nat, r: nat)
    requires HubSystem.Inv(w.bridge) && RunsOk(w) && Carried(w.bridge, conn, id, at)
    requires r < |w.runs| && w.runs[r].id == Some(id)
    ensures PublishedBefore(w.events, |w.events|, r, Message(w, r), |w.server.lin|)
  {
    CarriedIsAired(w.bridge, conn, id, at);
    assert RunOk(w, r);
  }

  /** No run gets an id that has been seen. */
  lemma CarriedIsNotFresh(w: World, step: Step, conn: nat, id: string, at: nat, r: nat)
    requires HubSystem.Inv(w.bridge) && Enabled(w, step) && Carried(w.bridge, conn, id, at)
    requires r < |RunsAfter(w, step)| && RunsAfter(w, step)[r].id == Some(id)
    ensures r < |w.runs| && w.runs[r].id == Some(id)
  {
    CarriedIsAired(w.bridge, conn, id, at);
  }

  lemma OldEventStays(w: World, w': World, step: Step, k: nat)
    requires Inv(w) && ServerKept(w.server, w'.server) && Enabled(w, step) && w' == Apply(w, step)
    requires k < |w.events|
    ensures k < |w'.events| && EventOk(w', k)
  {
    StepKeepsRuns(w, step);
    var e := w.events[k];
    assert EventOk(w, k) && w'.events[k] == e;
    if e.Provides? {
      assert HandlerKept(w.server.handlers[e.t], w'.server.handlers[e.t]);
      CarriedStays(w, step, e.conn, e.id, e.at);
      forall r: nat | r < |w'.runs| && w'.runs[r].id == Some(e.id)
        ensures PublishedBefore(w'.events, k, r, Message(w', r), w'.server.handlers[e.t].since)
      {
        CarriedIsNotFresh(w, step, e.conn, e.id, e.at, r);
        assert RunOk(w, r) && RunKept(w.runs[r], w'.runs[r]);
        MessageKept(w, w', r);
        var since := w.server.handlers[e.t].since;
        PublishedStays(w.events, w'.events, k, r, Message(w, r), since, since);
      }
    }
  }

  lemma AskIsOk(w: World, w': World, conn: nat, id: string, v: Value)
    requires Inv(w) && ServerKept(w.server, w'.server)
    requires Enabled(w, Ask(conn, id, v)) && w' == Apply(w, Ask(conn, id, v))
    ensures EventOk(w', |w.events|)
  {
    var at := WrittenTo(w.bridge, conn);
    forall r: nat | r < |w'.runs| && w'.runs[r].id == Some(id)
      ensures PublishedBefore(w'.events, |w.events|, r, Message(w', r), |w.server.lin|)
    {
      AskedAfterPublish(w, conn, id, at, r);
      assert RunOk(w, r);
      MessageKept(w, w', r);
      PublishedStays(w.events, w'.events, |w.events|, r, Message(w, r), |w.server.lin|, |w.server.lin|);
    }
  }

  lemma StepKeepsEvents(w: World, w': World, step: Step, k: nat)
    requires Inv(w) && ServerKept(w.server, w'.server) && Enabled(w, step) && w' == Apply(w, step)
    requires k < |w'.events|
    ensures EventOk(w', k)
  {
    if k < |w.events| {
      OldEventStays(w, w', step, k);
    } else if step.Ask? {
      AskIsOk(w, w', step.conn, step.id, step.value);
    }
  }

  /** Only its own step finishes a handler. */
  lemma OwnStepFinishes(s: ServerSystem.State, step: ServerSystem.Step, t: nat)
    requires ServerSystem.Enabled(s, step) && t < |s.handlers| && !s.handlers[t].pc.Done?
    requires t < |ServerSystem.Apply(s, step).handlers| && ServerSystem.Apply(s, step).handlers[t].pc.Done?
    ensures !ServerSystem.OfSweep(step) && !step.Call? && step.t == t
    ensures step.Unlock? || step.CheckStatus? || step.ToolReturn?
  {
    ServerSystem.OthersStay(s, step, t);
  }

  /** The only step that completes a forwarded request is the return of its call of Run. */
  lemma ExecutedByReturn(s: ServerSystem.State, step: ServerSystem.Step, t: nat)
    requires ToolInvariant.ToolInv(s) && ServerSystem.Enabled(s, step) && t < |s.handlers| && !s.handlers[t].pc.Done?
    requires t < |ServerSystem.Apply(s, step).handlers|
    requires var h' := ServerSystem.Apply(s, step).handlers[t];
      h'.pc.Done? && h'.pc.outcome.Answered? && FromTool(h'.pc.outcome.result)
    ensures step.ToolReturn? && step.t == t && s.handlers[t].call.ExecuteTool?
    ensures ServerSystem.Apply(s, step).handlers[t].pc.outcome.result
         == ExecuteReturns(s.handlers[t].call.taskId, step.reply)
  {
    OwnStepFinishes(s, step, t);
    assert ToolInvariant.HandlerFound(s, s.handlers[t]);
  }

  lemma AnsweredStays(runs: seq<Run>, runs': seq<Run>, t: nat, taskId: string, result: ExecuteResult)
    requires AnsweredByRun(runs, t, taskId, result) && |runs| <= |runs'|
    requires forall r | 0 <= r < |runs| :: RunKept(runs[r], runs'[r])
    ensures AnsweredByRun(runs', t, taskId, result)
  {
    var run :|
      run in runs && run.caller == t && run.reply.Some? && result == ExecuteReturns(taskId, run.reply.value);
    var r: nat :| r < |runs| && runs[r] == run;
    assert RunKept(runs[r], runs'[r]) && runs'[r] in runs';
  }

  lemma StepKeepsAnswered(w: World, w': World, step: Step, t: nat)
    requires Inv(w) && ServerKept(w.server, w'.server) && Enabled(w, step) && w' == Apply(w, step)
    requires t < |w.server.handlers| && ForHuman(w.server.handlers[t].call)
    requires var h' := w'.server.handlers[t];
      h'.pc.Done? && h'.pc.outcome.Answered? && FromTool(h'.pc.outcome.result)
    ensures AnsweredByRun(w'.runs, t, w.server.handlers[t].call.taskId, w'.server.handlers[t].pc.outcome.result)
  {
    var h := w.server.handlers[t];
    assert HandlerKept(h, w'.server.handlers[t]) && HandlerOk(w, t);
    StepKeepsRuns(w, step);
    if h.pc.Done? {
      AnsweredStays(w.runs, w'.runs, t, h.call.taskId, h.pc.outcome.result);
    } else {
      ToolInvariant.ReachableToolInv(w.server);
      ExecutedByReturn(w.server, ServerStep(step).value, t);
    }
  }

  lemma NewHandlerWaits(s: ServerSystem.State, step: ServerSystem.Step, t: nat)
    requires ServerSystem.Enabled(s, step) && |s.handlers| <= t < |ServerSystem.Apply(s, step).handlers|
    ensures ServerSystem.Apply(s, step).handlers[t].pc.Called?
  {
  }

  lemma NewHandlerIsCall(s: ServerSystem.State, step: ServerSystem.Step, t: nat)
    requires ServerSystem.Enabled(s, step) && |s.handlers| <= t < |ServerSystem.Apply(s, step).handlers|
    ensures step.Call? && t == |s.handlers| && ServerSystem.Apply(s, step).handlers[t].call == step.call
  {
  }

  /** A new call that brings an answer is an operator's, and an event of its own. */
  lemma NewCallHasEvent(w: World, w': World, step: Step, t: nat)
    requires Enabled(w, step) && w' == Apply(w, step) && |w.server.handlers| <= t < |w'.server.handlers|
    ensures var call := w'.server.handlers[t].call;
      call.Store? && call.op.Provide? && call.op.id != "" ==> HasEvent(w'.events, t)
  {
    assert ServerStep(step).Some?;
    NewHandlerIsCall(w.server, ServerStep(step).value, t);
    if step.Ask? {
      assert w'.events[|w.events|].t == t;
    }
  }

  lemma ProvideHasEvent(w: World, w': World, step: Step, t: nat)
    requires Inv(w) && ServerKept(w.server, w'.server) && Enabled(w, step) && w' == Apply(w, step)
    requires t < |w'.server.handlers|
    ensures var call := w'.server.handlers[t].call;
      call.Store? && call.op.Provide? && call.op.id != "" ==> HasEvent(w'.events, t)
  {
    if t < |w.server.handlers| {
      StepKeepsRuns(w, step);
      assert HandlerKept(w.server.handlers[t], w'.server.handlers[t]) && HandlerOk(w, t);
    } else {
      NewCallHasEvent(w, w', step, t);
    }
  }

  /** A new handler has not been answered. */
  lemma AnsweredByItsRun(w: World, w': World, step: Step, t: nat)
    requires Inv(w) && ServerKept(w.server, w'.server) && Enabled(w, step) && w' == Apply(w, step)
    requires t < |w'.server.handlers|
    requires var h' := w'.server.handlers[t];
      ForHuman(h'.call) && h'.pc.Done? && h'.pc.outcome.Answered? && FromTool(h'.pc.outcome.result)
    ensures var h' := w'.server.handlers[t]; AnsweredByRun(w'.runs, t, h'.call.taskId, h'.pc.outcome.result)
  {
    if t < |w.server.handlers| {
      assert HandlerKept(w.server.handlers[t], w'.server.handlers[t]);
      StepKeepsAnswered(w, w', step, t);
    } else {
      NewHandlerWaits(w.server, ServerStep(step).value, t);
    }
  }

  lemma StepKeepsHandlerOk(w: World, w': World, step: Step, t: nat)
    requires Inv(w) && ServerKept(w.server, w'.server) && Enabled(w, step) && w' == Apply(w, step)
    requires t < |w'.server.handlers|
    ensures HandlerOk(w', t)
  {
    ProvideHasEvent(w, w', step, t);
    var h' := w'.server.handlers[t];
    if ForHuman(h'.call) && h'.pc.Done? && h'.pc.outcome.Answered? && FromTool(h'.pc.outcome.result) {
      AnsweredByItsRun(w, w', step, t);
    }
  }

  lemma StepKeepsInv(w: World, step: Step)
    requires Inv(w) && Enabled(w, step)
    ensures Inv(Apply(w, step))
  {
    var w' := Apply(w, step);
    StepKeepsBridge(w, step);
    StepKeepsServer(w, step);
    StepKeepsHandlers(w, step);
    StepKeepsRunsOk(w, w', step);
    forall k: nat | k < |w'.events| ensures EventOk(w', k) {
      StepKeepsEvents(w, w', step, k);
    }
    forall t: nat | t < |w'.server.handlers| ensures HandlerOk(w', t) {
      StepKeepsHandlerOk(w, w', step, t);
    }
  }

  lemma {:induction false} RunKeepsInv(w: World, steps: seq<Step>)
    requires Inv(w) && CanRun(w, steps)
    ensures Inv(RunOf(w, steps))
    decreases |steps|
  {
    if steps != [] {
      StepKeepsInv(w, steps[0]);
      RunKeepsInv(Apply(w, steps[0]), steps[1..]);
    }
  }

  lemma InitInv(w: World)
    requires IsInit(w)
    ensures Inv(w)
  {
    var tools, records :|
      ServerSystem.Discovered(tools, records) && w.server == ServerSystem.Init(tools, records);
    ServerSystem.ReachableInit(tools, records);
  }

  lemma ReachableInv(w: World)
    requires Reachable(w)
    ensures Inv(w)
  {
    var start, steps :| IsInit(start) && CanRun(start, steps) && w == RunOf(start, steps);
    InitInv(start);
    RunKeepsInv(start, steps);
  }
}
