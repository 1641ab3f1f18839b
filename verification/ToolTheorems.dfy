/**
  Tools under concurrent health sweeps: `ListTools` sees a state between sweeps; `ExecuteTool`, which reads the
  status after it has released the lock, may see an older one or one of a sweep in progress, but calls no other
  tool than the one registered under the requested name. And what a health check without an answer blocks.
 */
module ToolTheorems {
  import opened Wrappers
  import opened ServerSpec
  import opened ServerSystem
  import opened LockOrder
  import opened ToolInvariant
  import opened RaceTheorems

  // ---- ListTools ----

  /**
    A completed sweep has asked every tool, and has left each as its check said: not serving if the check failed,
    otherwise with the status that was reported.
   */
  lemma SweepRecordsReplies(s: State, i: nat, n: string)
    requires Reachable(s) && i < |s.rounds| && n in s.tools
    ensures |s.sweeps| == |s.rounds| + 1 && n in s.rounds[i] && n in s.sweeps[i + 1]
    ensures s.rounds[i][n].Failed? ==> s.sweeps[i + 1][n] == NOT_SERVING
    ensures forall st :: s.rounds[i][n] == Replied(st) ==> s.sweeps[i + 1][n] == st
  {
    ReachableToolInv(s);
  }

  lemma ListIsSweep(s: State, t: nat) returns (k: nat)
    requires Reachable(s) && t < |s.handlers| && s.handlers[t].pc.Done? && s.handlers[t].pc.outcome.Tools?
    ensures s.handlers[t].sweepsBefore - 1 <= k < |s.sweeps| == |s.rounds| + 1
    ensures NoRepeats(s.handlers[t].pc.outcome.list)
    ensures forall d :: d in s.handlers[t].pc.outcome.list <==>
      && d.name in s.tools && s.tools[d.name] < |s.records| && s.records[s.tools[d.name]].description == d
      && d.name in s.sweeps[k] && s.sweeps[k][d.name] == SERVING
  {
    ReachableToolInv(s);
    assert HandlerFound(s, s.handlers[t]);
    k := s.handlers[t].point.value - 1;
    assert ListsServing(s.handlers[t].pc.outcome.list, s.sweeps[k], DescriptionsOf(s.tools, s.records));
  }

  /**
    Snapshot: a finished ListTools returned exactly the descriptions of the serving tools, each once, of the state
    after some whole number `k` of sweeps, at least those completed when it was called: of the tools that discovery
    found serving, or of those that answered the health check of the `k`-th sweep with SERVING.
   */
  lemma ListIsSnapshot(s: State, t: nat) returns (k: nat)
    requires Reachable(s) && t < |s.handlers| && s.handlers[t].pc.Done? && s.handlers[t].pc.outcome.Tools?
    ensures s.handlers[t].sweepsBefore - 1 <= k < |s.sweeps| == |s.rounds| + 1
    ensures NoRepeats(s.handlers[t].pc.outcome.list)
    ensures forall d :: d in s.handlers[t].pc.outcome.list <==>
      && d.name in s.tools && s.tools[d.name] < |s.records| && s.records[s.tools[d.name]].description == d
      && d.name in s.sweeps[k] && s.sweeps[k][d.name] == SERVING
    ensures k > 0 ==> forall d :: d in s.handlers[t].pc.outcome.list <==>
      && d.name in s.tools && s.tools[d.name] < |s.records| && s.records[s.tools[d.name]].description == d
      && d.name in s.rounds[k - 1] && s.rounds[k - 1][d.name] == Replied(SERVING)
  {
    k := ListIsSweep(s, t);
    if k > 0 {
      forall n <- s.tools
        ensures n in s.rounds[k - 1] && n in s.sweeps[k]
        ensures s.sweeps[k][n] == SERVING <==> s.rounds[k - 1][n] == Replied(SERVING)
      {
        SweepRecordsReplies(s, k - 1, n);
      }
    }
  }

  /** A call of ListTools sees no state older than the last sweep that was over when it was made. */
  lemma ListIsRecent(s: State, steps: seq<Step>, t: nat) returns (k: nat)
    requires Reachable(s) && CanRun(s, steps) && |s.handlers| <= t < |RunOf(s, steps).handlers|
    requires RunOf(s, steps).handlers[t].pc.Done? && RunOf(s, steps).handlers[t].pc.outcome.Tools?
    ensures |s.sweeps| - 1 <= k < |RunOf(s, steps).sweeps|
    ensures var s' := RunOf(s, steps);
      forall d :: d in s'.handlers[t].pc.outcome.list <==>
        && d.name in s'.tools && s'.tools[d.name] < |s'.records| && s'.records[s'.tools[d.name]].description == d
        && d.name in s'.sweeps[k] && s'.sweeps[k][d.name] == SERVING
  {
    ReachableToolInv(s);
    RunKeepsToolInv(s, steps);
    ReachableRun(s, steps);
    k := ListIsSweep(RunOf(s, steps), t);
  }

  /** No sweep is under way while a handler is listing. */
  lemma ListingExcludesSweep(s: State, t: nat)
    requires Reachable(s) && t < |s.handlers| && s.handlers[t].pc.Listing?
    ensures s.sweep.Resting?
  {
    ReachableToolInv(s);
    assert HandlerLockOk(s, t);
  }

  // ---- ExecuteTool: where requests go ----

  /** The registry stays the one discovery built, on every run; so do the tools' descriptions and connections. */
  lemma RegistryStays(s: State, steps: seq<Step>)
    requires Reachable(s) && CanRun(s, steps)
    ensures SameTools(s, RunOf(s, steps))
    ensures RegistryOk(RunOf(s, steps).tools, RunOf(s, steps).records)
    ensures s.sweeps <= RunOf(s, steps).sweeps
  {
    ReachableToolInv(s);
    RunKeepsToolInv(s, steps);
  }

  /**
    Routing. Every call of a Run went to the connection of the tool that is registered under the name the request
    asked for, and that gave itself this name; it carried the request's name and arguments; and its handler had
    read SERVING for that tool. No request is forwarded twice.
   */
  lemma ForwardGoesToNamedTool(s: State, i: nat)
    requires Reachable(s) && i < |s.forwards|
    ensures s.forwards[i].t < |s.handlers|
    ensures var request, call := s.handlers[s.forwards[i].t].call, s.forwards[i].call;
      && request.ExecuteTool? && request.name in s.tools && s.tools[request.name] < |s.records|
      && s.records[s.tools[request.name]].description.name == request.name
      && call == RunCall(s.records[s.tools[request.name]].conn, request.name, request.args)
    ensures var h := s.handlers[s.forwards[i].t]; h.seen.Some? && h.seen.value.status == SERVING
    ensures forall j: nat | j < |s.forwards| && s.forwards[j].t == s.forwards[i].t :: j == i
  {
    ReachableToolInv(s);
    assert ForwardOk(s, s.forwards[i]);
    assert HandlerFound(s, s.handlers[s.forwards[i].t]);
  }

  /** No connection is shared: what a call of a Run was addressed to tells which tool it was meant for. */
  lemma ForwardsToldApart(s: State, i: nat, j: nat)
    requires Reachable(s) && i < |s.forwards| && j < |s.forwards|
    ensures s.forwards[i].call.conn == s.forwards[j].call.conn <==> s.forwards[i].call.name == s.forwards[j].call.name
  {
    ReachableToolInv(s);
    assert ForwardOk(s, s.forwards[i]) && ForwardOk(s, s.forwards[j]);
  }

  /**
    A request that is finished was forwarded exactly if it was not answered NotFound; NotFound means that no tool
    has the name, or that the handler read another status than SERVING. A success carries the request's task id.
   */
  lemma ExecuteRouting(s: State, t: nat)
    requires Reachable(s) && t < |s.handlers| && s.handlers[t].pc.Done? && s.handlers[t].pc.outcome.Answered?
    ensures s.handlers[t].call.ExecuteTool?
    ensures HasForwarding(s, t) <==> !s.handlers[t].pc.outcome.result.NotFound?
    ensures var h := s.handlers[t];
      h.pc.outcome.result.NotFound? <==>
      h.call.name !in s.tools || (h.seen.Some? && h.seen.value.status != SERVING)
    ensures var h := s.handlers[t];
      h.pc.outcome.result.Executed? ==> h.pc.outcome.result.taskId == h.call.taskId
  {
    ReachableToolInv(s);
    assert HandlerFound(s, s.handlers[t]);
    if HasForwarding(s, t) {
      var f :| f in s.forwards && f.t == t;
      assert ForwardOk(s, f);
    }
  }

  /**
    What a tool's Run comes back with decides the answer: a finished request that was forwarded has had exactly one
    reply. A broken call is answered Internal, an error of the tool Aborted with that error, and a result with the
    request's own task id and the fields of the result, or the result as the field `result` if it has none.
   */
  lemma ReplyDecidesAnswer(s: State, t: nat) returns (i: nat)
    requires Reachable(s) && t < |s.handlers| && s.handlers[t].pc.Done? && s.handlers[t].pc.outcome.Answered?
    requires !s.handlers[t].pc.outcome.result.NotFound?
    ensures s.handlers[t].call.ExecuteTool? && i < |s.answers|
    ensures forall j: nat | j < |s.answers| :: s.answers[j].t == t <==> j == i
    ensures var result, taskId := s.handlers[t].pc.outcome.result, s.handlers[t].call.taskId;
      match s.answers[i].reply
      case RpcFailed => result == Internal
      case Response(error, value) =>
        if error != "" then result == Aborted(error)
        else result == Executed(taskId, if value.Struct? then value.fields else map["result" := value])
  {
    ReachableToolInv(s);
    assert ReturnsOf(s, t);
    var r :| r in s.answers && r.t == t;
    i :| i < |s.answers| && s.answers[i] == r;
    assert ReturnOk(s, s.answers[i]);
  }

  // ---- ExecuteTool: which status it acts on ----

  /** What has been read is what a completed sweep left, or what the sweep in progress has heard. */
  lemma SeenIsRecordedOrComing(s: State, h: Handler)
    requires TableInv(s) && SeenOk(s, h) && h.seen.Some?
    ensures h.call.ExecuteTool?
    ensures var seen := h.seen.value;
      if seen.index < |s.sweeps| then Recorded(s, seen.index, h.call.name, seen.status)
      else seen.index == |s.sweeps| && Coming(s, h.call.name, seen.status)
  {
    assert WrittenOk(s.sweeps, Heard(s.sweep), h.call.name, s.records[s.tools[h.call.name]].written);
  }

  /**
    The status an ExecuteTool handler has read is the one a completed sweep left, a sweep that was not over before
    the call except for the last one; or it is the reply to the sweep in progress, which has already checked the
    tool.
   */
  lemma ReadIsSnapshotOrComing(s: State, t: nat)
    requires Reachable(s) && t < |s.handlers| && s.handlers[t].seen.Some?
    ensures s.handlers[t].call.ExecuteTool?
    ensures var h := s.handlers[t];
      || (exists k: nat | h.sweepsBefore - 1 <= k < |s.sweeps| :: Recorded(s, k, h.call.name, h.seen.value.status))
      || Coming(s, h.call.name, h.seen.value.status)
  {
    ReachableToolInv(s);
    assert SeenOk(s, s.handlers[t]);
    SeenIsRecordedOrComing(s, s.handlers[t]);
  }

  /**
    Where a status that has been read comes from: from discovery, or from the reply of the tool to its health check
    in the sweep whose number the value has, over or still in progress.
   */
  lemma ReadIsReply(s: State, t: nat)
    requires Reachable(s) && t < |s.handlers| && s.handlers[t].seen.Some? && s.handlers[t].seen.value.index > 0
    ensures s.handlers[t].call.ExecuteTool?
    ensures var name, seen := s.handlers[t].call.name, s.handlers[t].seen.value;
      if seen.index < |s.sweeps| then
        && seen.index <= |s.rounds| && name in s.rounds[seen.index - 1]
        && (s.rounds[seen.index - 1][name] == Replied(seen.status) ||
            (s.rounds[seen.index - 1][name].Failed? && seen.status == NOT_SERVING))
      else
        && s.sweep.Sweeping? && name in s.sweep.replies
        && (s.sweep.replies[name] == Replied(seen.status) ||
            (s.sweep.replies[name].Failed? && seen.status == NOT_SERVING))
  {
    ReachableToolInv(s);
    var h := s.handlers[t];
    assert SeenOk(s, h);
    SeenIsRecordedOrComing(s, h);
    if h.seen.value.index < |s.sweeps| {
      SweepRecordsReplies(s, h.seen.value.index - 1, h.call.name);
    }
  }

  /** What has been read stays, on every run, and so does what is known about it. */
  lemma RunKeepsSeen(s: State, later: State, steps: seq<Step>, t: nat)
    requires Reachable(s) && CanRun(s, steps) && later == RunOf(s, steps)
    requires t < |s.handlers| && s.handlers[t].seen.Some?
    ensures TableInv(s) && SeenOk(s, s.handlers[t])
    ensures t < |later.handlers| && TableInv(later) && SeenOk(later, later.handlers[t])
    ensures later.handlers[t].seen == s.handlers[t].seen && later.handlers[t].call == s.handlers[t].call
  {
    ReachableToolInv(s);
    RunKeepsToolInv(s, steps);
  }

  /**
    On any run that goes on until the sweep in progress is over, the status read turns out to be recorded by a
    completed sweep: by the one whose number the read has, which is not older than the last one at the look-up.
   */
  lemma ReadIsRecordedInTheEnd(s: State, later: State, steps: seq<Step>, t: nat)
    requires Reachable(s) && CanRun(s, steps) && later == RunOf(s, steps)
    requires t < |s.handlers| && s.handlers[t].seen.Some? && |later.sweeps| > |s.sweeps|
    ensures s.handlers[t].call.ExecuteTool?
    ensures var h, seen := s.handlers[t], s.handlers[t].seen.value;
      && h.sweepsBefore <= seen.known <= seen.index + 1
      && Recorded(later, seen.index, h.call.name, seen.status)
  {
    RunKeepsSeen(s, later, steps, t);
    SeenIsRecordedOrComing(s, s.handlers[t]);
    SeenIsRecordedOrComing(later, later.handlers[t]);
  }

  /** Some completed sweep, from the given one on, left the tool serving. */
  ghost predicate ServedSince(s: State, k: int, name: string) {
    exists i: nat | k <= i < |s.sweeps| :: Recorded(s, i, name, SERVING)
  }

  /**
    Calling a tool that is not serving between sweeps. If no completed sweep from some `k` on left the called tool
    serving, then the status was read from a sweep that is still in progress, and the read was a race. For the sweep
    before the one read from, this is exact: the tool serves in none of the completed sweeps from that one on if and
    only if the one read from is not over and that one left the tool not serving.
   */
  lemma ForwardOutsideSnapshotsIff(s: State, i: nat, k: int)
    requires Reachable(s) && i < |s.forwards|
    ensures s.forwards[i].t < |s.handlers| && s.handlers[s.forwards[i].t].seen.Some?
    ensures var t, name := s.forwards[i].t, s.forwards[i].call.name;
      var seen := s.handlers[t].seen.value;
      && (k <= seen.index && !ServedSince(s, k, name) ==>
            seen.index == |s.sweeps| && Coming(s, name, SERVING) && Racy(s, t))
      && (!ServedSince(s, seen.index - 1, name) <==>
            seen.index == |s.sweeps| && !Recorded(s, seen.index - 1, name, SERVING))
  {
    ForwardGoesToNamedTool(s, i);
    ReachableToolInv(s);
    var t := s.forwards[i].t;
    assert SeenOk(s, s.handlers[t]);
    SeenIsRecordedOrComing(s, s.handlers[t]);
    if s.handlers[t].seen.value.index == |s.sweeps| {
      OtherReadRaces(s, t);
    }
  }

  // ---- Two runs ----

  /** A server of one tool, found in the given health by discovery. */
  function OneTool(name: string, first: Status): State {
    Init(map[name := 0], [Tool(Description(name, ""), 0, [first])])
  }

  /** The same server with one ExecuteTool handler on the way. */
  function OneRequest(call: Call, first: Status, pc: Pc, readers: set<nat>, trace: seq<Event>): State
    requires call.ExecuteTool?
  {
    OneTool(call.name, first).(
      readers := readers, handlers := [Handler(call, pc, 0, 1, None, None)], trace := trace)
  }

  const TAKEN := [Locked(Of(0), false)]

  const RELEASED := [Locked(Of(0), false), Unlocked(Of(0), false)]

  lemma CalledReachable(call: Call, first: Status)
    requires call.ExecuteTool?
    ensures Reachable(OneRequest(call, first, Called, {}, []))
  {
    var s := OneTool(call.name, first);
    ReachableInit(s.tools, s.records);
    ReachableStep(s, Step.Call(call));
    assert Apply(s, Step.Call(call)) == OneRequest(call, first, Called, {}, []);
  }

  lemma HoldingReachable(call: Call, first: Status)
    requires call.ExecuteTool?
    ensures Reachable(OneRequest(call, first, Holding, {0}, TAKEN))
  {
    CalledReachable(call, first);
    ReachableStep(OneRequest(call, first, Called, {}, []), Lock(0));
    assert Apply(OneRequest(call, first, Called, {}, []), Lock(0)) == OneRequest(call, first, Holding, {0}, TAKEN);
  }

  lemma LookedReachable(call: Call, first: Status)
    requires call.ExecuteTool?
    ensures Reachable(OneRequest(call, first, Looked(Some(Link(0, 1))), {0}, TAKEN))
  {
    var s := OneRequest(call, first, Holding, {0}, TAKEN);
    HoldingReachable(call, first);
    ReachableStep(s, LookupTool(0));
    assert Apply(s, LookupTool(0)) == OneRequest(call, first, Looked(Some(Link(0, 1))), {0}, TAKEN);
  }

  lemma RoutedReachable(call: Call, first: Status)
    requires call.ExecuteTool?
    ensures Reachable(OneRequest(call, first, Routed(Some(Link(0, 1))), {}, RELEASED))
  {
    var s := OneRequest(call, first, Looked(Some(Link(0, 1))), {0}, TAKEN);
    LookedReachable(call, first);
    ReachableStep(s, Unlock(0));
    assert TAKEN + [Unlocked(Of(0), false)] == RELEASED;
    assert Apply(s, Unlock(0)) == OneRequest(call, first, Routed(Some(Link(0, 1))), {}, RELEASED);
  }

  /** Then a sweep has begun and asked the tool. */
  function Asking(call: Call, first: Status): State
    requires call.ExecuteTool?
  {
    OneRequest(call, first, Routed(Some(Link(0, 1))), {}, RELEASED + [Locked(Sweeper, true)]).(
      writer := Some(Sweeper), sweep := Sweeping({}, map[], Some(call.name)))
  }

  lemma AskingReachable(call: Call, first: Status)
    requires call.ExecuteTool?
    ensures Reachable(Asking(call, first))
  {
    var s := OneRequest(call, first, Routed(Some(Link(0, 1))), {}, RELEASED);
    RoutedReachable(call, first);
    ReachableStep(s, SweepLock);
    s := Apply(s, SweepLock);
    assert s.sweep.todo - {call.name} == {};
    ReachableStep(s, SweepAsk(call.name));
    assert Apply(s, SweepAsk(call.name)) == Asking(call, first);
  }

  /** The sweep has heard from the tool. */
  function HeardFrom(call: Call, first: Status, r: Reply): State
    requires call.ExecuteTool?
  {
    Asking(call, first).(
      records := [Tool(Description(call.name, ""), 0, [first, StatusAfter(r)])],
      sweep := Sweeping({}, map[call.name := r], None),
      trace := RELEASED + [Locked(Sweeper, true)] + [Writes(Sweeper, StatusOf(0))])
  }

  lemma HeardReachable(call: Call, first: Status, r: Reply)
    requires call.ExecuteTool?
    ensures Reachable(HeardFrom(call, first, r))
  {
    var s := Asking(call, first);
    AskingReachable(call, first);
    ReachableStep(s, SweepReply(r));
    assert [first] + [StatusAfter(r)] == [first, StatusAfter(r)];
    assert s.records[0 := HeardFrom(call, first, r).records[0]] == HeardFrom(call, first, r).records;
    assert Apply(s, SweepReply(r)) == HeardFrom(call, first, r);
  }

  /** After a read of SERVING the request is forwarded. */
  lemma ReadAndForward(s: State, index: nat, request: Call) returns (s': State)
    requires Reachable(s) && request.ExecuteTool?
    requires s.handlers == [Handler(request, Routed(Some(Link(0, 1))), 0, 1, None, None)]
    requires |s.records| == 1 && s.forwards == [] && index < |s.records[0].written|
    requires s.records[0].written[index] == SERVING
    ensures Reachable(s') && s'.sweeps == s.sweeps && s'.sweep == s.sweep && |s'.handlers| == 1
    ensures s'.handlers[0].call == request && s'.handlers[0].seen == Some(Seen(SERVING, index, 1))
    ensures s'.forwards == [Forwarding(0, RunCall(s.records[0].conn, request.name, request.args))]
  {
    ReachableStep(s, CheckStatus(0, index));
    var checked := Apply(s, CheckStatus(0, index));
    assert checked.handlers == [Handler(request, Approved(0), 0, 1, None, Some(Seen(SERVING, index, 1)))];
    ReachableStep(checked, Forward(0));
    s' := Apply(checked, Forward(0));
  }

  /**
    ExecuteTool does not have the guarantee of ListTools: here a request is forwarded to a tool that is not serving
    in the state after any completed sweep. The status was written before it was read, but nothing orders the two.
   */
  lemma ExecuteMidSweep(call: Call) returns (s: State)
    requires call.ExecuteTool?
    ensures Reachable(s) && Racy(s, 0)
    ensures s.forwards == [Forwarding(0, RunCall(0, call.name, call.args))]
    ensures |s.handlers| == 1 && s.handlers[0].call == call
    ensures forall m <- s.sweeps :: call.name !in Serving(m)
  {
    HeardReachable(call, NOT_SERVING, Replied(SERVING));
    s := ReadAndForward(HeardFrom(call, NOT_SERVING, Replied(SERVING)), 1, call);
    HandlerRacesIff(s, 0);
  }

  /** The sweep is over. */
  lemma SweptReachable(call: Call, first: Status, r: Reply) returns (s: State)
    requires call.ExecuteTool?
    ensures Reachable(s) && s.sweep.Resting? && s.forwards == []
    ensures s.handlers == HeardFrom(call, first, r).handlers && s.records == HeardFrom(call, first, r).records
    ensures |s.sweeps| == 2 && s.sweeps[1] == StatusesOf(map[call.name := 0], s.records)
  {
    HeardReachable(call, first, r);
    ReachableStep(HeardFrom(call, first, r), SweepUnlock);
    s := Apply(HeardFrom(call, first, r), SweepUnlock);
  }

  /** Here a request is forwarded on a status that a sweep, which is over, has overwritten. */
  lemma ExecuteStale(call: Call) returns (s: State)
    requires call.ExecuteTool?
    ensures Reachable(s) && Racy(s, 0) && s.sweep.Resting?
    ensures s.forwards == [Forwarding(0, RunCall(0, call.name, call.args))]
    ensures |s.handlers| == 1 && s.handlers[0].call == call
    ensures |s.sweeps| == 2 && call.name !in Serving(s.sweeps[1])
  {
    var swept := SweptReachable(call, SERVING, Failed);
    s := ReadAndForward(swept, 0, call);
    HandlerRacesIff(s, 0);
  }

  // ---- Progress ----

  /** Steps that need nothing from outside: no request, no tick, no answer of a tool. */
  predicate Own(step: Step) {
    !step.Call? && !step.SweepLock? && !step.SweepReply? && !step.ToolReturn?
  }

  /** The store step of a handler that has just taken the lock. */
  function StoreStep(t: nat, op: StoreOp): Step {
    if op.id == "" then Reject(t) else if op.Provide? then BeginStore(t) else LookupAnswer(t)
  }

  predicate Waits(h: Handler) {
    h.pc.Called? || h.pc.Forwarded? || h.pc.Done?
  }

  lemma RoutedGoesOn(s: State, t: nat) returns (index: nat)
    requires TableInv(s) && FoundOk(s) && t < |s.handlers| && s.handlers[t].pc.Routed?
    ensures Enabled(s, CheckStatus(t, index))
  {
    var h := s.handlers[t];
    assert HandlerFound(s, h);
    index := 0;
    if h.pc.found.Some? {
      var written := s.records[s.tools[h.call.name]].written;
      assert WrittenOk(s.sweeps, Heard(s.sweep), h.call.name, written);
      index := |written| - 1;
    }
  }

  /** A handler that waits for nothing can go on by itself. */
  lemma HandlerGoesOn(s: State, t: nat) returns (step: Step)
    requires Reachable(s) && t < |s.handlers| && !Waits(s.handlers[t])
    ensures Enabled(s, step) && Own(step)
  {
    ReachableToolInv(s);
    var h := s.handlers[t];
    assert HandlerLockOk(s, t) && HandlerFound(s, h);
    match h.pc {
      case Holding =>
        step := match h.call
          case ListTools => StartList(t)
          case ExecuteTool(_, _, _) => LookupTool(t)
          case Store(op) => StoreStep(t, op);
      case Storing => step := EndStore(t);
      case Listing(todo, _) =>
        if todo == {} {
          step := EndList(t);
        } else {
          var n :| n in todo;
          step := Visit(t, n);
        }
      case Routed(_) =>
        var index := RoutedGoesOn(s, t);
        step := CheckStatus(t, index);
      case Approved(_) => step := Forward(t);
      case _ => step := Unlock(t);
    }
  }

  /** If the lock is held, the sweep or some handler is inside a critical section. */
  lemma HolderExists(s: State)
    requires LockInv(s) && (s.writer.Some? || s.readers != {})
    ensures s.sweep.Sweeping? || exists u: nat :: u < |s.handlers| && Inside(s.handlers[u])
  {
    if s.writer.Some? {
      if s.writer.value.Of? {
        assert HandlerLockOk(s, s.writer.value.t);
      }
    } else {
      var u :| u in s.readers;
      assert HandlerLockOk(s, u);
    }
  }

  /** A handler that waits for the lock while nobody is inside a critical section can take it. */
  lemma LockIsFree(s: State, t: nat)
    requires LockInv(s) && AtPc(s, t, Called) && s.sweep.Resting?
    requires forall u: nat | u < |s.handlers| :: !Inside(s.handlers[u])
    ensures Enabled(s, Lock(t))
  {
    if s.writer.Some? || s.readers != {} {
      HolderExists(s);
    }
  }

  /** A sweep that waits for no answer can go on. */
  lemma SweepGoesOn(s: State) returns (step: Step)
    requires s.sweep.Sweeping? && s.sweep.asking.None?
    ensures Enabled(s, step) && Own(step)
  {
    if s.sweep.todo == {} {
      step := SweepUnlock;
    } else {
      var n :| n in s.sweep.todo;
      step := SweepAsk(n);
    }
  }

  /**
    Every handler waits, for the lock or for a tool's Run, or is done; and either the sweep waits for the answer to a
    health check, or it rests and nobody waits for the lock.
   */
  ghost predicate Standstill(s: State) {
    && (forall t: nat | t < |s.handlers| :: Waits(s.handlers[t]))
    && (if s.sweep.Resting? then forall t: nat | t < |s.handlers| :: !s.handlers[t].pc.Called?
        else s.sweep.asking.Some?)
  }

  lemma StandstillStops(s: State, step: Step)
    requires LockInv(s) && Standstill(s) && Own(step)
    ensures !Enabled(s, step)
  {
  }

  /** The server goes on by itself exactly until it waits for tools only: the locks bring about no deadlock. */
  lemma StopsIffStandstill(s: State)
    requires Reachable(s)
    ensures (forall step | Own(step) :: !Enabled(s, step)) <==> Standstill(s)
  {
    ReachableToolInv(s);
    if Standstill(s) {
      forall step | Own(step) ensures !Enabled(s, step) {
        StandstillStops(s, step);
      }
    } else {
      var step: Step;
      if u: nat :| u < |s.handlers| && !Waits(s.handlers[u]) {
        step := HandlerGoesOn(s, u);
      } else if s.sweep.Sweeping? {
        step := SweepGoesOn(s);
      } else {
        var t: nat :| t < |s.handlers| && s.handlers[t].pc.Called?;
        LockIsFree(s, t);
        step := Lock(t);
      }
      assert Own(step) && Enabled(s, step);
    }
  }

  /**
    No deadlock: while a request is unanswered or a sweep unfinished, some goroutine can go on without a new request,
    if the tools that have been called or asked answer.
   */
  lemma ServerProgress(s: State)
    requires Reachable(s)
    requires s.sweep.Sweeping? || exists t: nat :: t < |s.handlers| && !s.handlers[t].pc.Done?
    ensures exists step :: Enabled(s, step) && !step.Call? && !step.SweepLock?
  {
    ReachableToolInv(s);
    StopsIffStandstill(s);
    if Standstill(s) {
      if s.sweep.Sweeping? {
        assert Enabled(s, SweepReply(Failed));
      } else {
        var t: nat :| t < |s.handlers| && !s.handlers[t].pc.Done?;
        assert HandlerLockOk(s, t);
        assert Enabled(s, ToolReturn(t, RpcFailed));
      }
    } else {
      var step :| Own(step) && Enabled(s, step);
      assert Enabled(s, step) && !step.Call? && !step.SweepLock?;
    }
  }

  /** ProvideHumanInput needs the lock for itself; every other call only needs that nobody writes. */
  lemma LockIsSharedIff(s: State, t: nat)
    requires AtPc(s, t, Called)
    ensures Enabled(s, Lock(t)) <==>
      s.writer.None? && (s.handlers[t].call.Store? && s.handlers[t].call.op.Provide? ==> s.readers == {})
    ensures Enabled(s, Lock(t)) ==>
      var s' := Apply(s, Lock(t));
      if s.handlers[t].call.Store? && s.handlers[t].call.op.Provide?
      then s'.writer == Some(Of(t)) && s'.readers == s.readers
      else s'.writer == None && s'.readers == s.readers + {t}
  {
  }

  // ---- A health check without an answer ----

  /** Handlers that wait for the lock in `s`, and those that come later, wait for it in `t`. */
  ghost predicate StillWaiting(s: State, t: State) {
    && t.sweep == s.sweep && |s.handlers| <= |t.handlers|
    && forall i: nat | i < |t.handlers| && (i < |s.handlers| ==> s.handlers[i].pc.Called?) :: t.handlers[i].pc.Called?
  }

  lemma StepStillWaiting(s: State, s': State, step: Step)
    requires LockInv(s) && s.sweep.Sweeping? && s.sweep.asking.Some?
    requires Enabled(s, step) && !step.SweepReply? && s' == Apply(s, step)
    ensures StillWaiting(s, s')
  {
    forall i: nat | i < |s'.handlers| && (i < |s.handlers| ==> s.handlers[i].pc.Called?)
      ensures s'.handlers[i].pc.Called?
    {
      if i < |s.handlers| { OthersStay(s, step, i); }
    }
  }

  /**
    While a tool does not answer its health check, which has no deadline, nobody gets the lock: on every run without
    that answer the sweep stays where it is, every handler that waited for the lock goes on waiting, and so does
    every handler called since.
   */
  lemma {:induction false} UnansweredCheckBlocks(s: State, steps: seq<Step>)
    requires LockInv(s) && s.sweep.Sweeping? && s.sweep.asking.Some?
    requires CanRun(s, steps) && forall step <- steps :: !step.SweepReply?
    ensures StillWaiting(s, RunOf(s, steps))
    decreases |steps|
  {
    if steps != [] {
      StepStillWaiting(s, Apply(s, steps[0]), steps[0]);
      StepKeepsLockInv(s, steps[0]);
      UnansweredCheckBlocks(Apply(s, steps[0]), steps[1..]);
    }
  }
}
