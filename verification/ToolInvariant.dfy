/**
  What holds of tools in every state of the server: the registry stays as discovery built it, statuses and sweeps
  agree, handlers have found out what they act on, and calls of tools go where they should.
 */
module ToolInvariant {
  import opened Wrappers
  import opened ServerSpec
  import opened ServerSystem

  // ---- The registry and the statuses ----

  /** Each completed sweep has set every tool's status from its reply. */
  ghost predicate HistoryOk(names: set<string>, sweeps: seq<map<string, Status>>, rounds: seq<map<string, Reply>>) {
    && |sweeps| == |rounds| + 1
    && (forall m <- sweeps :: m.Keys == names)
    && (forall i: nat | i < |rounds| :: rounds[i].Keys == names && sweeps[i + 1] == Swept(sweeps[i], rounds[i]))
  }

  /** A sweep has either heard of a tool, or asked it and waits, or still has to ask. */
  ghost predicate SweepOk(names: set<string>, sweep: Sweep) {
    match sweep
    case Resting => true
    case Sweeping(todo, replies, asking) =>
      && todo <= names
      && replies.Keys == names - todo - (if asking.Some? then {asking.value} else {})
      && (asking.Some? ==> asking.value in names && asking.value !in todo)
  }

  /** The replies of the sweep in progress. */
  function Heard(sweep: Sweep): map<string, Reply> {
    if sweep.Sweeping? then sweep.replies else map[]
  }

  /** The values of a status: one by each completed sweep, and one by the sweep in progress once it has heard. */
  ghost predicate WrittenOk(
      sweeps: seq<map<string, Status>>, heard: map<string, Reply>, name: string, written: seq<Status>)
  {
    && |written| == |sweeps| + (if name in heard then 1 else 0)
    && (forall i: nat | i < |sweeps| :: name in sweeps[i] && written[i] == sweeps[i][name])
    && (name in heard ==> written[|sweeps|] == StatusAfter(heard[name]))
  }

  ghost predicate TableInv(s: State) {
    && RegistryOk(s.tools, s.records)
    && HistoryOk(s.tools.Keys, s.sweeps, s.rounds)
    && SweepOk(s.tools.Keys, s.sweep)
    && forall n <- s.tools :: WrittenOk(s.sweeps, Heard(s.sweep), n, s.records[s.tools[n]].written)
  }

  /** Writing one tool's status leaves the registry as it is, since no two names share a record. */
  lemma StoreKeepsRegistry(tools: map<string, nat>, records: seq<Tool>, n: string, st: Status)
    requires RegistryOk(tools, records) && n in tools
    ensures var tool := records[tools[n]];
      var records' := records[tools[n] := tool.(written := tool.written + [st])];
      && RegistryOk(tools, records')
      && DescriptionsOf(tools, records') == DescriptionsOf(tools, records)
      && forall m | m in tools && m != n :: records'[tools[m]] == records[tools[m]]
  {
    assert forall m | m in tools && m != n :: tools[m] != tools[n];
  }

  /** A reply adds one value to the status of the tool that was asked. */
  lemma ReplyKeepsWritten(s: State, s': State, n: string, r: Reply)
    requires TableInv(s) && s.sweep.Sweeping? && s.sweep.asking == Some(n) && n in s.tools
    requires s'.tools == s.tools && s'.sweeps == s.sweeps && s'.rounds == s.rounds
    requires s'.sweep == s.sweep.(replies := s.sweep.replies[n := r], asking := None)
    requires var tool := s.records[s.tools[n]];
      s'.records == s.records[s.tools[n] := tool.(written := tool.written + [StatusAfter(r)])]
    ensures TableInv(s')
    ensures DescriptionsOf(s.tools, s'.records) == DescriptionsOf(s.tools, s.records)
  {
    StoreKeepsRegistry(s.tools, s.records, n, StatusAfter(r));
    forall m <- s.tools ensures WrittenOk(s.sweeps, Heard(s'.sweep), m, s'.records[s.tools[m]].written) {
      assert WrittenOk(s.sweeps, Heard(s.sweep), m, s.records[s.tools[m]].written);
    }
  }

  lemma SweepReplyKeepsTable(s: State, s': State, r: Reply)
    requires TableInv(s) && Enabled(s, SweepReply(r)) && s' == Apply(s, SweepReply(r))
    ensures TableInv(s')
    ensures DescriptionsOf(s.tools, s'.records) == DescriptionsOf(s.tools, s.records)
  {
    ReplyKeepsWritten(s, s', s.sweep.asking.value, r);
  }

  lemma HistoryStep(
      names: set<string>, sweeps: seq<map<string, Status>>, rounds: seq<map<string, Reply>>,
      replies: map<string, Reply>)
    requires HistoryOk(names, sweeps, rounds) && replies.Keys == names
    ensures HistoryOk(names, sweeps + [Swept(sweeps[|sweeps| - 1], replies)], rounds + [replies])
  {
  }

  /** When a sweep ends, the statuses are those it has heard. */
  lemma SweepUnlockRecords(s: State)
    requires TableInv(s) && Enabled(s, SweepUnlock)
    ensures s.sweep.replies.Keys == s.tools.Keys
    ensures StatusesOf(s.tools, s.records) == Swept(s.sweeps[|s.sweeps| - 1], s.sweep.replies)
  {
    forall n <- s.tools ensures Current(s.records[s.tools[n]]) == StatusAfter(s.sweep.replies[n]) {
      assert WrittenOk(s.sweeps, Heard(s.sweep), n, s.records[s.tools[n]].written);
    }
  }

  lemma RecordKeepsWritten(
      sweeps: seq<map<string, Status>>, replies: map<string, Reply>, now: map<string, Status>, name: string,
      written: seq<Status>)
    requires WrittenOk(sweeps, replies, name, written) && name in replies
    requires name in now && now[name] == StatusAfter(replies[name])
    ensures WrittenOk(sweeps + [now], map[], name, written)
  {
  }

  lemma EndKeepsTable(s: State, s': State)
    requires TableInv(s) && s.sweep.Sweeping? && s'.sweep.Resting? && s'.tools == s.tools && s'.records == s.records
    requires s.sweep.replies.Keys == s.tools.Keys
    requires StatusesOf(s.tools, s.records) == Swept(s.sweeps[|s.sweeps| - 1], s.sweep.replies)
    requires s'.sweeps == s.sweeps + [StatusesOf(s.tools, s.records)] && s'.rounds == s.rounds + [s.sweep.replies]
    ensures TableInv(s')
  {
    HistoryStep(s.tools.Keys, s.sweeps, s.rounds, s.sweep.replies);
    forall n <- s.tools ensures WrittenOk(s'.sweeps, map[], n, s.records[s.tools[n]].written) {
      RecordKeepsWritten(s.sweeps, s.sweep.replies, StatusesOf(s.tools, s.records), n, s.records[s.tools[n]].written);
    }
  }

  lemma SweepUnlockKeepsTable(s: State, s': State)
    requires TableInv(s) && Enabled(s, SweepUnlock) && s' == Apply(s, SweepUnlock)
    ensures TableInv(s')
  {
    SweepUnlockRecords(s);
    EndKeepsTable(s, s');
  }

  /** The steps of the sweep that write nothing. */
  lemma SweepStepKeepsTable(s: State, step: Step)
    requires TableInv(s) && Enabled(s, step) && (step.SweepLock? || step.SweepAsk?)
    ensures TableInv(Apply(s, step))
  {
  }

  lemma StepKeepsTable(s: State, step: Step)
    requires TableInv(s) && Enabled(s, step)
    ensures TableInv(Apply(s, step))
    ensures var s' := Apply(s, step);
      s'.tools == s.tools && DescriptionsOf(s'.tools, s'.records) == DescriptionsOf(s.tools, s.records)
  {
    if step.SweepLock? || step.SweepAsk? {
      SweepStepKeepsTable(s, step);
    } else if step.SweepReply? {
      SweepReplyKeepsTable(s, Apply(s, step), step.health);
    } else if step.SweepUnlock? {
      SweepUnlockKeepsTable(s, Apply(s, step));
    } else {
      ToolsStay(s, step);
    }
  }

  /** While no sweep is running the statuses are those of the last completed one. */
  lemma RestingStatuses(s: State)
    requires TableInv(s) && s.sweep.Resting?
    ensures StatusesOf(s.tools, s.records) == s.sweeps[|s.sweeps| - 1]
  {
    forall n <- s.tools ensures Current(s.records[s.tools[n]]) == s.sweeps[|s.sweeps| - 1][n] {
      assert WrittenOk(s.sweeps, map[], n, s.records[s.tools[n]].written);
    }
  }

  // ---- What the handlers find out ----

  /**
    A status that has been read is one of the values written, none that had been overwritten at the look-up. When
    the tool was looked up, `known` sweeps were over.
   */
  ghost predicate SeenOk(s: State, h: Handler) {
    h.seen.Some? ==>
      var seen := h.seen.value;
      && h.call.ExecuteTool? && h.call.name in s.tools && s.tools[h.call.name] < |s.records|
      && h.sweepsBefore <= seen.known <= |s.sweeps|
      && seen.known <= seen.index + 1
      && Has(s.records[s.tools[h.call.name]].written, seen.index, seen.status)
  }

  predicate Has(written: seq<Status>, index: nat, status: Status) {
    index < |written| && written[index] == status
  }

  /** Completed sweep `k` left this status. */
  ghost predicate Recorded(s: State, k: int, name: string, status: Status) {
    0 <= k < |s.sweeps| && name in s.sweeps[k] && s.sweeps[k][name] == status
  }

  /** The sweep in progress has heard this status of the tool. */
  ghost predicate Coming(s: State, name: string, status: Status) {
    s.sweep.Sweeping? && name in s.sweep.replies && StatusAfter(s.sweep.replies[name]) == status
  }

  /** The handler has read SERVING for the requested tool. */
  ghost predicate SawServing(s: State, h: Handler) {
    h.call.ExecuteTool? && h.call.name in s.tools && h.seen.Some? && h.seen.value.status == SERVING
  }

  ghost predicate OutcomeFound(s: State, h: Handler, o: Outcome) {
    match o
    case Tools(list) =>
      && h.point.Some? && h.sweepsBefore <= h.point.value <= |s.sweeps| && 1 <= h.point.value
      && ListsServing(list, s.sweeps[h.point.value - 1], DescriptionsOf(s.tools, s.records))
    case Answered(NotFound) =>
      h.call.ExecuteTool? && (h.call.name in s.tools ==> h.seen.Some? && h.seen.value.status != SERVING)
    case Answered(Executed(id, _)) => SawServing(s, h) && id == h.call.taskId
    case Answered(_) => SawServing(s, h)
    case _ => true
  }

  /** The range loop of ListTools has collected the serving tools it has visited. */
  ghost predicate ListedOk(
      now: map<string, Status>, registered: map<string, Description>, todo: set<string>, acc: seq<Description>)
  {
    && NoRepeats(acc)
    && forall d :: d in acc <==>
         d.name in Serving(now) && d.name !in todo && d.name in registered && registered[d.name] == d
  }

  lemma VisitKeepsListed(
      now: map<string, Status>, registered: map<string, Description>, todo: set<string>, acc: seq<Description>,
      n: string)
    requires ListedOk(now, registered, todo, acc) && n in todo && n in now
    requires n in registered && registered[n].name == n
    ensures ListedOk(now, registered, todo - {n}, acc + if now[n] == SERVING then [registered[n]] else [])
  {
  }

  /** What a ListTools or ExecuteTool handler has found out so far. */
  ghost predicate HandlerFound(s: State, h: Handler) {
    && 1 <= h.sweepsBefore <= |s.sweeps|
    && match h.pc
       case Listing(todo, acc) =>
         todo <= s.tools.Keys && ListedOk(StatusesOf(s.tools, s.records), DescriptionsOf(s.tools, s.records), todo, acc)
       case Leaving(o) => !o.Answered? && OutcomeFound(s, h, o)
       case Done(o) => OutcomeFound(s, h, o)
       case Looked(found) => Finds(s, h, found)
       case Routed(found) => Finds(s, h, found)
       case Approved(a) => SawServing(s, h) && a == s.tools[h.call.name]
       case Forwarded => SawServing(s, h)
       case _ => true
  }

  /** What looking up the requested name in the registry gives. */
  ghost predicate Finds(s: State, h: Handler, found: Option<Link>) {
    && h.call.ExecuteTool?
    && (found.Some? <==> h.call.name in s.tools)
    && (found.Some? ==>
          found.value.tool == s.tools[h.call.name] && h.sweepsBefore <= found.value.known <= |s.sweeps|)
  }

  ghost predicate FoundOk(s: State) {
    forall t: nat | t < |s.handlers| :: HandlerFound(s, s.handlers[t]) && SeenOk(s, s.handlers[t])
  }

  /** A step of another goroutine changes no handler's findings: handlers that are listing keep the sweep out. */
  lemma SweepStepKeepsFound(s: State, step: Step, h: Handler)
    requires TableInv(s) && Enabled(s, step) && OfSweep(step) && HandlerFound(s, h)
    requires h.pc.Listing? ==> s.sweep.Resting?
    ensures HandlerFound(Apply(s, step), h)
  {
    StepKeepsTable(s, step);
  }

  /** Statuses are only added to. */
  lemma SweepStepExtends(s: State, step: Step, a: nat)
    requires Enabled(s, step) && OfSweep(step) && a < |s.records|
    ensures var s' := Apply(s, step);
      && s'.tools == s.tools && s.sweeps <= s'.sweeps
      && |s'.records| == |s.records| && s.records[a].written <= s'.records[a].written
  {
  }

  lemma SweepStepKeepsSeen(s: State, step: Step, h: Handler)
    requires Enabled(s, step) && OfSweep(step) && SeenOk(s, h)
    ensures SeenOk(Apply(s, step), h)
  {
    if h.seen.Some? {
      SweepStepExtends(s, step, s.tools[h.call.name]);
    }
  }

  lemma OtherStepKeepsFound(s: State, step: Step, h: Handler)
    requires Enabled(s, step) && !OfSweep(step) && HandlerFound(s, h) && SeenOk(s, h)
    ensures HandlerFound(Apply(s, step), h) && SeenOk(Apply(s, step), h)
  {
    ToolsStay(s, step);
  }

  lemma VisitKeepsFound(s: State, step: Step)
    requires TableInv(s) && FoundOk(s) && Enabled(s, step) && step.Visit?
    ensures HandlerFound(s, Apply(s, step).handlers[step.t])
  {
    var h := s.handlers[step.t];
    assert HandlerFound(s, h);
    VisitKeepsListed(StatusesOf(s.tools, s.records), DescriptionsOf(s.tools, s.records),
                     h.pc.todo, h.pc.acc, step.name);
  }

  lemma CheckKeepsFound(s: State, step: Step)
    requires TableInv(s) && FoundOk(s) && Enabled(s, step) && step.CheckStatus?
    ensures HandlerFound(s, Apply(s, step).handlers[step.t])
  {
    assert HandlerFound(s, s.handlers[step.t]);
  }

  lemma CheckKeepsSeen(s: State, step: Step)
    requires TableInv(s) && FoundOk(s) && Enabled(s, step) && step.CheckStatus?
    ensures SeenOk(s, Apply(s, step).handlers[step.t])
  {
    assert HandlerFound(s, s.handlers[step.t]) && SeenOk(s, s.handlers[step.t]);
  }

  lemma EndListKeepsFound(s: State, step: Step)
    requires TableInv(s) && LockInv(s) && FoundOk(s) && Enabled(s, step) && step.EndList?
    ensures HandlerFound(s, Apply(s, step).handlers[step.t])
  {
    assert HandlerFound(s, s.handlers[step.t]) && HandlerLockOk(s, step.t);
    RestingStatuses(s);
  }

  /** The steps of store handlers, which find out nothing about tools. */
  predicate OfStore(step: Step) {
    step.Reject? || step.BeginStore? || step.EndStore? || step.LookupAnswer?
  }

  lemma StoreStepKeepsFound(s: State, step: Step)
    requires FoundOk(s) && Enabled(s, step) && OfStore(step)
    ensures HandlerFound(s, Apply(s, step).handlers[step.t])
  {
    assert HandlerFound(s, s.handlers[step.t]);
  }

  lemma LockStepKeepsFound(s: State, step: Step)
    requires FoundOk(s) && Enabled(s, step) && (step.Lock? || step.Unlock?)
    ensures HandlerFound(s, Apply(s, step).handlers[step.t])
  {
    assert HandlerFound(s, s.handlers[step.t]);
  }

  lemma StartListKeepsFound(s: State, step: Step)
    requires TableInv(s) && FoundOk(s) && Enabled(s, step) && step.StartList?
    ensures HandlerFound(s, Apply(s, step).handlers[step.t])
  {
    assert HandlerFound(s, s.handlers[step.t]);
  }

  lemma LookupKeepsFound(s: State, step: Step)
    requires TableInv(s) && LockInv(s) && FoundOk(s) && Enabled(s, step) && step.LookupTool?
    ensures HandlerFound(s, Apply(s, step).handlers[step.t])
  {
    var h := s.handlers[step.t];
    assert HandlerFound(s, h) && HandlerLockOk(s, step.t);
    if h.call.name in s.tools {
      assert WrittenOk(s.sweeps, map[], h.call.name, s.records[s.tools[h.call.name]].written);
    }
  }

  lemma RouteStepKeepsFound(s: State, step: Step)
    requires FoundOk(s) && Enabled(s, step) && (step.Forward? || step.ToolReturn?)
    ensures HandlerFound(s, Apply(s, step).handlers[step.t])
  {
    assert HandlerFound(s, s.handlers[step.t]);
  }

  lemma SeenStays(s: State, step: Step)
    requires Enabled(s, step) && !step.Call? && !OfSweep(step) && !step.CheckStatus?
    ensures var h, h' := s.handlers[step.t], Apply(s, step).handlers[step.t];
      h'.seen == h.seen && h'.call == h.call && h'.sweepsBefore == h.sweepsBefore
  {
  }

  lemma SeenDepends(s: State, h: Handler, h': Handler)
    requires SeenOk(s, h) && h'.seen == h.seen && h'.call == h.call && h'.sweepsBefore == h.sweepsBefore
    ensures SeenOk(s, h')
  {
  }

  lemma OwnStepKeepsSeen(s: State, step: Step)
    requires TableInv(s) && FoundOk(s) && Enabled(s, step) && !step.Call? && !OfSweep(step)
    ensures step.t < |Apply(s, step).handlers| && SeenOk(s, Apply(s, step).handlers[step.t])
  {
    if step.CheckStatus? {
      CheckKeepsSeen(s, step);
    } else {
      SeenStays(s, step);
      assert SeenOk(s, s.handlers[step.t]);
      SeenDepends(s, s.handlers[step.t], Apply(s, step).handlers[step.t]);
    }
  }

  lemma OwnStepKeepsFound(s: State, step: Step)
    requires TableInv(s) && LockInv(s) && FoundOk(s) && Enabled(s, step) && !step.Call? && !OfSweep(step)
    ensures step.t < |Apply(s, step).handlers| && HandlerFound(s, Apply(s, step).handlers[step.t])
  {
    if step.CheckStatus? {
      CheckKeepsFound(s, step);
    } else if step.Visit? {
      VisitKeepsFound(s, step);
    } else if step.EndList? {
      EndListKeepsFound(s, step);
    } else if OfStore(step) {
      StoreStepKeepsFound(s, step);
    } else if step.StartList? {
      StartListKeepsFound(s, step);
    } else if step.Lock? || step.Unlock? {
      LockStepKeepsFound(s, step);
    } else if step.LookupTool? {
      LookupKeepsFound(s, step);
    } else {
      RouteStepKeepsFound(s, step);
    }
  }

  /** A handler as it is after a step has found out what is true before the step. */
  lemma NextHandlerFound(s: State, step: Step, t: nat)
    requires TableInv(s) && LockInv(s) && FoundOk(s) && Enabled(s, step) && t < |Apply(s, step).handlers|
    ensures HandlerFound(s, Apply(s, step).handlers[t]) && SeenOk(s, Apply(s, step).handlers[t])
    ensures OfSweep(step) && Apply(s, step).handlers[t].pc.Listing? ==> s.sweep.Resting?
  {
    if t < |s.handlers| {
      OthersStay(s, step, t);
      assert HandlerFound(s, s.handlers[t]) && SeenOk(s, s.handlers[t]) && HandlerLockOk(s, t);
      if !OfSweep(step) && !step.Call? && t == step.t {
        OwnStepKeepsFound(s, step);
        OwnStepKeepsSeen(s, step);
      }
    }
  }

  lemma StepKeepsFound(s: State, step: Step)
    requires TableInv(s) && LockInv(s) && FoundOk(s) && Enabled(s, step)
    ensures FoundOk(Apply(s, step))
  {
    var s' := Apply(s, step);
    forall t: nat | t < |s'.handlers| ensures HandlerFound(s', s'.handlers[t]) && SeenOk(s', s'.handlers[t]) {
      NextHandlerFound(s, step, t);
      if OfSweep(step) {
        SweepStepKeepsFound(s, step, s'.handlers[t]);
        SweepStepKeepsSeen(s, step, s'.handlers[t]);
      } else {
        OtherStepKeepsFound(s, step, s'.handlers[t]);
      }
    }
  }

  // ---- Calls of tools ----

  /** Whether a handler has called the tool's Run. */
  predicate HasForwarded(h: Handler) {
    h.pc.Forwarded? || (h.pc.Done? && h.pc.outcome.Answered? && !h.pc.outcome.result.NotFound?)
  }

  /** The call went to the connection of the tool registered under the requested name, with the caller's arguments. */
  ghost predicate ForwardOk(s: State, f: Forwarding) {
    f.t < |s.handlers| && HasForwarded(s.handlers[f.t]) && RoutedRight(s, s.handlers[f.t].call, f.call)
  }

  ghost predicate RoutedRight(s: State, request: Call, call: RunCall) {
    && request.ExecuteTool? && request.name in s.tools && s.tools[request.name] < |s.records|
    && call == RunCall(s.records[s.tools[request.name]].conn, request.name, request.args)
  }

  ghost predicate HasForwarding(s: State, t: nat) {
    exists f <- s.forwards :: f.t == t
  }

  /** The calls of Run and the handlers that have made one correspond. */
  ghost predicate ForwardsOk(s: State) {
    && (forall i, j | 0 <= i < j < |s.forwards| :: s.forwards[i].t != s.forwards[j].t)
    && (forall f <- s.forwards :: ForwardOk(s, f))
    && (forall t: nat | t < |s.handlers| && HasForwarded(s.handlers[t]) :: HasForwarding(s, t))
  }

  /** Names, connections and the registry itself never change. */
  ghost predicate SameTools(s: State, t: State) {
    && t.tools == s.tools && |t.records| == |s.records|
    && forall a | 0 <= a < |s.records| ::
         t.records[a].description == s.records[a].description && t.records[a].conn == s.records[a].conn
  }

  lemma StepKeepsTools(s: State, step: Step)
    requires Enabled(s, step)
    ensures SameTools(s, Apply(s, step))
  {
  }

  /** Only Forward makes a handler have called Run, and nothing takes it back or changes the request. */
  lemma ForwardedStays(s: State, step: Step, t: nat)
    requires FoundOk(s) && Enabled(s, step) && !step.Forward? && t < |s.handlers|
    ensures t < |Apply(s, step).handlers|
    ensures var h, h' := s.handlers[t], Apply(s, step).handlers[t];
      h'.call == h.call && (HasForwarded(h') <==> HasForwarded(h))
  {
    OthersStay(s, step, t);
    assert HandlerFound(s, s.handlers[t]);
  }

  lemma OtherStepKeepsForwards(s: State, s': State, step: Step)
    requires FoundOk(s) && ForwardsOk(s) && Enabled(s, step) && !step.Forward? && s' == Apply(s, step)
    ensures ForwardsOk(s')
  {
    StepKeepsTools(s, step);
    assert s'.forwards == s.forwards && |s.handlers| <= |s'.handlers|;
    forall f <- s'.forwards ensures ForwardOk(s', f) {
      assert ForwardOk(s, f);
      ForwardedStays(s, step, f.t);
    }
    forall t: nat | t < |s'.handlers| && HasForwarded(s'.handlers[t]) ensures HasForwarding(s', t) {
      if t < |s.handlers| {
        ForwardedStays(s, step, t);
        assert HasForwarding(s, t);
      }
    }
  }

  lemma ForwardEffect(s: State, t: nat)
    requires TableInv(s) && FoundOk(s) && Enabled(s, Forward(t))
    ensures var s' := Apply(s, Forward(t));
      && s'.handlers == s.handlers[t := s.handlers[t].(pc := Forwarded)]
      && |s'.forwards| == |s.forwards| + 1 && s.forwards <= s'.forwards
      && s'.forwards[|s.forwards|].t == t
      && ForwardOk(s', s'.forwards[|s.forwards|])
  {
    assert HandlerFound(s, s.handlers[t]);
  }

  /** A handler forwards once: it has made none of the earlier calls. */
  lemma ForwardKeepsForwards(s: State, s': State, t: nat)
    requires ForwardsOk(s) && SameTools(s, s') && t < |s.handlers| && !HasForwarded(s.handlers[t])
    requires s'.handlers == s.handlers[t := s.handlers[t].(pc := Forwarded)]
    requires |s'.forwards| == |s.forwards| + 1 && s.forwards <= s'.forwards
    requires s'.forwards[|s.forwards|].t == t && ForwardOk(s', s'.forwards[|s.forwards|])
    ensures ForwardsOk(s')
  {
    forall f <- s.forwards ensures f.t != t && ForwardOk(s', f) {
      assert ForwardOk(s, f);
    }
    forall u: nat | u < |s'.handlers| && HasForwarded(s'.handlers[u]) ensures HasForwarding(s', u) {
      if u != t {
        assert HasForwarding(s, u);
      }
    }
  }

  // ---- Answers of tools ----

  predicate HasReturned(h: Handler) {
    h.pc.Done? && h.pc.outcome.Answered? && !h.pc.outcome.result.NotFound?
  }

  /** A call that came back has finished its handler, with the result that belongs to the reply. */
  ghost predicate ReturnOk(s: State, r: Return) {
    && r.t < |s.handlers| && s.handlers[r.t].call.ExecuteTool? && HasReturned(s.handlers[r.t])
    && s.handlers[r.t].pc.outcome.result == ExecuteReturns(s.handlers[r.t].call.taskId, r.reply)
  }

  ghost predicate ReturnsOf(s: State, t: nat) {
    exists r <- s.answers :: r.t == t
  }

  ghost predicate ReturnsOk(s: State) {
    && (forall i, j | 0 <= i < j < |s.answers| :: s.answers[i].t != s.answers[j].t)
    && (forall r <- s.answers :: ReturnOk(s, r))
    && (forall t: nat | t < |s.handlers| && HasReturned(s.handlers[t]) :: ReturnsOf(s, t))
  }

  /** Only ToolReturn gives a handler the answer of a tool, and nothing takes it back. */
  lemma ReturnedStays(s: State, step: Step, t: nat)
    requires FoundOk(s) && Enabled(s, step) && !step.ToolReturn? && t < |s.handlers|
    ensures t < |Apply(s, step).handlers|
    ensures var h, h' := s.handlers[t], Apply(s, step).handlers[t];
      (HasReturned(h') <==> HasReturned(h)) && (HasReturned(h) ==> h' == h)
  {
    OthersStay(s, step, t);
    assert HandlerFound(s, s.handlers[t]);
  }

  lemma OtherStepKeepsReturns(s: State, s': State, step: Step)
    requires FoundOk(s) && ReturnsOk(s) && Enabled(s, step) && !step.ToolReturn? && s' == Apply(s, step)
    ensures ReturnsOk(s')
  {
    assert s'.answers == s.answers && |s.handlers| <= |s'.handlers|;
    forall r <- s'.answers ensures ReturnOk(s', r) {
      assert ReturnOk(s, r);
      ReturnedStays(s, step, r.t);
    }
    forall t: nat | t < |s'.handlers| && HasReturned(s'.handlers[t]) ensures ReturnsOf(s', t) {
      if t < |s.handlers| {
        ReturnedStays(s, step, t);
        assert ReturnsOf(s, t);
      }
    }
  }

  lemma ReturnKeepsReturns(s: State, s': State, t: nat, reply: RunReply)
    requires ReturnsOk(s) && Enabled(s, ToolReturn(t, reply)) && s' == Apply(s, ToolReturn(t, reply))
    ensures ReturnsOk(s')
  {
    assert s'.handlers == s.handlers[t := s'.handlers[t]];
    forall r <- s.answers ensures r.t != t && ReturnOk(s', r) {
      assert ReturnOk(s, r);
    }
    forall u: nat | u < |s'.handlers| && HasReturned(s'.handlers[u]) ensures ReturnsOf(s', u) {
      if u == t {
        assert s'.answers[|s.answers|].t == t;
      } else {
        assert ReturnsOf(s, u);
      }
    }
  }

  lemma StepKeepsReturns(s: State, step: Step)
    requires FoundOk(s) && ReturnsOk(s) && Enabled(s, step)
    ensures ReturnsOk(Apply(s, step))
  {
    if step.ToolReturn? {
      ReturnKeepsReturns(s, Apply(s, step), step.t, step.reply);
    } else {
      OtherStepKeepsReturns(s, Apply(s, step), step);
    }
  }

  // ---- What stays ----

  /** A handler reads a status once: before the read it has none in its history. */
  ghost predicate Unread(s: State) {
    forall t: nat | t < |s.handlers| :: ReadsOnce(s.handlers[t])
  }

  predicate ReadsOnce(h: Handler) {
    h.pc.Called? || h.pc.Holding? || h.pc.Looked? || h.pc.Routed? ==> h.seen.None?
  }

  lemma StepKeepsUnread(s: State, step: Step)
    requires Unread(s) && Enabled(s, step)
    ensures Unread(Apply(s, step))
  {
    var s' := Apply(s, step);
    forall t: nat | t < |s'.handlers| ensures ReadsOnce(s'.handlers[t]) {
      if t < |s.handlers| {
        OthersStay(s, step, t);
        assert ReadsOnce(s.handlers[t]);
      }
    }
  }

  // ---- All of it ----

  ghost predicate ToolInv(s: State) {
    TableInv(s) && FoundOk(s) && ForwardsOk(s) && ReturnsOk(s) && Unread(s)
  }

  lemma StepKeepsForwards(s: State, step: Step)
    requires TableInv(s) && FoundOk(s) && ForwardsOk(s) && Enabled(s, step)
    ensures ForwardsOk(Apply(s, step))
  {
    if step.Forward? {
      ForwardEffect(s, step.t);
      StepKeepsTools(s, step);
      ForwardKeepsForwards(s, Apply(s, step), step.t);
    } else {
      OtherStepKeepsForwards(s, Apply(s, step), step);
    }
  }

  lemma StepKeepsToolInv(s: State, step: Step)
    requires ToolInv(s) && LockInv(s) && Enabled(s, step)
    ensures ToolInv(Apply(s, step))
  {
    StepKeepsTable(s, step);
    StepKeepsFound(s, step);
    StepKeepsForwards(s, step);
    StepKeepsReturns(s, step);
    StepKeepsUnread(s, step);
  }

  /** What no run changes about tools: the registry, the calls made and the statuses once read. */
  ghost predicate ToolsKept(s: State, t: State) {
    && SameTools(s, t)
    && s.sweeps <= t.sweeps
    && s.forwards <= t.forwards
    && |s.handlers| <= |t.handlers|
    && (forall i | |s.handlers| <= i < |t.handlers| :: |s.sweeps| <= t.handlers[i].sweepsBefore)
    && forall i | 0 <= i < |s.handlers| ::
         && t.handlers[i].call == s.handlers[i].call && t.handlers[i].sweepsBefore == s.handlers[i].sweepsBefore
         && (s.handlers[i].seen.Some? ==> t.handlers[i].seen == s.handlers[i].seen)
  }

  lemma StepKeepsHandler(s: State, step: Step, t: nat)
    requires Unread(s) && Enabled(s, step) && t < |s.handlers|
    ensures t < |Apply(s, step).handlers|
    ensures var h, h' := s.handlers[t], Apply(s, step).handlers[t];
      && h'.call == h.call && h'.sweepsBefore == h.sweepsBefore
      && (h.seen.Some? ==> h'.seen == h.seen)
  {
    OthersStay(s, step, t);
    assert ReadsOnce(s.handlers[t]);
  }

  lemma StepExtendsHistory(s: State, step: Step)
    requires Enabled(s, step)
    ensures var s' := Apply(s, step);
      && s.sweeps <= s'.sweeps && s.forwards <= s'.forwards && |s.handlers| <= |s'.handlers|
      && forall i | |s.handlers| <= i < |s'.handlers| :: |s.sweeps| <= s'.handlers[i].sweepsBefore
  {
  }

  lemma StepKeepsPastTools(s: State, s': State, step: Step)
    requires Unread(s) && Enabled(s, step) && s' == Apply(s, step)
    ensures ToolsKept(s, s')
  {
    StepKeepsTools(s, step);
    StepExtendsHistory(s, step);
    forall t: nat | t < |s.handlers|
      ensures s'.handlers[t].call == s.handlers[t].call && s'.handlers[t].sweepsBefore == s.handlers[t].sweepsBefore
      ensures s.handlers[t].seen.Some? ==> s'.handlers[t].seen == s.handlers[t].seen
    {
      StepKeepsHandler(s, step, t);
    }
  }

  lemma {:induction false} RunKeepsToolInv(s: State, steps: seq<Step>)
    requires ToolInv(s) && LockInv(s) && CanRun(s, steps)
    ensures ToolInv(RunOf(s, steps)) && LockInv(RunOf(s, steps)) && ToolsKept(s, RunOf(s, steps))
    decreases |steps|
  {
    if steps != [] {
      StepKeepsToolInv(s, steps[0]);
      StepKeepsLockInv(s, steps[0]);
      StepKeepsPastTools(s, Apply(s, steps[0]), steps[0]);
      RunKeepsToolInv(Apply(s, steps[0]), steps[1..]);
    }
  }

  lemma InitToolInv(tools: map<string, nat>, records: seq<Tool>)
    requires Discovered(tools, records)
    ensures ToolInv(Init(tools, records)) && LockInv(Init(tools, records))
  {
  }

  lemma ReachableToolInv(s: State)
    requires Reachable(s)
    ensures ToolInv(s) && LockInv(s)
  {
    var tools, records, steps :|
      Discovered(tools, records) && CanRun(Init(tools, records), steps) && s == RunOf(Init(tools, records), steps);
    InitToolInv(tools, records);
    RunKeepsToolInv(Init(tools, records), steps);
  }
}
