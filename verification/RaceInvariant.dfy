/**
  What the trace of every run looks like: the lock is used as it allows, every access to the map of answers and to
  the statuses of tools is made under it but one kind, and readers know how often a status had been written.
 */
module RaceInvariant {
  import opened Wrappers
  import opened ServerSpec
  import opened LockOrder
  import opened ServerSystem
  import opened ToolInvariant

  /** The event a step adds to the trace, if any. */
  function EventOf(s: State, step: Step): Option<Event>
    requires Enabled(s, step)
  {
    match step
    case Lock(t) => Some(Locked(Of(t), Exclusive(s.handlers[t].call)))
    case Unlock(t) => Some(Unlocked(Of(t), Exclusive(s.handlers[t].call)))
    case BeginStore(t) => Some(Writes(Of(t), AnswerMap))
    case EndStore(t) => Some(Writes(Of(t), AnswerMap))
    case LookupAnswer(t) => Some(Reads(Of(t), AnswerMap))
    case Visit(t, n) => Some(Reads(Of(t), StatusOf(s.tools[n])))
    case CheckStatus(t, _) =>
      if s.handlers[t].pc.found.Some? then Some(Reads(Of(t), StatusOf(s.handlers[t].pc.found.value.tool))) else None
    case SweepLock => Some(Locked(Sweeper, true))
    case SweepReply(_) => Some(Writes(Sweeper, StatusOf(s.tools[s.sweep.asking.value])))
    case SweepUnlock => Some(Unlocked(Sweeper, true))
    case _ => None
  }

  lemma StepTrace(s: State, step: Step)
    requires Enabled(s, step)
    ensures Apply(s, step).trace == s.trace + if EventOf(s, step).Some? then [EventOf(s, step).value] else []
  {
  }

  // ---- The trace follows the lock ----

  ghost predicate LockTraceOk(s: State) {
    && WellLocked(s.trace)
    && After(s.trace).writer == s.writer
    && forall g :: g in After(s.trace).readers <==> g.Of? && g.t in s.readers
  }

  /** What the lock allows now. */
  lemma EventMayFollow(s: State, step: Step)
    requires LockTraceOk(s) && LockInv(s) && Enabled(s, step) && EventOf(s, step).Some?
    ensures MayFollow(After(s.trace), EventOf(s, step).value)
  {
    if step.Unlock? {
      assert HandlerLockOk(s, step.t);
    }
    if g :| g in After(s.trace).readers {
      assert g.t in s.readers;
    }
  }

  lemma NextHolders(s: State, step: Step)
    requires LockTraceOk(s) && LockInv(s) && Enabled(s, step)
    ensures var s' := Apply(s, step);
      var h := if EventOf(s, step).Some? then Next(After(s.trace), EventOf(s, step).value) else After(s.trace);
      h.writer == s'.writer && forall g :: g in h.readers <==> g.Of? && g.t in s'.readers
  {
    if step.Unlock? {
      assert HandlerLockOk(s, step.t);
    }
  }

  lemma StepKeepsLockTrace(s: State, s': State, step: Step)
    requires LockTraceOk(s) && LockInv(s) && Enabled(s, step) && s' == Apply(s, step)
    ensures LockTraceOk(s')
  {
    StepTrace(s, step);
    NextHolders(s, step);
    if EventOf(s, step).Some? {
      EventMayFollow(s, step);
      WellLockedStep(s.trace, EventOf(s, step).value);
    }
  }

  // ---- Every access but one kind is made under the lock ----

  /** The unlocked read of an ExecuteTool handler: of the status of the tool it was asked for. */
  ghost predicate ExecuteRead(s: State, e: Event) {
    && e.Reads? && e.at.StatusOf? && e.who.Of? && e.who.t < |s.handlers|
    && ReadsStatus(s, s.handlers[e.who.t], e.at.tool)
  }

  ghost predicate ReadsStatus(s: State, h: Handler, a: nat) {
    h.call.ExecuteTool? && h.seen.Some? && h.call.name in s.tools && s.tools[h.call.name] == a
  }

  ghost predicate AccessOk(s: State, i: nat)
    requires i < |s.trace| && s.trace[i].Access()
  {
    && (Guarded(s.trace, i) || ExecuteRead(s, s.trace[i]))
    && (s.trace[i].Writes? && s.trace[i].at.StatusOf? ==> s.trace[i].who == Sweeper)
  }

  ghost predicate AccessesOk(s: State) {
    forall i: nat | i < |s.trace| && s.trace[i].Access() :: AccessOk(s, i)
  }

  /** Every access but the status read of ExecuteTool is made by a holder of the lock. */
  lemma AccessIsHolders(s: State, step: Step)
    requires LockTraceOk(s) && LockInv(s) && Enabled(s, step) && !step.CheckStatus?
    requires EventOf(s, step).Some? && EventOf(s, step).value.Access()
    ensures var e := EventOf(s, step).value;
      Holds(After(s.trace), e.who, true) || (e.Reads? && Holds(After(s.trace), e.who, false))
  {
    if !OfSweep(step) {
      assert HandlerLockOk(s, step.t);
    }
  }

  lemma CheckIsExecuteRead(s: State, s': State, t: nat, index: nat)
    requires FoundOk(s) && Enabled(s, CheckStatus(t, index)) && s' == Apply(s, CheckStatus(t, index))
    requires EventOf(s, CheckStatus(t, index)).Some?
    ensures ExecuteRead(s', EventOf(s, CheckStatus(t, index)).value)
  {
    assert HandlerFound(s, s.handlers[t]);
  }

  lemma NewAccessIsOk(s: State, s': State, step: Step)
    requires LockTraceOk(s) && LockInv(s) && FoundOk(s) && Enabled(s, step) && s' == Apply(s, step)
    requires EventOf(s, step).Some? && EventOf(s, step).value.Access()
    requires s'.trace == s.trace + [EventOf(s, step).value]
    ensures AccessOk(s', |s.trace|)
  {
    assert s'.trace[..|s.trace|] == s.trace;
    if step.CheckStatus? {
      CheckIsExecuteRead(s, s', step.t, step.index);
    } else {
      AccessIsHolders(s, step);
    }
  }

  lemma OldAccessStaysOk(s: State, s': State, step: Step, i: nat)
    requires Unread(s) && Enabled(s, step) && s' == Apply(s, step)
    requires i < |s.trace| && s.trace[i].Access() && AccessOk(s, i)
    ensures i < |s'.trace| && s'.trace[i] == s.trace[i] && AccessOk(s', i)
  {
    StepTrace(s, step);
    assert s'.trace[..i] == s.trace[..i];
    if ExecuteRead(s, s.trace[i]) {
      StepKeepsHandler(s, step, s.trace[i].who.t);
      StepKeepsTools(s, step);
    }
  }

  lemma StepKeepsAccesses(s: State, s': State, step: Step)
    requires LockTraceOk(s) && LockInv(s) && ToolInv(s) && AccessesOk(s) && Enabled(s, step) && s' == Apply(s, step)
    ensures AccessesOk(s')
  {
    StepTrace(s, step);
    forall i: nat | i < |s'.trace| && s'.trace[i].Access() ensures AccessOk(s', i) {
      if i < |s.trace| {
        OldAccessStaysOk(s, s', step, i);
      } else {
        NewAccessIsOk(s, s', step);
      }
    }
  }

  // ---- What a handler does with the lock ----

  /** The accesses of a call to the store of answers. */
  function StoreAccesses(op: StoreOp, g: Owner): seq<Event> {
    if op.id == "" then []
    else if op.Provide? then [Writes(g, AnswerMap), Writes(g, AnswerMap)]
    else [Reads(g, AnswerMap)]
  }

  function StoreEvents(h: Handler, g: Owner): seq<Event>
    requires h.call.Store?
  {
    match h.pc
    case Holding => [Locked(g, Exclusive(h.call))]
    case Storing => [Locked(g, Exclusive(h.call)), Writes(g, AnswerMap)]
    case Leaving(_) => [Locked(g, Exclusive(h.call))] + StoreAccesses(h.call.op, g)
    case Done(_) =>
      [Locked(g, Exclusive(h.call))] + StoreAccesses(h.call.op, g) + [Unlocked(g, Exclusive(h.call))]
    case _ => []
  }

  function ExecuteEvents(tools: map<string, nat>, h: Handler, g: Owner): seq<Event>
    requires h.call.ExecuteTool?
  {
    match h.pc
    case Called => []
    case Holding => [Locked(g, false)]
    case Looked(_) => [Locked(g, false)]
    case _ =>
      [Locked(g, false), Unlocked(g, false)] +
      if h.seen.Some? && h.call.name in tools then [Reads(g, StatusOf(tools[h.call.name]))] else []
  }

  /** The events of a handler of the store or of ExecuteTool. */
  function Expected(s: State, t: nat): seq<Event>
    requires t < |s.handlers| && !s.handlers[t].call.ListTools?
  {
    var h := s.handlers[t];
    if h.call.Store? then StoreEvents(h, Of(t)) else ExecuteEvents(s.tools, h, Of(t))
  }

  ghost predicate OwnEventsOk(s: State) {
    && (forall e <- s.trace :: e.who.Of? ==> e.who.t < |s.handlers|)
    && forall t: nat | t < |s.handlers| && !s.handlers[t].call.ListTools? ::
      EventsOf(s.trace, Of(t)) == Expected(s, t)
  }

  /** An event of a handler's own step is the next one expected. */
  lemma OwnStepExpected(s: State, s': State, step: Step)
    requires LockInv(s) && FoundOk(s) && Unread(s) && Enabled(s, step) && s' == Apply(s, step)
    requires !OfSweep(step) && !step.Call? && !s.handlers[step.t].call.ListTools?
    ensures s'.handlers[step.t].call == s.handlers[step.t].call
    ensures Expected(s', step.t) == Expected(s, step.t) +
      if EventOf(s, step).Some? then [EventOf(s, step).value] else []
    ensures EventOf(s, step).Some? ==> EventOf(s, step).value.who == Of(step.t)
  {
    assert HandlerLockOk(s, step.t) && HandlerFound(s, s.handlers[step.t]) && ReadsOnce(s.handlers[step.t]);
  }

  lemma OtherStepExpected(s: State, s': State, step: Step, t: nat)
    requires Enabled(s, step) && s' == Apply(s, step) && t < |s.handlers|
    requires !s.handlers[t].call.ListTools? && (OfSweep(step) || step.Call? || step.t != t)
    ensures t < |s'.handlers| && s'.handlers[t] == s.handlers[t] && Expected(s', t) == Expected(s, t)
    ensures EventOf(s, step).Some? ==> EventOf(s, step).value.who != Of(t)
  {
    OthersStay(s, step, t);
    StepKeepsTools(s, step);
  }

  /** A new handler has no events yet. */
  lemma CallKeepsOwnEvents(s: State, s': State, call: Call)
    requires OwnEventsOk(s) && s' == Apply(s, Step.Call(call))
    ensures OwnEventsOk(s')
  {
    StepTrace(s, Step.Call(call));
    NoEventsOf(s.trace, Of(|s.handlers|));
    forall t: nat | t < |s.handlers| ensures s'.handlers[t] == s.handlers[t] {}
  }

  lemma HandlersKept(s: State, step: Step, t: nat)
    requires Unread(s) && Enabled(s, step) && !step.Call? && t < |Apply(s, step).handlers|
    ensures t < |s.handlers| && Apply(s, step).handlers[t].call == s.handlers[t].call
  {
    if t < |s.handlers| {
      StepKeepsHandler(s, step, t);
    }
  }

  lemma StepKeepsOwnEventsOf(s: State, s': State, step: Step, t: nat)
    requires LockInv(s) && ToolInv(s) && OwnEventsOk(s) && Enabled(s, step) && s' == Apply(s, step) && !step.Call?
    requires t < |s.handlers| && !s.handlers[t].call.ListTools?
    ensures t < |s'.handlers| && s'.handlers[t].call == s.handlers[t].call
    ensures EventsOf(s'.trace, Of(t)) == Expected(s', t)
  {
    StepTrace(s, step);
    if OfSweep(step) || step.t != t {
      OtherStepExpected(s, s', step, t);
    } else {
      OwnStepExpected(s, s', step);
    }
    if EventOf(s, step).Some? {
      EventsOfStep(s.trace, EventOf(s, step).value, Of(t));
    }
  }

  lemma EventIsOfHandler(s: State, step: Step)
    requires Enabled(s, step) && EventOf(s, step).Some?
    ensures EventOf(s, step).value.who.Of? ==> EventOf(s, step).value.who.t < |s.handlers|
  {
  }

  lemma StepKeepsOwnEvents(s: State, s': State, step: Step)
    requires LockInv(s) && ToolInv(s) && OwnEventsOk(s) && Enabled(s, step) && s' == Apply(s, step)
    ensures OwnEventsOk(s')
  {
    if step.Call? {
      CallKeepsOwnEvents(s, s', step.call);
    } else {
      StepTrace(s, step);
      StepExtendsHistory(s, step);
      if EventOf(s, step).Some? { EventIsOfHandler(s, step); }
      forall t: nat | t < |s'.handlers| && !s'.handlers[t].call.ListTools?
        ensures EventsOf(s'.trace, Of(t)) == Expected(s', t)
      {
        HandlersKept(s, step, t);
        StepKeepsOwnEventsOf(s, s', step, t);
      }
    }
  }

  // ---- How many values a reader knows to be overwritten ----

  /** The number of values a handler knew of is the number written before it took the lock. */
  ghost predicate KnewOk(tr: seq<Event>, t: nat, a: nat, known: nat) {
    forall l: nat | l < |tr| && tr[l] == Locked(Of(t), false) :: known == 1 + WritesTo(tr[..l], StatusOf(a))
  }

  /** What an ExecuteTool handler knows of the tool it was asked for, once it has looked it up. */
  function LinkOf(tools: map<string, nat>, h: Handler): Option<Link> {
    if !h.call.ExecuteTool? || h.pc.Called? || h.pc.Holding? then None
    else if h.pc.Looked? || h.pc.Routed? then h.pc.found
    else if h.seen.Some? && h.call.name in tools then Some(Link(tools[h.call.name], h.seen.value.known))
    else None
  }

  ghost predicate KnownOk(s: State, t: nat)
    requires t < |s.handlers|
  {
    var link := LinkOf(s.tools, s.handlers[t]);
    link.Some? ==> KnewOk(s.trace, t, link.value.tool, link.value.known)
  }

  ghost predicate CountsOk(s: State) {
    && (forall n <- s.tools ::
          s.tools[n] < |s.records| &&
          |s.records[s.tools[n]].written| == 1 + WritesTo(s.trace, StatusOf(s.tools[n])))
    && forall t: nat | t < |s.handlers| :: KnownOk(s, t)
  }

  /** Nothing is written while a handler that has just taken the lock still holds it. */
  lemma NoWritesWhileHeld(s: State, t: nat, l: nat, a: nat)
    requires LockTraceOk(s) && AccessesOk(s) && t < |s.handlers|
    requires EventsOf(s.trace, Of(t)) == [Locked(Of(t), false)]
    requires l < |s.trace| && s.trace[l] == Locked(Of(t), false)
    ensures WritesTo(s.trace[..l], StatusOf(a)) == WritesTo(s.trace, StatusOf(a))
  {
    MoreWritesIff(s.trace, l, |s.trace|, StatusOf(a));
    assert s.trace[..|s.trace|] == s.trace;
    if w: nat :| l <= w < |s.trace| && s.trace[w].Writes? && s.trace[w].at == StatusOf(a) {
      assert AccessOk(s, w);
      var u := ReleasedBeforeWrite(s.trace, Of(t), l, w);
      EventAtPosition(s.trace, u);
      assert false;
    }
  }

  /** What the registry shows a handler that holds the lock is all that had been written when it took it. */
  lemma KnowsAll(s: State, t: nat, a: nat)
    requires LockTraceOk(s) && AccessesOk(s) && t < |s.handlers| && a < |s.records|
    requires EventsOf(s.trace, Of(t)) == [Locked(Of(t), false)]
    requires |s.records[a].written| == 1 + WritesTo(s.trace, StatusOf(a))
    ensures KnewOk(s.trace, t, a, |s.records[a].written|)
  {
    forall l: nat | l < |s.trace| && s.trace[l] == Locked(Of(t), false)
      ensures |s.records[a].written| == 1 + WritesTo(s.trace[..l], StatusOf(a))
    {
      NoWritesWhileHeld(s, t, l, a);
    }
  }

  lemma LookupKnows(s: State, s': State, t: nat)
    requires LockTraceOk(s) && LockInv(s) && ToolInv(s) && AccessesOk(s) && OwnEventsOk(s) && CountsOk(s)
    requires Enabled(s, LookupTool(t)) && s' == Apply(s, LookupTool(t))
    ensures KnownOk(s', t)
  {
    var h := s.handlers[t];
    assert EventsOf(s.trace, Of(t)) == Expected(s, t);
    if h.call.name in s.tools {
      KnowsAll(s, t, s.tools[h.call.name]);
    }
  }

  /** Later events do not change what was known at the look-up. */
  lemma KnewStays(tr: seq<Event>, tr': seq<Event>, t: nat, a: nat, known: nat)
    requires KnewOk(tr, t, a, known) && tr <= tr' && |tr'| <= |tr| + 1
    requires |tr'| > |tr| ==> tr'[|tr|] != Locked(Of(t), false)
    ensures KnewOk(tr', t, a, known)
  {
    forall l: nat | l < |tr'| && tr'[l] == Locked(Of(t), false)
      ensures known == 1 + WritesTo(tr'[..l], StatusOf(a))
    {
      assert tr'[..l] == tr[..l];
    }
  }

  lemma OwnStepKeepsLink(s: State, s': State, step: Step)
    requires LockInv(s) && FoundOk(s) && Unread(s) && Enabled(s, step) && s' == Apply(s, step)
    requires !OfSweep(step) && !step.Call? && !step.LookupTool?
    ensures var link, link' := LinkOf(s.tools, s.handlers[step.t]), LinkOf(s'.tools, s'.handlers[step.t]);
      link'.Some? ==> link' == link && !step.Lock?
  {
    assert HandlerLockOk(s, step.t) && HandlerFound(s, s.handlers[step.t]) && ReadsOnce(s.handlers[step.t]);
  }

  /** A handler that knows something has taken the lock before, and does not take it again. */
  lemma StepKeepsLink(s: State, s': State, step: Step, t: nat)
    requires LockInv(s) && ToolInv(s) && Enabled(s, step) && s' == Apply(s, step)
    requires t < |s.handlers| && !(step.LookupTool? && step.t == t)
    ensures t < |s'.handlers|
    ensures var link, link' := LinkOf(s.tools, s.handlers[t]), LinkOf(s'.tools, s'.handlers[t]);
      link'.Some? ==> link' == link && !(step.Lock? && step.t == t)
  {
    if !OfSweep(step) && !step.Call? && step.t == t {
      OwnStepKeepsLink(s, s', step);
    } else {
      OthersStay(s, step, t);
      StepKeepsTools(s, step);
    }
  }

  lemma OnlyLockLocks(s: State, step: Step, t: nat)
    requires Enabled(s, step) && EventOf(s, step).Some? && EventOf(s, step).value == Locked(Of(t), false)
    ensures step == Lock(t)
  {
  }

  lemma StepKnows(s: State, s': State, step: Step, t: nat)
    requires LockTraceOk(s) && LockInv(s) && ToolInv(s) && AccessesOk(s) && OwnEventsOk(s) && CountsOk(s)
    requires Enabled(s, step) && s' == Apply(s, step) && t < |s.handlers|
    ensures t < |s'.handlers| && KnownOk(s', t)
  {
    if step.LookupTool? && step.t == t {
      LookupKnows(s, s', t);
    } else {
      StepKeepsLink(s, s', step, t);
      var link := LinkOf(s'.tools, s'.handlers[t]);
      if link.Some? {
        StepTrace(s, step);
        assert KnownOk(s, t);
        if EventOf(s, step) == Some(Locked(Of(t), false)) { OnlyLockLocks(s, step, t); }
        KnewStays(s.trace, s'.trace, t, link.value.tool, link.value.known);
      }
    }
  }

  lemma NewHandlerKnows(s: State, s': State, step: Step, t: nat)
    requires Enabled(s, step) && s' == Apply(s, step) && |s.handlers| <= t < |s'.handlers|
    ensures KnownOk(s', t)
  {
  }

  /** The writes to a status are those of the trace. */
  lemma StepKeepsCount(s: State, s': State, step: Step, n: string)
    requires TableInv(s) && CountsOk(s) && LockInv(s) && Enabled(s, step) && s' == Apply(s, step) && n in s.tools
    ensures n in s'.tools && s'.tools[n] < |s'.records|
    ensures |s'.records[s'.tools[n]].written| == 1 + WritesTo(s'.trace, StatusOf(s'.tools[n]))
  {
    StepTrace(s, step);
    StepKeepsTools(s, step);
    if EventOf(s, step).Some? {
      WritesToStep(s.trace, EventOf(s, step).value, StatusOf(s.tools[n]));
    }
  }

  lemma StepKeepsCounts(s: State, s': State, step: Step)
    requires LockTraceOk(s) && LockInv(s) && ToolInv(s) && AccessesOk(s) && OwnEventsOk(s) && CountsOk(s)
    requires Enabled(s, step) && s' == Apply(s, step)
    ensures CountsOk(s')
  {
    StepKeepsTools(s, step);
    forall n <- s'.tools
      ensures s'.tools[n] < |s'.records|
      ensures |s'.records[s'.tools[n]].written| == 1 + WritesTo(s'.trace, StatusOf(s'.tools[n]))
    {
      StepKeepsCount(s, s', step, n);
    }
    forall t: nat | t < |s'.handlers| ensures KnownOk(s', t) {
      if t < |s.handlers| {
        StepKnows(s, s', step, t);
      } else {
        NewHandlerKnows(s, s', step, t);
      }
    }
  }

  // ---- All of it ----

  ghost predicate TraceInv(s: State) {
    LockTraceOk(s) && AccessesOk(s) && OwnEventsOk(s) && CountsOk(s)
  }

  lemma StepKeepsTraceInv(s: State, s': State, step: Step)
    requires LockInv(s) && ToolInv(s) && TraceInv(s) && Enabled(s, step) && s' == Apply(s, step)
    ensures TraceInv(s')
  {
    StepKeepsLockTrace(s, s', step);
    StepKeepsAccesses(s, s', step);
    StepKeepsOwnEvents(s, s', step);
    StepKeepsCounts(s, s', step);
  }

  lemma {:induction false} RunKeepsTraceInv(s: State, steps: seq<Step>)
    requires LockInv(s) && ToolInv(s) && TraceInv(s) && CanRun(s, steps)
    ensures TraceInv(RunOf(s, steps))
    decreases |steps|
  {
    if steps != [] {
      StepKeepsTraceInv(s, Apply(s, steps[0]), steps[0]);
      StepKeepsToolInv(s, steps[0]);
      StepKeepsLockInv(s, steps[0]);
      RunKeepsTraceInv(Apply(s, steps[0]), steps[1..]);
    }
  }

  lemma InitTraceInv(tools: map<string, nat>, records: seq<Tool>)
    requires Discovered(tools, records)
    ensures TraceInv(Init(tools, records))
  {
  }

  lemma ReachableTraceInv(s: State)
    requires Reachable(s)
    ensures TraceInv(s) && ToolInv(s) && LockInv(s)
  {
    ReachableToolInv(s);
    var tools, records, steps :|
      Discovered(tools, records) && CanRun(Init(tools, records), steps) && s == RunOf(Init(tools, records), steps);
    InitToolInv(tools, records);
    InitTraceInv(tools, records);
    RunKeepsTraceInv(Init(tools, records), steps);
  }
}
