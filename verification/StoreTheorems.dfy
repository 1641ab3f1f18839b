/** The human-input store of the MCP server is linearizable, and its responses are stable. */
module StoreTheorems {
  import opened Wrappers
  import opened ServerSpec
  import opened ServerSystem

  /** The store after the given operations, one after another. */
  function Replay(lin: seq<Point>): map<string, Answer> {
    if lin == [] then map[] else StoreAfter(Replay(lin[..|lin| - 1]), lin[|lin| - 1].op)
  }

  /** Every operation returns what it returns when the operations are run one after another. */
  ghost predicate Legal(lin: seq<Point>) {
    forall k | 0 <= k < |lin| :: lin[k].result == StoreReturns(Replay(lin[..k]), lin[k].op)
  }

  /** The store as the map on the heap presents it. */
  function Contents(s: State): map<string, Answer> {
    Read(s.inputs, s.heap)
  }

  function Read(inputs: map<string, nat>, heap: seq<Answer>): map<string, Answer> {
    map id | id in inputs :: Deref(heap, inputs[id])
  }

  /** A handler's outcome is the given result, read through the returned address. */
  ghost predicate Shows(heap: seq<Answer>, o: Outcome, r: StoreResult) {
    match r
    case InvalidArgument => o == Rejected
    case Received => o == Accepted
    case Found(a) => o.Pointer? && o.at < |heap| && heap[o.at] == a
  }

  /** A store handler takes effect once, between its call and its return, with the result it returns. */
  ghost predicate HandlerOk(lin: seq<Point>, heap: seq<Answer>, t: nat, h: Handler) {
    && h.since <= |lin|
    && (h.call.Store? ==>
          match h.pc
          case Called => h.point.None?
          case Holding => h.point.None?
          case Storing => h.point.None? && h.call.op.id != ""
          case Leaving(o) => HasEffect(lin, heap, t, h, o)
          case Done(o) => HasEffect(lin, heap, t, h, o)
          case _ => false)
  }

  ghost predicate HasEffect(lin: seq<Point>, heap: seq<Answer>, t: nat, h: Handler, o: Outcome) {
    && h.point.Some? && h.since <= h.point.value < |lin|
    && lin[h.point.value].t == t
    && Shows(heap, o, lin[h.point.value].result)
  }

  ghost predicate PointOk(handlers: seq<Handler>, k: nat, p: Point) {
    p.t < |handlers| && handlers[p.t].call == Store(p.op) && handlers[p.t].point == Some(k)
  }

  ghost predicate StoreInv(s: State) {
    && (forall id <- s.inputs :: s.inputs[id] < |s.heap|)
    && Replay(s.lin) == Contents(s)
    && Legal(s.lin)
    && (forall k: nat | k < |s.lin| :: PointOk(s.handlers, k, s.lin[k]))
    && (forall t: nat | t < |s.handlers| :: HandlerOk(s.lin, s.heap, t, s.handlers[t]))
  }

  lemma ReplayStep(lin: seq<Point>, p: Point)
    ensures Replay(lin + [p]) == StoreAfter(Replay(lin), p.op)
  {
    assert (lin + [p])[..|lin|] == lin;
  }

  lemma LegalStep(lin: seq<Point>, p: Point)
    requires Legal(lin) && p.result == StoreReturns(Replay(lin), p.op)
    ensures Legal(lin + [p])
  {
    var lin' := lin + [p];
    forall k | 0 <= k < |lin'| ensures lin'[k].result == StoreReturns(Replay(lin'[..k]), lin'[k].op) {
      assert lin'[..k] == lin[..k];
    }
    assert lin'[..|lin|] == lin[..|lin|] == lin;
  }

  /** The steps at which store operations take effect. */
  predicate Effective(step: Step) {
    step.Reject? || step.EndStore? || step.LookupAnswer?
  }

  /** Putting a new object under a key leaves the objects under the other keys as they are. */
  lemma ReadAfterStore(inputs: map<string, nat>, heap: seq<Answer>, id: string, a: Answer)
    requires forall i <- inputs :: inputs[i] < |heap|
    ensures Read(inputs[id := |heap|], heap + [a]) == Read(inputs, heap)[id := a]
  {
  }

  lemma EndStoreKeepsContents(s: State, step: Step)
    requires StoreInv(s) && Enabled(s, step) && step.EndStore?
    ensures Replay(Apply(s, step).lin) == Contents(Apply(s, step))
  {
    var op := s.handlers[step.t].call.op;
    assert HandlerOk(s.lin, s.heap, step.t, s.handlers[step.t]);
    ReplayStep(s.lin, Point(step.t, op, Received));
    ReadAfterStore(s.inputs, s.heap, op.id, Completed(op.value));
  }

  lemma EffectKeepsContents(s: State, step: Step)
    requires StoreInv(s) && Enabled(s, step) && Effective(step)
    ensures var s' := Apply(s, step);
      && (forall id <- s'.inputs :: s'.inputs[id] < |s'.heap|)
      && Replay(s'.lin) == Contents(s')
      && s.heap <= s'.heap
  {
    if step.EndStore? {
      EndStoreKeepsContents(s, step);
    } else {
      ReplayStep(s.lin, Apply(s, step).lin[|s.lin|]);
    }
  }

  lemma EffectIsLegal(s: State, step: Step)
    requires StoreInv(s) && Enabled(s, step) && Effective(step)
    ensures Legal(Apply(s, step).lin)
    ensures HandlerOk(Apply(s, step).lin, Apply(s, step).heap, step.t, Apply(s, step).handlers[step.t])
  {
    assert HandlerOk(s.lin, s.heap, step.t, s.handlers[step.t]);
    LegalStep(s.lin, Apply(s, step).lin[|s.lin|]);
  }

  lemma HandlerStaysOk(lin: seq<Point>, heap: seq<Answer>, lin': seq<Point>, heap': seq<Answer>, t: nat, h: Handler)
    requires HandlerOk(lin, heap, t, h) && lin <= lin' && heap <= heap'
    ensures HandlerOk(lin', heap', t, h)
  {
  }

  lemma EffectKeepsStoreInv(s: State, step: Step)
    requires StoreInv(s) && Enabled(s, step) && Effective(step)
    ensures StoreInv(Apply(s, step))
  {
    var s' := Apply(s, step);
    EffectKeepsContents(s, step);
    EffectIsLegal(s, step);
    assert HandlerOk(s.lin, s.heap, step.t, s.handlers[step.t]);
    forall k: nat | k < |s'.lin| ensures PointOk(s'.handlers, k, s'.lin[k]) {
      if k < |s.lin| { assert PointOk(s.handlers, k, s.lin[k]); }
    }
    forall t: nat | t < |s'.handlers| ensures HandlerOk(s'.lin, s'.heap, t, s'.handlers[t]) {
      HandlerStaysOk(s.lin, s.heap, s'.lin, s'.heap, t, s.handlers[t]);
    }
  }

  /** The other steps of a handler come before its operation takes effect, or after. */
  lemma OwnQuietStep(s: State, step: Step)
    requires StoreInv(s) && LockInv(s) && Enabled(s, step)
    requires !Effective(step) && !OfSweep(step) && !step.Call?
    ensures var h, h' := s.handlers[step.t], Apply(s, step).handlers[step.t];
      && h'.call == h.call
      && (h.call.Store? ==> h'.point == h.point)
      && HandlerOk(s.lin, s.heap, step.t, h')
  {
    assert HandlerOk(s.lin, s.heap, step.t, s.handlers[step.t]) && HandlerLockOk(s, step.t);
  }

  lemma QuietStep(s: State, step: Step, t: nat)
    requires StoreInv(s) && LockInv(s) && Enabled(s, step) && !Effective(step) && t < |s.handlers|
    ensures t < |Apply(s, step).handlers|
    ensures var h, h' := s.handlers[t], Apply(s, step).handlers[t];
      && h'.call == h.call
      && (h.call.Store? ==> h'.point == h.point)
      && HandlerOk(s.lin, s.heap, t, h')
  {
    OthersStay(s, step, t);
    if OfSweep(step) || step.Call? || t != step.t {
      assert HandlerOk(s.lin, s.heap, t, s.handlers[t]);
    } else {
      OwnQuietStep(s, step);
    }
  }

  lemma QuietStepKeepsStore(s: State, step: Step)
    requires Enabled(s, step) && !Effective(step)
    ensures var s' := Apply(s, step);
      && s'.lin == s.lin && s'.heap == s.heap && s'.inputs == s.inputs
      && |s.handlers| <= |s'.handlers|
      && forall t: nat | |s.handlers| <= t < |s'.handlers| :: HandlerOk(s.lin, s.heap, t, s'.handlers[t])
  {
  }

  lemma QuietStepKeepsStoreInv(s: State, step: Step)
    requires StoreInv(s) && LockInv(s) && Enabled(s, step) && !Effective(step)
    ensures StoreInv(Apply(s, step))
  {
    var s' := Apply(s, step);
    QuietStepKeepsStore(s, step);
    assert Contents(s') == Contents(s);
    forall k: nat | k < |s'.lin| ensures PointOk(s'.handlers, k, s'.lin[k]) {
      assert PointOk(s.handlers, k, s.lin[k]);
      QuietStep(s, step, s.lin[k].t);
    }
    forall t: nat | t < |s'.handlers| ensures HandlerOk(s'.lin, s'.heap, t, s'.handlers[t]) {
      if t < |s.handlers| { QuietStep(s, step, t); }
    }
  }

  lemma StepKeepsStoreInv(s: State, step: Step)
    requires StoreInv(s) && LockInv(s) && Enabled(s, step)
    ensures StoreInv(Apply(s, step))
  {
    if Effective(step) {
      EffectKeepsStoreInv(s, step);
    } else {
      QuietStepKeepsStoreInv(s, step);
    }
  }

  /** What later steps never change: finished handlers, past points and the objects on the heap. */
  ghost predicate Kept(s: State, t: State) {
    && |s.handlers| <= |t.handlers|
    && (forall i | 0 <= i < |s.handlers| ::
          && t.handlers[i].since == s.handlers[i].since
          && (s.handlers[i].pc.Done? ==> t.handlers[i] == s.handlers[i]))
    && (forall i | |s.handlers| <= i < |t.handlers| :: |s.lin| <= t.handlers[i].since)
    && s.lin <= t.lin
    && s.heap <= t.heap
  }

  lemma StepKeepsHistory(s: State, step: Step)
    requires Enabled(s, step)
    ensures var s' := Apply(s, step);
      && s.lin <= s'.lin && s.heap <= s'.heap && |s.handlers| <= |s'.handlers|
      && forall i | |s.handlers| <= i < |s'.handlers| :: |s.lin| <= s'.handlers[i].since
  {
  }

  lemma StepKeepsDone(s: State, step: Step, t: nat)
    requires Enabled(s, step) && t < |s.handlers|
    ensures t < |Apply(s, step).handlers|
    ensures var h, h' := s.handlers[t], Apply(s, step).handlers[t];
      h'.since == h.since && (h.pc.Done? ==> h' == h)
  {
    OthersStay(s, step, t);
  }

  lemma StepKeepsPast(s: State, s': State, step: Step)
    requires Enabled(s, step) && s' == Apply(s, step)
    ensures Kept(s, s')
  {
    StepKeepsHistory(s, step);
    forall i: nat | i < |s.handlers|
      ensures s'.handlers[i].since == s.handlers[i].since
      ensures s.handlers[i].pc.Done? ==> s'.handlers[i] == s.handlers[i]
    {
      StepKeepsDone(s, step, i);
    }
  }

  lemma KeptTransitive(r: State, s: State, t: State)
    requires Kept(r, s) && Kept(s, t)
    ensures Kept(r, t)
  {
  }

  lemma {:induction false} RunKeepsStore(s: State, steps: seq<Step>)
    requires StoreInv(s) && LockInv(s) && CanRun(s, steps)
    ensures StoreInv(RunOf(s, steps)) && LockInv(RunOf(s, steps)) && Kept(s, RunOf(s, steps))
    decreases |steps|
  {
    if steps != [] {
      StepKeepsStoreInv(s, steps[0]);
      StepKeepsLockInv(s, steps[0]);
      StepKeepsPast(s, Apply(s, steps[0]), steps[0]);
      RunKeepsStore(Apply(s, steps[0]), steps[1..]);
      KeptTransitive(s, Apply(s, steps[0]), RunOf(s, steps));
    }
  }

  lemma ReachableStoreInv(s: State)
    requires Reachable(s)
    ensures StoreInv(s) && LockInv(s)
  {
    var tools, records, steps :|
      Discovered(tools, records) && CanRun(Init(tools, records), steps) && s == RunOf(Init(tools, records), steps);
    RunKeepsStore(Init(tools, records), steps);
  }

  /**
    Linearizability. In every reachable state the store operations that have taken effect form one legal
    sequential history; each finished call is in it exactly once, at a position reached after the call began,
    and returns the result of that position.
   */
  lemma Linearizable(s: State, t: nat)
    requires Reachable(s) && t < |s.handlers| && s.handlers[t].call.Store? && s.handlers[t].pc.Done?
    ensures Legal(s.lin) && Replay(s.lin) == Contents(s)
    ensures var h := s.handlers[t];
      && h.point.Some? && h.since <= h.point.value < |s.lin|
      && s.lin[h.point.value].op == h.call.op
      && Shows(s.heap, h.pc.outcome, s.lin[h.point.value].result)
      && (forall k: nat | k < |s.lin| :: s.lin[k].t == t <==> k == h.point.value)
  {
    ReachableStoreInv(s);
    assert HandlerOk(s.lin, s.heap, t, s.handlers[t]);
    forall k: nat | k < |s.lin| ensures PointOk(s.handlers, k, s.lin[k]) {}
  }

  /** Real-time order: a call that returned before another began is before it in the history. */
  lemma RealTimeOrder(s: State, steps: seq<Step>, a: nat, b: nat)
    requires Reachable(s) && CanRun(s, steps)
    requires a < |s.handlers| && s.handlers[a].call.Store? && s.handlers[a].pc.Done?
    requires |s.handlers| <= b < |RunOf(s, steps).handlers|
    requires RunOf(s, steps).handlers[b].call.Store? && RunOf(s, steps).handlers[b].pc.Done?
    ensures var t := RunOf(s, steps);
      && t.handlers[a] == s.handlers[a]
      && t.handlers[a].point.Some? && t.handlers[b].point.Some?
      && t.handlers[a].point.value < t.handlers[b].point.value
  {
    ReachableStoreInv(s);
    RunKeepsStore(s, steps);
    var t := RunOf(s, steps);
    assert HandlerOk(s.lin, s.heap, a, s.handlers[a]);
    assert HandlerOk(t.lin, t.heap, b, t.handlers[b]);
  }

  /** Response stability: what a returned pointer shows never changes, whatever is provided later. */
  lemma ResponseStable(s: State, steps: seq<Step>, t: nat)
    requires Reachable(s) && CanRun(s, steps)
    requires t < |s.handlers| && s.handlers[t].call.Store?
    requires s.handlers[t].pc.Done? && s.handlers[t].pc.outcome.Pointer?
    ensures s.handlers[t].point.Some? && s.handlers[t].point.value < |s.lin|
    ensures Found(Deref(RunOf(s, steps).heap, s.handlers[t].pc.outcome.at)) == s.lin[s.handlers[t].point.value].result
  {
    ReachableStoreInv(s);
    RunKeepsStore(s, steps);
    assert HandlerOk(s.lin, s.heap, t, s.handlers[t]);
  }

  /** The position of the last answer provided for `id` among the first `k` operations. */
  function LastProvide(lin: seq<Point>, k: nat, id: string): Option<nat>
    requires k <= |lin|
  {
    if k == 0 then None
    else if lin[k - 1].op.Provide? && lin[k - 1].op.id == id then Some(k - 1)
    else LastProvide(lin, k - 1, id)
  }

  lemma {:induction false} LastProvideIsLast(lin: seq<Point>, k: nat, id: string)
    requires k <= |lin|
    ensures match LastProvide(lin, k, id)
      case None => forall i | 0 <= i < k :: !(lin[i].op.Provide? && lin[i].op.id == id)
      case Some(j) => (
        && j < k && lin[j].op.Provide? && lin[j].op.id == id
        && forall i | j < i < k :: !(lin[i].op.Provide? && lin[i].op.id == id))
  {
    if k > 0 {
      LastProvideIsLast(lin, k - 1, id);
    }
  }

  lemma {:induction false} ReplayIsLastProvide(lin: seq<Point>, k: nat, id: string)
    requires k <= |lin| && id != ""
    ensures match LastProvide(lin, k, id)
      case None => id !in Replay(lin[..k])
      case Some(j) => (
        && j < |lin| && lin[j].op.Provide?
        && id in Replay(lin[..k]) && Replay(lin[..k])[id] == Completed(lin[j].op.value))
  {
    if k > 0 {
      assert lin[..k][..k - 1] == lin[..k - 1];
      ReplayIsLastProvide(lin, k - 1, id);
    }
  }

  /**
    A legal history answers a Get with the last answer provided for that id before it, under the status `completed`,
    and with the status `pending` and no answer if there was none.
   */
  lemma GetSeesLastProvide(lin: seq<Point>, k: nat)
    requires Legal(lin) && k < |lin| && lin[k].op.Get? && lin[k].op.id != ""
    ensures lin[k].result.Found?
    ensures match LastProvide(lin, k, lin[k].op.id)
      case None => lin[k].result.answer == Answer("pending", None)
      case Some(j) => (
        j < k && lin[j].op.Provide? && lin[k].result.answer == Answer("completed", Some(lin[j].op.value)))
  {
    ReplayIsLastProvide(lin, k, lin[k].op.id);
    LastProvideIsLast(lin, k, lin[k].op.id);
  }

  /**
    A Get reports `pending` exactly when no answer for its id was provided before it, and otherwise `completed`,
    with an answer.
   */
  lemma PendingIffNotProvided(lin: seq<Point>, k: nat)
    requires Legal(lin) && k < |lin| && lin[k].op.Get? && lin[k].op.id != ""
    ensures lin[k].result.Found?
    ensures var a, provided := lin[k].result.answer,
        exists i :: 0 <= i < k && lin[i].op.Provide? && lin[i].op.id == lin[k].op.id;
      && (a.status == "pending" <==> !provided)
      && (a.status == "completed" <==> provided)
      && (a.response.Some? <==> provided)
  {
    GetSeesLastProvide(lin, k);
    LastProvideIsLast(lin, k, lin[k].op.id);
  }

  /**
    An empty id is rejected, and nothing else: any other ProvideHumanInput is received, and any other GetHumanInput is
    given a response.
   */
  lemma RejectedIffEmpty(s: State, t: nat)
    requires Reachable(s) && t < |s.handlers| && s.handlers[t].call.Store? && s.handlers[t].pc.Done?
    ensures var op, o := s.handlers[t].call.op, s.handlers[t].pc.outcome;
      && (o == Rejected <==> op.id == "")
      && (o == Accepted <==> op.id != "" && op.Provide?)
      && (o.Pointer? <==> op.id != "" && op.Get?)
  {
    Linearizable(s, t);
    var k := s.handlers[t].point.value;
    assert s.lin[k].result == StoreReturns(Replay(s.lin[..k]), s.lin[k].op);
  }

  /** The response a finished Get was given, as the caller reads it. */
  function Shown(s: State, t: nat): Answer
    requires t < |s.handlers| && s.handlers[t].pc.Done? && s.handlers[t].pc.outcome.Pointer?
  {
    Deref(s.heap, s.handlers[t].pc.outcome.at)
  }

  /** A finished handler showed a completed answer for `id`, or provided one. */
  ghost predicate Settles(s: State, t: nat, id: string)
    requires t < |s.handlers|
  {
    var h := s.handlers[t];
    && h.call.Store? && h.call.op.id == id && h.pc.Done?
    && (h.call.op.Get? ==> h.pc.outcome.Pointer? && Shown(s, t).status != "pending")
  }

  /** Behind a settled call there is an answer in the history, not later than the call itself. */
  lemma SettledByProvide(s: State, a: nat) returns (i: nat)
    requires Reachable(s) && a < |s.handlers| && s.handlers[a].call.Store? && s.handlers[a].call.op.id != ""
    requires Settles(s, a, s.handlers[a].call.op.id)
    ensures s.handlers[a].point.Some? && i <= s.handlers[a].point.value && i < |s.lin|
    ensures s.lin[i].op.Provide? && s.lin[i].op.id == s.handlers[a].call.op.id
  {
    Linearizable(s, a);
    i := s.handlers[a].point.value;
    if s.lin[i].op.Get? {
      PendingIffNotProvided(s.lin, i);
      i :| i < s.handlers[a].point.value && s.lin[i].op.Provide? && s.lin[i].op.id == s.handlers[a].call.op.id;
    }
  }

  /** A Get that takes effect after an answer for its id shows a completed one. */
  lemma CompletedAfterProvide(t: State, b: nat, i: nat)
    requires Reachable(t) && b < |t.handlers| && t.handlers[b].call.Store? && t.handlers[b].call.op.Get?
    requires t.handlers[b].call.op.id != "" && t.handlers[b].pc.Done? && t.handlers[b].point.Some?
    requires i < t.handlers[b].point.value && i < |t.lin|
    requires t.lin[i].op.Provide? && t.lin[i].op.id == t.handlers[b].call.op.id
    ensures t.handlers[b].pc.outcome.Pointer?
    ensures Shown(t, b).status == "completed" && Shown(t, b).response.Some?
  {
    Linearizable(t, b);
    PendingIffNotProvided(t.lin, t.handlers[b].point.value);
  }

  /**
    Once an answer for an id has been provided, or a Get has shown one, no Get that is called afterwards shows
    `pending` again: its status is `completed`, and it has a response.
   */
  lemma NeverPendingAgain(s: State, steps: seq<Step>, a: nat, b: nat)
    requires Reachable(s) && CanRun(s, steps)
    requires a < |s.handlers| && s.handlers[a].call.Store? && s.handlers[a].call.op.id != ""
    requires Settles(s, a, s.handlers[a].call.op.id)
    requires |s.handlers| <= b < |RunOf(s, steps).handlers|
    requires var h := RunOf(s, steps).handlers[b];
      h.call == Store(Get(s.handlers[a].call.op.id)) && h.pc.Done?
    ensures var t := RunOf(s, steps);
      && t.handlers[b].pc.outcome.Pointer?
      && Shown(t, b).status == "completed" && Shown(t, b).response.Some?
  {
    ReachableStoreInv(s);
    RunKeepsStore(s, steps);
    ReachableRun(s, steps);
    RealTimeOrder(s, steps, a, b);
    var i := SettledByProvide(s, a);
    CompletedAfterProvide(RunOf(s, steps), b, i);
  }
}
