/**
  Data races of the server, as the Go memory model defines them: which accesses to the map of answers and to the
  statuses of tools are ordered, which are not, and what an unordered read can yield.
 */
module RaceTheorems {
  import opened ServerSpec
  import opened LockOrder
  import opened ServerSystem
  import opened ToolInvariant
  import opened RaceInvariant

  // ---- Who races ----

  /** Both accesses of a race, one of which is not made under the lock. */
  lemma RaceIsLateRead(s: State, i: nat, j: nat)
    requires TraceInv(s) && Race(s.trace, i, j)
    ensures ExecuteRead(s, s.trace[i]) || ExecuteRead(s, s.trace[j])
  {
    assert AccessOk(s, i) && AccessOk(s, j);
    if Guarded(s.trace, i) && Guarded(s.trace, j) {
      GuardedNeverRace(s.trace, i, j);
    }
  }

  /**
    A finished call of the store has done exactly this: taken the lock, alone for a ProvideHumanInput and shared for a
    GetHumanInput, accessed the map of answers unless its id is empty, and released the lock.
   */
  lemma StoreCallEvents(s: State, t: nat)
    requires Reachable(s) && t < |s.handlers| && s.handlers[t].call.Store? && s.handlers[t].pc.Done?
    ensures var op, g := s.handlers[t].call.op, Of(t);
      EventsOf(s.trace, g) ==
        if op.id == "" then [Locked(g, op.Provide?), Unlocked(g, op.Provide?)]
        else if op.Provide? then
          [Locked(g, true), Writes(g, AnswerMap), Writes(g, AnswerMap), Unlocked(g, true)]
        else [Locked(g, false), Reads(g, AnswerMap), Unlocked(g, false)]
  {
    ReachableTraceInv(s);
    assert EventsOf(s.trace, Of(t)) == Expected(s, t);
  }

  /** ListTools reads the status of each tool it visits, a sweep writes that of each tool it has heard from. */
  lemma StatusAccessIsTraced(s: State, step: Step)
    requires Enabled(s, step) && (step.Visit? || step.SweepReply?)
    ensures Apply(s, step).trace == s.trace +
      if step.Visit? then [Reads(Of(step.t), StatusOf(s.tools[step.name]))]
      else [Writes(Sweeper, StatusOf(s.tools[s.sweep.asking.value]))]
  {
  }

  /** The map of answers is accessed under the lock only, so no two accesses to it race. */
  lemma AnswerMapIsOrdered(s: State, i: nat, j: nat)
    requires Reachable(s) && i < j < |s.trace|
    requires Conflict(s.trace[i], s.trace[j]) && s.trace[i].at == AnswerMap
    ensures Guarded(s.trace, i) && Guarded(s.trace, j)
    ensures Before(s.trace, i, j)
  {
    ReachableTraceInv(s);
    assert AccessOk(s, i) && AccessOk(s, j);
    GuardedAreOrdered(s.trace, i, j);
  }

  /** The reads of ListTools race with nothing. */
  lemma ListIsOrdered(s: State, i: nat, j: nat)
    requires Reachable(s) && i < |s.trace| && j < |s.trace| && i != j && Conflict(s.trace[i], s.trace[j])
    requires s.trace[i].Reads? && s.trace[i].at.StatusOf?
    requires s.trace[i].who.Of? && s.trace[i].who.t < |s.handlers|
    requires s.handlers[s.trace[i].who.t].call.ListTools?
    ensures Guarded(s.trace, i) && !Race(s.trace, i, j)
  {
    ReachableTraceInv(s);
    assert AccessOk(s, i) && AccessOk(s, j);
    GuardedNeverRace(s.trace, i, j);
  }

  /** The unlocked read is the last of the three things its handler does with shared variables and the lock. */
  lemma ExecuteReadIsLate(s: State, r: nat) returns (l: nat)
    requires TraceInv(s) && FoundOk(s) && LockInv(s) && Unread(s) && r < |s.trace| && ExecuteRead(s, s.trace[r])
    ensures l < |s.trace| && s.trace[l] == Locked(s.trace[r].who, false)
    ensures LateRead(s.trace, s.trace[r].who, s.trace[r].at)
  {
    var g := s.trace[r].who;
    assert EventsOf(s.trace, g) == Expected(s, g.t);
    assert HandlerFound(s, s.handlers[g.t]) && HandlerLockOk(s, g.t) && ReadsOnce(s.handlers[g.t]);
    l := EventFound(s.trace, g, 0);
  }

  /**
    The only races are between the status read of an ExecuteTool handler, of the tool it was asked for, and a write
    of that status by a sweep, made after the handler had taken the lock for its look-up.
   */
  lemma OnlyExecuteRaces(s: State, i: nat, j: nat) returns (r: nat, w: nat, l: nat)
    requires Reachable(s) && Race(s.trace, i, j)
    ensures (r == i && w == j) || (r == j && w == i)
    ensures ExecuteRead(s, s.trace[r])
    ensures s.trace[w] == Writes(Sweeper, s.trace[r].at)
    ensures l < w && s.trace[l] == Locked(s.trace[r].who, false)
  {
    ReachableTraceInv(s);
    RaceIsLateRead(s, i, j);
    r, w := if ExecuteRead(s, s.trace[i]) then i else j, if ExecuteRead(s, s.trace[i]) then j else i;
    assert AccessOk(s, w);
    l := ExecuteReadIsLate(s, r);
    LateReadRacesIff(s.trace, s.trace[r].who, s.trace[r].at, l, w, r);
  }

  /**
    The exact condition for one read and one write: they race if and only if the sweep wrote after the handler had
    taken the lock for its look-up, before the read or after it, and whether the sweep was over or not.
   */
  lemma ExecuteRacesIff(s: State, l: nat, r: nat, w: nat)
    requires Reachable(s) && l < |s.trace| && r < |s.trace| && w < |s.trace|
    requires ExecuteRead(s, s.trace[r]) && s.trace[l] == Locked(s.trace[r].who, false)
    requires s.trace[w].Writes? && s.trace[w].at == s.trace[r].at
    ensures Race(s.trace, w, r) <==> l < w
  {
    ReachableTraceInv(s);
    assert AccessOk(s, w);
    var k := ExecuteReadIsLate(s, r);
    LateReadRacesIff(s.trace, s.trace[r].who, s.trace[r].at, l, w, r);
  }

  // ---- When a handler races ----

  /** The status read of handler `t`, at `r`, races with the write at `w`. */
  ghost predicate RacesAt(s: State, t: nat, w: nat, r: nat) {
    && w < |s.trace| && r < |s.trace| && s.trace[r].Reads? && s.trace[r].who == Of(t) && s.trace[w].Writes?
    && Race(s.trace, w, r)
  }

  /** The status read of handler `t` races with some write made so far. */
  ghost predicate Racy(s: State, t: nat) {
    exists w: nat, r: nat :: RacesAt(s, t, w, r)
  }

  /** A sweep that began after the handler's look-up has set the status of the requested tool. */
  predicate SweptSince(s: State, known: nat, name: string) {
    |s.sweeps| > known || (s.sweep.Sweeping? && name in s.sweep.replies)
  }

  lemma WrittenSinceIff(s: State, t: nat, l: nat)
    requires TraceInv(s) && ToolInv(s) && t < |s.handlers| && s.handlers[t].seen.Some?
    requires l < |s.trace| && s.trace[l] == Locked(Of(t), false)
    ensures s.handlers[t].call.ExecuteTool? && s.handlers[t].call.name in s.tools
    ensures var x := StatusOf(s.tools[s.handlers[t].call.name]);
      SweptSince(s, s.handlers[t].seen.value.known, s.handlers[t].call.name) <==>
      exists w: nat :: l <= w < |s.trace| && s.trace[w].Writes? && s.trace[w].at == x
  {
    var h := s.handlers[t];
    assert SeenOk(s, h) && KnownOk(s, t) && ReadsOnce(h);
    assert WrittenOk(s.sweeps, Heard(s.sweep), h.call.name, s.records[s.tools[h.call.name]].written);
    MoreWritesIff(s.trace, l, |s.trace|, StatusOf(s.tools[h.call.name]));
    assert s.trace[..|s.trace|] == s.trace;
  }

  /** A handler has at most one read. */
  lemma ReadIsUnique(s: State, t: nat, q: nat, r: nat)
    requires t < |s.handlers| && s.handlers[t].call.ExecuteTool?
    requires EventsOf(s.trace, Of(t)) == Expected(s, t)
    requires q < |s.trace| && s.trace[q].Reads? && s.trace[q].who == Of(t)
    requires r < |s.trace| && s.trace[r].Reads? && s.trace[r].who == Of(t)
    ensures q == r
  {
    EventAtPosition(s.trace, q);
    EventAtPosition(s.trace, r);
    if q < r {
      PositionsGrow(s.trace, q, r);
    } else if r < q {
      PositionsGrow(s.trace, r, q);
    }
  }

  /** Where a handler that has read a status did so. */
  lemma ReadInTrace(s: State, t: nat) returns (l: nat, r: nat)
    requires TraceInv(s) && ToolInv(s) && LockInv(s) && t < |s.handlers| && s.handlers[t].seen.Some?
    ensures r < |s.trace| && ExecuteRead(s, s.trace[r]) && s.trace[r].who == Of(t)
    ensures l < |s.trace| && s.trace[l] == Locked(Of(t), false)
    ensures forall q: nat | q < |s.trace| && s.trace[q].Reads? && s.trace[q].who == Of(t) :: q == r
  {
    var h := s.handlers[t];
    assert SeenOk(s, h) && ReadsOnce(h) && HandlerFound(s, h) && HandlerLockOk(s, t);
    assert EventsOf(s.trace, Of(t)) == Expected(s, t);
    l := EventFound(s.trace, Of(t), 0);
    r := EventFound(s.trace, Of(t), 2);
    forall q: nat | q < |s.trace| && s.trace[q].Reads? && s.trace[q].who == Of(t) ensures q == r {
      ReadIsUnique(s, t, q, r);
    }
  }

  lemma WrittenMeansRacy(s: State, t: nat, l: nat, r: nat, w: nat)
    requires Reachable(s) && l < |s.trace| && r < |s.trace|
    requires ExecuteRead(s, s.trace[r]) && s.trace[r].who == Of(t) && s.trace[l] == Locked(Of(t), false)
    requires l <= w < |s.trace| && s.trace[w].Writes? && s.trace[w].at == s.trace[r].at
    ensures Racy(s, t)
  {
    ExecuteRacesIff(s, l, r, w);
    assert RacesAt(s, t, w, r);
  }

  lemma RacyMeansWritten(s: State, t: nat, l: nat, r: nat) returns (w: nat)
    requires Reachable(s) && l < |s.trace| && r < |s.trace|
    requires ExecuteRead(s, s.trace[r]) && s.trace[r].who == Of(t) && s.trace[l] == Locked(Of(t), false)
    requires forall q: nat | q < |s.trace| && s.trace[q].Reads? && s.trace[q].who == Of(t) :: q == r
    requires Racy(s, t)
    ensures l <= w < |s.trace| && s.trace[w].Writes? && s.trace[w].at == s.trace[r].at
  {
    var q: nat;
    w, q :| RacesAt(s, t, w, q);
    ExecuteRacesIff(s, l, r, w);
  }

  /** A handler that has read races with the writes after its look-up. */
  lemma RacyIffWritten(s: State, t: nat, l: nat, r: nat)
    requires Reachable(s) && l < |s.trace| && r < |s.trace|
    requires ExecuteRead(s, s.trace[r]) && s.trace[r].who == Of(t) && s.trace[l] == Locked(Of(t), false)
    requires forall q: nat | q < |s.trace| && s.trace[q].Reads? && s.trace[q].who == Of(t) :: q == r
    ensures Racy(s, t) <==>
      exists w: nat :: l <= w < |s.trace| && s.trace[w].Writes? && s.trace[w].at == s.trace[r].at
  {
    if Racy(s, t) {
      var w := RacyMeansWritten(s, t, l, r);
    } else if w: nat :| l <= w < |s.trace| && s.trace[w].Writes? && s.trace[w].at == s.trace[r].at {
      WrittenMeansRacy(s, t, l, r, w);
    }
  }

  /**
    At any time after its read, a handler has raced if and only if a sweep that began after its look-up has set the
    status of the tool it was asked for.
   */
  lemma HandlerRacesIff(s: State, t: nat)
    requires Reachable(s) && t < |s.handlers| && s.handlers[t].seen.Some?
    ensures s.handlers[t].call.ExecuteTool?
    ensures Racy(s, t) <==> SweptSince(s, s.handlers[t].seen.value.known, s.handlers[t].call.name)
  {
    ReachableTraceInv(s);
    var l, r := ReadInTrace(s, t);
    WrittenSinceIff(s, t, l);
    RacyIffWritten(s, t, l, r);
  }

  /** `known` is the number of sweeps that were over when the handler looked the tool up and released the lock. */
  lemma KnownIsSweepsAtRelease(s: State, t: nat)
    requires Reachable(s) && t < |s.handlers| && s.handlers[t].pc.Looked? && s.handlers[t].pc.found.Some?
    ensures s.handlers[t].pc.found.value.known == |s.sweeps|
  {
    ReachableTraceInv(s);
    var h := s.handlers[t];
    assert HandlerLockOk(s, t) && HandlerFound(s, h) && KnownOk(s, t);
    assert EventsOf(s.trace, Of(t)) == Expected(s, t);
    var l := EventFound(s.trace, Of(t), 0);
    NoWritesWhileHeld(s, t, l, h.pc.found.value.tool);
    assert WrittenOk(s.sweeps, Heard(s.sweep), h.call.name, s.records[s.tools[h.call.name]].written);
  }

  /** At its read, a handler races with a write made before if and only if a sweep has since set the status. */
  lemma CheckRacesIff(s: State, t: nat, index: nat)
    requires Reachable(s) && Enabled(s, CheckStatus(t, index)) && s.handlers[t].pc.found.Some?
    ensures s.handlers[t].call.ExecuteTool?
    ensures Racy(Apply(s, CheckStatus(t, index)), t) <==>
      SweptSince(s, s.handlers[t].pc.found.value.known, s.handlers[t].call.name)
  {
    ReachableToolInv(s);
    assert HandlerFound(s, s.handlers[t]);
    ReachableStep(s, CheckStatus(t, index));
    HandlerRacesIff(Apply(s, CheckStatus(t, index)), t);
  }

  /**
    A handler that does not race has read the status that the last sweep over at its look-up left: the one
    ListTools would have gone by at that moment.
   */
  lemma OrderedReadIsSnapshot(s: State, t: nat)
    requires Reachable(s) && t < |s.handlers| && s.handlers[t].seen.Some? && !Racy(s, t)
    ensures s.handlers[t].call.ExecuteTool?
    ensures var h, seen := s.handlers[t], s.handlers[t].seen.value;
      1 <= seen.known <= |s.sweeps| && Recorded(s, seen.known - 1, h.call.name, seen.status)
  {
    ReachableToolInv(s);
    HandlerRacesIff(s, t);
    var h := s.handlers[t];
    assert SeenOk(s, h) && HandlerFound(s, h);
    assert WrittenOk(s.sweeps, Heard(s.sweep), h.call.name, s.records[s.tools[h.call.name]].written);
  }

  /** A handler that has read any value but that one races. */
  lemma OtherReadRaces(s: State, t: nat)
    requires Reachable(s) && t < |s.handlers| && s.handlers[t].seen.Some?
    requires s.handlers[t].seen.value.index != s.handlers[t].seen.value.known - 1
    ensures Racy(s, t)
  {
    ReachableToolInv(s);
    HandlerRacesIff(s, t);
    var h := s.handlers[t];
    assert SeenOk(s, h);
    assert WrittenOk(s.sweeps, Heard(s.sweep), h.call.name, s.records[s.tools[h.call.name]].written);
  }

  // ---- What an unordered read can yield ----

  /** The number of the value that the write at `w` gave to its variable; discovery gave it the value number 0. */
  function Number(tr: seq<Event>, w: nat): nat
    requires w < |tr| && tr[w].Writes?
  {
    WritesTo(tr[..w], tr[w].at) + 1
  }

  /** Write `w` was overwritten by another before the read at `r`. */
  ghost predicate Overwritten(tr: seq<Event>, w: nat, r: nat)
    requires w < |tr| && tr[w].Writes?
  {
    exists v: nat :: v < |tr| && tr[v] == Writes(Sweeper, tr[w].at) && Before(tr, w, v) && Before(tr, v, r)
  }

  /** A write of a sweep happens before the late read if and only if it comes before the look-up. */
  lemma WriteBeforeReadIff(s: State, l: nat, r: nat, w: nat)
    requires TraceInv(s) && l < |s.trace| && r < |s.trace| && w < |s.trace| && ExecuteRead(s, s.trace[r])
    requires LateRead(s.trace, s.trace[r].who, s.trace[r].at)
    requires s.trace[l] == Locked(s.trace[r].who, false)
    requires s.trace[w] == Writes(Sweeper, s.trace[r].at)
    ensures Before(s.trace, w, r) <==> w < l
  {
    assert AccessOk(s, w);
    if w < l {
      EarlyWriteIsOrdered(s.trace, s.trace[r].who, s.trace[r].at, l, w, r);
    } else {
      LaterWriteIsUnordered(s.trace, s.trace[r].who, s.trace[r].at, l, w, r);
    }
  }

  lemma OverwrittenIff(s: State, l: nat, r: nat, w: nat)
    requires TraceInv(s) && l < |s.trace| && r < |s.trace| && w < |s.trace| && ExecuteRead(s, s.trace[r])
    requires LateRead(s.trace, s.trace[r].who, s.trace[r].at)
    requires s.trace[l] == Locked(s.trace[r].who, false)
    requires s.trace[w] == Writes(Sweeper, s.trace[r].at)
    ensures Overwritten(s.trace, w, r) <==>
      exists v: nat :: w + 1 <= v < l && s.trace[v].Writes? && s.trace[v].at == s.trace[r].at
  {
    var x := s.trace[r].at;
    if v: nat :| w + 1 <= v < l && s.trace[v].Writes? && s.trace[v].at == x {
      assert AccessOk(s, v);
      WriteBeforeReadIff(s, l, r, v);
      assert Before(s.trace, w, v);
    }
    if v: nat :| v < |s.trace| && s.trace[v] == Writes(Sweeper, x) && Before(s.trace, w, v) && Before(s.trace, v, r) {
      WriteBeforeReadIff(s, l, r, v);
      assert w + 1 <= v < l && s.trace[v].Writes?;
    }
  }

  /** A value was known to be overwritten if and only if another write came between it and the look-up. */
  lemma KnownOverwrittenIff(tr: seq<Event>, l: nat, w: nat)
    requires l < |tr| && w < |tr| && tr[w].Writes? && !tr[l].Writes?
    ensures Number(tr, w) < WritesTo(tr[..l], tr[w].at) <==>
      exists v: nat :: w + 1 <= v < l && tr[v].Writes? && tr[v].at == tr[w].at
  {
    var x := tr[w].at;
    WritesToStep(tr[..w], tr[w], x);
    assert tr[..w] + [tr[w]] == tr[..w + 1];
    if w < l {
      MoreWritesIff(tr, w + 1, l, x);
    } else {
      MoreWritesIff(tr, l, w, x);
    }
  }

  lemma KnownAtLookup(s: State, t: nat, l: nat)
    requires CountsOk(s) && Unread(s) && FoundOk(s) && t < |s.handlers| && s.handlers[t].seen.Some?
    requires l < |s.trace| && s.trace[l] == Locked(Of(t), false)
    ensures s.handlers[t].call.ExecuteTool? && s.handlers[t].call.name in s.tools
    ensures s.handlers[t].seen.value.known ==
      1 + WritesTo(s.trace[..l], StatusOf(s.tools[s.handlers[t].call.name]))
  {
    assert KnownOk(s, t) && ReadsOnce(s.handlers[t]) && SeenOk(s, s.handlers[t]);
  }

  /**
    The values that the model lets an unordered read yield are those that the Go memory model allows: a value is
    ruled out if and only if a write that overwrites it happens before the read.
   */
  lemma RuledOutIffOverwritten(s: State, t: nat, r: nat, w: nat)
    requires Reachable(s) && t < |s.handlers| && s.handlers[t].seen.Some?
    requires r < |s.trace| && ExecuteRead(s, s.trace[r]) && s.trace[r].who == Of(t)
    requires w < |s.trace| && s.trace[w] == Writes(Sweeper, s.trace[r].at)
    ensures Number(s.trace, w) + 1 < s.handlers[t].seen.value.known <==> Overwritten(s.trace, w, r)
  {
    ReachableTraceInv(s);
    var l := ExecuteReadIsLate(s, r);
    KnownAtLookup(s, t, l);
    KnownOverwrittenIff(s.trace, l, w);
    OverwrittenIff(s, l, r, w);
  }
}
