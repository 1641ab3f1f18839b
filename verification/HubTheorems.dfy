/**
  What the Human Bridge promises on every run: delivery order, conservation of frames, each connection
  closed once, and the agreement of the interleaved bridge with the sequential loop of `HubCore.Hub`.
 */
module HubTheorems {
  import opened Wrappers
  import opened HubCore
  import opened HubSystem

  ghost predicate Reachable<M(!new)>(s: System<M>) {
    exists steps: seq<Step<M>> :: CanRun(Init<M>(), steps) && s == RunOf(Init<M>(), steps)
  }

  lemma ReachableInv<M(!new)>(s: System<M>)
    requires Reachable(s)
    ensures Inv(s)
  {
    var steps: seq<Step<M>> :| CanRun(Init<M>(), steps) && s == RunOf(Init<M>(), steps);
    InvInit<M>();
    RunKeepsInv(Init<M>(), steps);
  }

  /**
    Total order: the frames written to a client are the stretch of the broadcast log from its registration
    to its removal, or to the present; only a broadcast still being written may be missing its last frame.
   */
  lemma TotalOrder<M(!new)>(s: System<M>, c: nat)
    requires Reachable(s) && c in s.hub.wires
    ensures var w := s.hub.wires[c];
      && w.joined <= Reach(s, c) <= |s.hub.log|
      && w.attempts == Payloads(s.hub.log[w.joined..Reach(s, c)])
      && (w.left.Some? ==> Reach(s, c) == w.left.value)
      && (w.left.None? ==> |s.hub.log| - 1 <= Reach(s, c))
      && (w.left.None? && s.control.Idle? ==> Reach(s, c) == |s.hub.log|)
  {
    ReachableInv(s);
    assert WireOk(s, c);
  }

  lemma PayloadsOfStretch<M>(log: seq<Entry<M>>, j: nat, from: nat, to: nat, end: nat)
    requires j <= from <= to <= end <= |log|
    ensures Payloads(log[j..end])[from - j..to - j] == Payloads(log[from..to])
  {
  }

  /** Any two clients see the frames they were both sent as the same run of frames. */
  lemma CommonOrder<M(!new)>(s: System<M>, c: nat, d: nat, from: nat, to: nat)
    requires Reachable(s) && c in s.hub.wires && d in s.hub.wires
    requires s.hub.wires[c].joined <= from <= to <= Reach(s, c)
    requires s.hub.wires[d].joined <= from <= to <= Reach(s, d)
    ensures |s.hub.wires[c].attempts| == Reach(s, c) - s.hub.wires[c].joined
    ensures |s.hub.wires[d].attempts| == Reach(s, d) - s.hub.wires[d].joined
    ensures var jc, jd := s.hub.wires[c].joined, s.hub.wires[d].joined;
      s.hub.wires[c].attempts[from - jc..to - jc] == s.hub.wires[d].attempts[from - jd..to - jd]
  {
    TotalOrder(s, c);
    TotalOrder(s, d);
    PayloadsOfStretch(s.hub.log, s.hub.wires[c].joined, from, to, Reach(s, c));
    PayloadsOfStretch(s.hub.log, s.hub.wires[d].joined, from, to, Reach(s, d));
  }

  /**
    Conservation and order per sender: what the bridge broadcast for a sender is what the sender wrote, in
    order, up to the one frame its reader is blocked on and the frames not read yet.
   */
  lemma SenderOrder<M(!new)>(s: System<M>, c: nat)
    requires Reachable(s) && c < |s.peers|
    ensures var p := s.peers[c];
      && p.sent == FromSender(s.hub.log, c) + Pending(p.phase) + p.inbox
      && p.taken == FromSender(s.hub.log, c) + Pending(p.phase)
  {
    ReachableInv(s);
    assert PeerOk(s, c);
  }

  lemma {:induction false} InSender<M>(log: seq<Entry<M>>, i: nat)
    requires i < |log|
    ensures log[i].payload in FromSender(log, log[i].sender)
  {
    if i < |log| - 1 {
      InSender(log[..|log| - 1], i);
    }
  }

  /** Nothing is made up: a frame written to a client was written by some peer. */
  lemma FrameHasAuthor<M>(s: System<M>, c: nat, m: M) returns (author: nat)
    requires Inv(s) && c in s.hub.wires && m in s.hub.wires[c].attempts
    ensures author < |s.peers| && m in s.peers[author].sent
  {
    assert WireOk(s, c);
    var w := s.hub.wires[c];
    var i: nat :| i < |w.attempts| && w.attempts[i] == m;
    InSender(s.hub.log, w.joined + i);
    author := s.hub.log[w.joined + i].sender;
    assert PeerOk(s, author);
  }

  /** What one connection has been through so far stays; after its removal nothing about it changes. */
  ghost predicate WireKept<M>(s: System<M>, t: System<M>, c: nat) {
    c in s.hub.wires ==>
      && c in t.hub.wires
      && t.hub.wires[c].joined == s.hub.wires[c].joined
      && s.hub.wires[c].attempts <= t.hub.wires[c].attempts
      && (s.hub.wires[c].left.Some? ==> t.hub.wires[c] == s.hub.wires[c])
  }

  lemma StepKeepsWire<M>(s: System<M>, step: Step<M>, c: nat)
    requires Inv(s) && Enabled(s, step)
    ensures WireKept(s, Apply(s, step), c)
  {
    if c in s.hub.wires {
      assert WireOk(s, c);
      if step.Add? {
        assert PeerOk(s, s.control.conn);
      }
    }
  }

  lemma {:induction false} RunKeepsWire<M>(s: System<M>, steps: seq<Step<M>>, c: nat)
    requires Inv(s) && CanRun(s, steps)
    ensures WireKept(s, RunOf(s, steps), c)
    decreases |steps|
  {
    if steps != [] {
      StepKeepsWire(s, steps[0], c);
      StepKeepsInv(s, steps[0]);
      RunKeepsWire(Apply(s, steps[0]), steps[1..], c);
    }
  }

  /**
    A connection is closed at most once, exactly when it is removed. From then on, whatever unregister
    requests for it are still on their way, it is not registered again, closed again or written to.
   */
  lemma ClosedOnce<M(!new)>(s: System<M>, steps: seq<Step<M>>, c: nat)
    requires Reachable(s) && CanRun(s, steps) && c in s.hub.wires
    ensures var w, w' := s.hub.wires[c], WireOf(RunOf(s, steps).hub, c);
      && w.closes <= 1 && (w.closes == 1 <==> w.left.Some?) && (c in s.hub.clients <==> w.closes == 0)
      && (w.closes == 1 ==> w' == w && c !in RunOf(s, steps).hub.clients)
  {
    ReachableInv(s);
    assert WireOk(s, c);
    RunKeepsInv(s, steps);
    RunKeepsWire(s, steps, c);
    assert WireOk(RunOf(s, steps), c);
  }

  predicate WaitsForHub<M>(p: Phase<M>) {
    p.Registering? || p.Sending? || p.Leaving?
  }

  /** A goroutine that waits to send to the hub. */
  ghost predicate Blocked<M>(s: System<M>) {
    s.hub.spawned != multiset{} ||
    exists c: nat :: c < |s.peers| && WaitsForHub(s.peers[c].phase)
  }

  /** Progress: `run` is never stuck while a goroutine waits for it, or while it serves a request. */
  lemma HubProgress<M(!new)>(s: System<M>)
    requires Blocked(s) || !s.control.Idle?
    ensures exists step: Step<M> :: step.OfRun() && Enabled(s, step)
  {
    var step: Step<M>;
    match s.control {
      case Idle =>
        if s.hub.spawned != multiset{} {
          var c :| c in s.hub.spawned;
          step := RecvRetry(c);
        } else {
          var c: nat :| c < |s.peers| && WaitsForHub(s.peers[c].phase);
          step := match s.peers[c].phase
            case Registering => RecvRegister(c)
            case Leaving => RecvUnregister(c)
            case _ => RecvBroadcast(c);
        }
      case Adding(_) => step := Add;
      case Removing(_, _) => step := Remove;
      case Writing(_, todo, _) =>
        if todo == {} {
          step := EndWrite;
        } else {
          var c :| c in todo;
          step := Write(c, true);
        }
    }
    assert step.OfRun() && Enabled(s, step);
  }

  /** The hub in the middle of a request, relative to the hub `base` before that request was received. */
  ghost predicate Progress<M>(base: HubState<M>, control: Control<M>, hub: HubState<M>) {
    match control
    case Idle => hub == base
    case Adding(_) => hub == base
    case Removing(c, retry) =>
      hub == if retry then base.(spawned := base.spawned - multiset{c}) else base
    case Writing(e, todo, failed) =>
      && todo <= base.clients && failed <= base.clients - todo
      && hub == HubState(base.clients, SentTo(base.wires, base.clients - todo, e.payload, failed),
                         base.spawned + multiset(failed), base.log + [e])
  }

  ghost predicate Refines<M>(s: System<M>) {
    Progress(HandleAll(EmptyHub(), s.served), s.control, s.hub)
  }

  lemma FailedStep(failed: set<nat>, c: nat, ok: bool)
    requires c !in failed
    ensures multiset(failed + if ok then {} else {c}) == multiset(failed) + if ok then multiset{} else multiset{c}
  {
    assert ok ==> failed + {} == failed;
  }

  /** One write moves its client from the ones still to do to the ones done. */
  lemma WriteKeepsProgress<M>(base: HubState<M>, k: Control<M>, hub: HubState<M>, c: nat, ok: bool)
    requires k.Writing? && Progress(base, k, hub) && c in k.todo && base.clients <= base.wires.Keys
    ensures Progress(base, k.(todo := k.todo - {c}, failed := k.failed + if ok then {} else {c}),
                     Written(hub, c, k.entry.payload, ok))
  {
    var done := base.clients - k.todo;
    var failed' := k.failed + if ok then {} else {c};
    SentToStep(base.wires, done, c, k.entry.payload, k.failed, failed');
    assert ok <==> c !in failed';
    assert base.clients - (k.todo - {c}) == done + {c};
    FailedStep(k.failed, c, ok);
  }

  lemma EndWriteCompletes<M>(base: HubState<M>, k: Control<M>, hub: HubState<M>)
    requires k.Writing? && Progress(base, k, hub) && k.todo == {}
    ensures hub == Handle(base, Broadcast(k.entry, k.failed))
  {
    assert base.clients - {} == base.clients;
    assert k.failed * base.clients == k.failed;
  }

  lemma RecvBroadcastStarts<M>(base: HubState<M>, e: Entry<M>)
    ensures Progress(base, Writing(e, base.clients, {}), base.(log := base.log + [e]))
  {
    assert SentTo(base.wires, {}, e.payload, {}) == base.wires;
    assert base.clients - base.clients == {};
  }

  lemma StepKeepsRefines<M>(s: System<M>, step: Step<M>)
    requires Inv(s) && Enabled(s, step) && Refines(s)
    ensures Refines(Apply(s, step))
  {
    var base := HandleAll(EmptyHub<M>(), s.served);
    match step {
      case Write(c, ok) =>
        assert base.clients <= base.wires.Keys;
        WriteKeepsProgress(base, s.control, s.hub, c, ok);
      case RecvBroadcast(c) =>
        RecvBroadcastStarts(base, Entry(c, s.peers[c].phase.m));
      case EndWrite =>
        EndWriteCompletes(base, s.control, s.hub);
        HandleAllStep(EmptyHub(), s.served, Broadcast(s.control.entry, s.control.failed));
      case Add =>
        HandleAllStep(EmptyHub(), s.served, Register(s.control.conn));
      case Remove =>
        HandleAllStep(EmptyHub(), s.served, Retry(s.control.conn));
        HandleAllStep(EmptyHub(), s.served, Unregister(s.control.conn));
      case _ =>
    }
  }

  lemma {:induction false} RunKeepsRefines<M>(s: System<M>, steps: seq<Step<M>>)
    requires Inv(s) && CanRun(s, steps) && Refines(s)
    ensures Refines(RunOf(s, steps))
    decreases |steps|
  {
    if steps != [] {
      StepKeepsRefines(s, steps[0]);
      StepKeepsInv(s, steps[0]);
      RunKeepsRefines(Apply(s, steps[0]), steps[1..]);
    }
  }

  /**
    Atomicity: whatever readers, peers and failing writes do while a request is served, between two requests
    the hub is what the sequential loop makes of the requests served, and during a broadcast it differs only
    by the writes already made. `HubCore.Hub.Run` is that loop.
   */
  lemma InterleavingIsSequential<M(!new)>(s: System<M>)
    requires Reachable(s)
    ensures Progress(HandleAll(EmptyHub(), s.served), s.control, s.hub)
    ensures s.control.Idle? ==> s.hub == HandleAll(EmptyHub(), s.served)
  {
    var steps: seq<Step<M>> :| CanRun(Init<M>(), steps) && s == RunOf(Init<M>(), steps);
    InvInit<M>();
    RunKeepsRefines(Init<M>(), steps);
  }

  // ---- Who stays ----

  /** The reader has not ended, nor is it about to. */
  predicate ReadsOn<M>(s: System<M>, c: nat) {
    c < |s.peers| ==> !s.peers[c].phase.Leaving? && !s.peers[c].phase.Ended?
  }

  /** A reader goes on, frame after frame, until one of its reads fails. */
  lemma {:induction false} ReaderGoesOn<M>(s: System<M>, steps: seq<Step<M>>, c: nat)
    requires CanRun(s, steps) && ReadsOn(s, c) && ReadFail(c) !in steps
    ensures ReadsOn(RunOf(s, steps), c)
    decreases |steps|
  {
    if steps != [] {
      ReaderGoesOn(Apply(s, steps[0]), steps[1..], c);
    }
  }

  /**
    Connection `c` is a client or on the way to become one, or has yet to come; its reader goes on, and no
    unregister for it is on its way.
   */
  predicate Untroubled<M>(s: System<M>, c: nat) {
    && ReadsOn(s, c) && c !in s.hub.spawned
    && !(s.control.Removing? && s.control.conn == c)
    && (c < |s.peers| ==> c in s.hub.clients || s.peers[c].phase.Registering? || s.control == Adding(c))
  }

  lemma StepKeepsUntroubled<M>(s: System<M>, step: Step<M>, c: nat)
    requires Inv(s) && Enabled(s, step) && Untroubled(s, c) && step != ReadFail(c) && step != Write(c, false)
    ensures Untroubled(Apply(s, step), c)
  {
  }

  /** A connection stays a client as long as no read from it and no write to it fails, whatever happens to others. */
  lemma {:induction false} StaysUntroubled<M>(s: System<M>, steps: seq<Step<M>>, c: nat)
    requires Inv(s) && CanRun(s, steps) && Untroubled(s, c)
    requires ReadFail(c) !in steps && Write(c, false) !in steps
    ensures Untroubled(RunOf(s, steps), c) && Inv(RunOf(s, steps))
    ensures c in s.hub.clients ==> c in RunOf(s, steps).hub.clients
    decreases |steps|
  {
    if steps != [] {
      StepKeepsUntroubled(s, steps[0], c);
      StepKeepsInv(s, steps[0]);
      if c in s.hub.clients {
        StepKeepsClient(s, steps[0], c);
      }
      StaysUntroubled(Apply(s, steps[0]), steps[1..], c);
    }
  }

  lemma StepKeepsClient<M>(s: System<M>, step: Step<M>, c: nat)
    requires Enabled(s, step) && c in s.hub.clients && !(s.control.Removing? && s.control.conn == c)
    ensures c in Apply(s, step).hub.clients
  {
  }

  /** The frames that the peer of `c` sends in a schedule, and the number of peers that connect. */
  function FramesSent<M>(steps: seq<Step<M>>, c: nat): seq<M> {
    if steps == [] then []
    else (if steps[0].PeerSend? && steps[0].conn == c then [steps[0].m] else []) + FramesSent(steps[1..], c)
  }

  function Accepted<M>(steps: seq<Step<M>>): nat {
    if steps == [] then 0 else (if steps[0].Accept? then 1 else 0) + Accepted(steps[1..])
  }

  /** What a peer has sent so far. */
  function SentBy<M>(s: System<M>, c: nat): seq<M> {
    if c < |s.peers| then s.peers[c].sent else []
  }

  /** `sent` records the frames that the peer sent, all of them and in order; each Accept is a new connection. */
  lemma {:induction false} SentIsWhatPeersSend<M>(s: System<M>, steps: seq<Step<M>>, c: nat)
    requires CanRun(s, steps)
    ensures SentBy(RunOf(s, steps), c) == SentBy(s, c) + FramesSent(steps, c)
    ensures |RunOf(s, steps).peers| == |s.peers| + Accepted(steps)
    decreases |steps|
  {
    if steps != [] {
      SentIsWhatPeersSend(Apply(s, steps[0]), steps[1..], c);
    }
  }
}
