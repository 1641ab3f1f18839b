/**
  Termination of the Human Bridge when peers stop sending and connecting, and the exactness of `clients`
  once everything has drained.
 */
module HubDrain {
  import opened HubCore
  import opened HubSystem
  import opened HubTheorems

  /** The steps a connection of phase `p` can still cause; a broadcast to n connections costs at most 3n + 1 steps. */
  function PhaseCost<M>(n: nat, p: Phase<M>): nat {
    match p
    case Registering => 5
    case Reading => 3
    case Sending(_) => 3 * n + 5
    case Leaving => 2
    case Ended => 0
  }

  function PeerCost<M>(n: nat, p: Peer<M>): nat {
    PhaseCost(n, p.phase) + (3 * n + 3) * |p.inbox|
  }

  function PeersCost<M>(n: nat, ps: seq<Peer<M>>): nat {
    if ps == [] then 0 else PeerCost(n, ps[0]) + PeersCost(n, ps[1..])
  }

  function ControlCost<M>(k: Control<M>): nat {
    match k
    case Idle => 0
    case Adding(_) => 1
    case Removing(_, _) => 1
    case Writing(_, todo, _) => 1 + 3 * |todo|
  }

  /** A bound on the number of steps until the bridge comes to rest. */
  function Work<M>(s: System<M>): nat {
    PeersCost(|s.peers|, s.peers) + ControlCost(s.control) + 2 * |s.hub.spawned|
  }

  lemma {:induction false} PeersCostUpdate<M>(n: nat, ps: seq<Peer<M>>, c: nat, p: Peer<M>)
    requires c < |ps|
    ensures PeersCost(n, ps[c := p]) + PeerCost(n, ps[c]) == PeersCost(n, ps) + PeerCost(n, p)
  {
    if c > 0 {
      PeersCostUpdate(n, ps[1..], c - 1, p);
      assert ps[c := p][1..] == ps[1..][c - 1 := p];
    } else {
      assert ps[c := p][1..] == ps[1..];
    }
  }

  lemma {:induction false} SmallSet(cs: set<nat>, n: nat)
    requires forall c <- cs :: c < n
    ensures |cs| <= n
  {
    if n > 0 {
      SmallSet(cs - {n - 1}, n - 1);
      assert cs <= cs - {n - 1} + {n - 1};
    } else {
      assert cs == {};
    }
  }

  lemma ReadCost<M>(n: nat, p: Peer<M>)
    requires p.phase.Reading? && p.inbox != []
    ensures PeerCost(n, p.(phase := Sending(p.inbox[0]), taken := p.taken + [p.inbox[0]], inbox := p.inbox[1..]))
         <= PeerCost(n, p) - 1
  {
    assert (3 * n + 3) * |p.inbox[1..]| == (3 * n + 3) * |p.inbox| - (3 * n + 3);
  }

  /** A write costs one of the three units set aside for its client, and leaves at most one goroutine worth two. */
  lemma WriteShrinksWork<M>(s: System<M>, step: Step<M>)
    requires Enabled(s, step) && step.Write?
    ensures Work(Apply(s, step)) < Work(s)
  {
    var h, h' := s.hub, Apply(s, step).hub;
    assert |h'.spawned| == |h.spawned| + if step.ok then 0 else 1;
    assert |s.control.todo - {step.conn}| == |s.control.todo| - 1;
  }

  /** The other steps of `run` that touch no reader leave less to do as well. */
  lemma ServeShrinksWork<M>(s: System<M>, step: Step<M>)
    requires Enabled(s, step) && (step.RecvRetry? || step.Add? || step.Remove? || step.EndWrite?)
    ensures Work(Apply(s, step)) < Work(s)
  {
    if step.RecvRetry? {
      assert |s.hub.spawned - multiset{step.conn}| == |s.hub.spawned| - 1;
    } else {
      assert Apply(s, step).hub.spawned == s.hub.spawned;
    }
  }

  /** So does every step of one connection with its reader or with `run`. */
  lemma PeerStepShrinksWork<M>(s: System<M>, step: Step<M>)
    requires Inv(s) && Enabled(s, step)
    requires step.Read? || step.ReadFail? || step.RecvRegister? || step.RecvUnregister? || step.RecvBroadcast?
    ensures Work(Apply(s, step)) < Work(s)
  {
    var n, c, t := |s.peers|, step.conn, Apply(s, step);
    PeersCostUpdate(n, s.peers, c, t.peers[c]);
    if step.Read? {
      ReadCost(n, s.peers[c]);
    } else if step.RecvBroadcast? {
      SmallSet(s.hub.clients, n);
    }
  }

  /** Every step but a new connection or a new frame of a peer leaves less to do. */
  lemma StepShrinksWork<M>(s: System<M>, step: Step<M>)
    requires Inv(s) && Enabled(s, step) && !step.External()
    ensures Work(Apply(s, step)) < Work(s)
  {
    if step.Write? {
      WriteShrinksWork(s, step);
    } else if step.RecvRetry? || step.Add? || step.Remove? || step.EndWrite? {
      ServeShrinksWork(s, step);
    } else {
      PeerStepShrinksWork(s, step);
    }
  }

  ghost predicate Inward<M>(steps: seq<Step<M>>) {
    forall step <- steps :: !step.External()
  }

  /** Drain: no schedule without new connections and new frames is longer than `Work` of its first state. */
  lemma {:induction false} RunsAreBounded<M>(s: System<M>, steps: seq<Step<M>>)
    requires Inv(s) && CanRun(s, steps) && Inward(steps)
    ensures |steps| + Work(RunOf(s, steps)) <= Work(s)
    decreases |steps|
  {
    if steps != [] {
      StepShrinksWork(s, steps[0]);
      StepKeepsInv(s, steps[0]);
      RunsAreBounded(Apply(s, steps[0]), steps[1..]);
    }
  }

  /**
    The steps that are bound to happen: those of `run`, reading a frame that has arrived, and the error of a
    read on a connection the hub has closed. A reader of an open connection may wait for ever.
   */
  ghost predicate Due<M>(s: System<M>, step: Step<M>) {
    step.OfRun() || step.Read? || (step.ReadFail? && step.conn in s.hub.wires && s.hub.wires[step.conn].closes > 0)
  }

  /** Nothing that is bound to happen is left. */
  ghost predicate AtRest<M(!new)>(s: System<M>) {
    forall step: Step<M> :: Enabled(s, step) ==> !Due(s, step)
  }

  /** The connections that were registered and whose reader still runs. */
  function LiveConnections<M>(s: System<M>): set<nat> {
    set c: nat | c < |s.peers| && s.peers[c].phase.Reading?
  }

  /**
    No goroutine waits for `run`, and the readers of closed connections have ended. Peers of open connections may
    have sent frames that nobody has read yet.
   */
  ghost predicate Quiet<M>(s: System<M>) {
    && s.control.Idle? && !Blocked(s)
    && forall c <- s.hub.wires :: s.hub.wires[c].closes > 0 ==> c < |s.peers| && s.peers[c].phase.Ended?
  }

  /**
    Exactness: whenever no send to `run` is pending and the readers of the closed connections have ended, `clients`
    is exactly the set of connections whose reader is running, whatever failures there were on the way; each of
    them was sent every frame since it joined, without a failed write; and the bridge has broadcast every frame
    that a reader has taken.
   */
  lemma QuietIsExact<M>(s: System<M>)
    requires Inv(s) && Quiet(s)
    ensures s.hub.clients == LiveConnections(s)
    ensures forall c: nat | c < |s.peers| :: s.peers[c].phase.Reading? || s.peers[c].phase.Ended?
    ensures forall c: nat | c < |s.peers| :: FromSender(s.hub.log, c) == s.peers[c].taken
    ensures forall c <- s.hub.clients ::
      s.hub.wires[c].attempts == Payloads(s.hub.log[s.hub.wires[c].joined..]) && s.hub.wires[c].errors == 0
  {
    forall c: nat | c < |s.peers|
      ensures c in s.hub.clients <==> s.peers[c].phase.Reading?
      ensures s.peers[c].phase.Reading? || s.peers[c].phase.Ended?
      ensures FromSender(s.hub.log, c) == s.peers[c].taken
    {
      assert PeerOk(s, c) && !WaitsForHub(s.peers[c].phase);
      if c in s.hub.wires { assert WireOk(s, c); }
    }
    forall c <- s.hub.clients
      ensures s.hub.wires[c].attempts == Payloads(s.hub.log[s.hub.wires[c].joined..]) && s.hub.wires[c].errors == 0
    {
      assert WireOk(s, c);
    }
  }

  /** Rest is quiet, and leaves no frame of an open connection unread. */
  lemma RestIsQuiet<M(!new)>(s: System<M>)
    requires Inv(s) && AtRest(s)
    ensures Quiet(s)
    ensures forall c: nat | c < |s.peers| && s.peers[c].phase.Reading? :: s.peers[c].inbox == []
  {
    if Blocked(s) || !s.control.Idle? {
      HubProgress(s);
      assert false;
    }
    forall c: nat | c < |s.peers|
      ensures s.peers[c].phase.Reading? ==> s.peers[c].inbox == []
      ensures c in s.hub.wires && s.hub.wires[c].closes > 0 ==> s.peers[c].phase.Ended?
    {
      assert !WaitsForHub(s.peers[c].phase);
      assert !(Enabled(s, Read(c)) && Due(s, Read(c)));
      assert !(Enabled(s, ReadFail(c)) && Due(s, ReadFail(c)));
    }
  }

  /** At rest, moreover, every frame that an open connection has sent was broadcast. */
  lemma RestIsExact<M(!new)>(s: System<M>)
    requires Inv(s) && AtRest(s)
    ensures Quiet(s) && s.hub.clients == LiveConnections(s)
    ensures forall c: nat | c < |s.peers| && s.peers[c].phase.Reading? :: FromSender(s.hub.log, c) == s.peers[c].sent
  {
    RestIsQuiet(s);
    QuietIsExact(s);
    forall c: nat | c < |s.peers| && s.peers[c].phase.Reading?
      ensures FromSender(s.hub.log, c) == s.peers[c].sent
    {
      assert PeerOk(s, c);
    }
  }

  /** Each step is due when it is taken. */
  ghost predicate AllDue<M>(s: System<M>, steps: seq<Step<M>>)
    requires CanRun(s, steps)
    decreases |steps|
  {
    steps == [] || (Due(s, steps[0]) && AllDue(Apply(s, steps[0]), steps[1..]))
  }

  /**
    Nothing is lost without a failure: a connection from which no read and to which no write fails is a client at
    rest, and every frame it had sent and that its peer sent on the way was broadcast, in order.
   */
  lemma UntroubledIsServed<M(!new)>(s: System<M>, steps: seq<Step<M>>, c: nat)
    requires Inv(s) && CanRun(s, steps) && Untroubled(s, c)
    requires ReadFail(c) !in steps && Write(c, false) !in steps
    requires AtRest(RunOf(s, steps)) && c < |RunOf(s, steps).peers|
    ensures c in RunOf(s, steps).hub.clients
    ensures FromSender(RunOf(s, steps).hub.log, c) == SentBy(s, c) + FramesSent(steps, c)
  {
    var t := RunOf(s, steps);
    StaysUntroubled(s, steps, c);
    SentIsWhatPeersSend(s, steps, c);
    RestIsExact(t);
    QuietIsExact(t);
  }

  /** A step that is due, and is no failing write, troubles no connection. */
  lemma DueKeepsUntroubled<M>(s: System<M>, step: Step<M>, c: nat)
    requires Inv(s) && Enabled(s, step) && Due(s, step) && !(step.Write? && !step.ok) && Untroubled(s, c)
    ensures Untroubled(Apply(s, step), c)
  {
    if c in s.hub.wires {
      assert WireOk(s, c);
    }
    if c < |s.peers| {
      assert PeerOk(s, c);
    }
    StepKeepsUntroubled(s, step, c);
  }

  /** Some step is due, and none of the writes has to fail. */
  lemma DueStep<M(!new)>(s: System<M>) returns (step: Step<M>)
    requires !AtRest(s)
    ensures Enabled(s, step) && Due(s, step) && !(step.Write? && !step.ok)
  {
    step :| Enabled(s, step) && Due(s, step);
    if step.Write? {
      step := Write(step.conn, true);
    }
  }

  /**
    From every good state the bridge can come to rest by steps that are bound to happen, without a failing write; no
    client whose reader goes on has to be disconnected.
   */
  lemma {:induction false} CanDrain<M(!new)>(s: System<M>) returns (steps: seq<Step<M>>)
    requires Inv(s)
    ensures CanRun(s, steps) && AllDue(s, steps) && Inward(steps)
    ensures forall step <- steps :: !(step.Write? && !step.ok)
    ensures Inv(RunOf(s, steps)) && AtRest(RunOf(s, steps))
    ensures forall c: nat | Untroubled(s, c) :: Untroubled(RunOf(s, steps), c)
    ensures forall c: nat | c < |s.peers| && Untroubled(s, c) :: c in RunOf(s, steps).hub.clients
    ensures |steps| <= Work(s)
    decreases Work(s)
  {
    if AtRest(s) {
      steps := [];
      RestIsExact(s);
      QuietIsExact(s);
    } else {
      var step := DueStep(s);
      StepShrinksWork(s, step);
      StepKeepsInv(s, step);
      forall c: nat | Untroubled(s, c) ensures Untroubled(Apply(s, step), c) {
        DueKeepsUntroubled(s, step, c);
      }
      var rest := CanDrain(Apply(s, step));
      steps := [step] + rest;
      assert steps[1..] == rest;
    }
  }

  /**
    Every schedule that ends quietly, whatever came in on the way, has left `clients` exact and the hub as the
    sequential loop leaves it. Without new connections and new frames it was within the bound, and if it has gone
    on for as long as anything was bound to happen, every frame of an open connection was broadcast.
   */
  lemma DrainIsExact<M(!new)>(s: System<M>, steps: seq<Step<M>>)
    requires Reachable(s) && CanRun(s, steps) && (Quiet(RunOf(s, steps)) || AtRest(RunOf(s, steps)))
    ensures Inward(steps) ==> |steps| <= Work(s)
    ensures var t := RunOf(s, steps); t.hub.clients == LiveConnections(t) && !Blocked(t)
    ensures var t := RunOf(s, steps); t.hub == HandleAll(EmptyHub(), t.served)
    ensures var t := RunOf(s, steps);
      AtRest(t) ==>
        forall c: nat | c < |t.peers| && t.peers[c].phase.Reading? :: FromSender(t.hub.log, c) == t.peers[c].sent
  {
    ReachableInv(s);
    RunKeepsInv(s, steps);
    if Inward(steps) {
      RunsAreBounded(s, steps);
    }
    if AtRest(RunOf(s, steps)) {
      RestIsExact(RunOf(s, steps));
    }
    QuietIsExact(RunOf(s, steps));
    RunRefines(s, steps);
  }

  lemma RunRefines<M(!new)>(s: System<M>, steps: seq<Step<M>>)
    requires Reachable(s) && CanRun(s, steps)
    ensures Refines(RunOf(s, steps))
  {
    InterleavingIsSequential(s);
    ReachableInv(s);
    RunKeepsRefines(s, steps);
  }
}
