/**
  The Human Bridge as a transition system over all its goroutines: the `run` goroutine, one reader per
  connection, the handlers that register, and the goroutines started after failed writes.

  A send on an unbuffered channel and its receive are one step. What `run` does after a receive is split
  further: it adds or removes a client, or writes to one client, in a step of its own, so that readers and
  peers interleave with a broadcast in progress.
 */
module HubSystem {
  import opened Wrappers
  import opened HubCore

  /** What the goroutines of one connection are doing. */
  datatype Phase<M> =
    | Registering    // `serveWs` is blocked on `hub.register <- conn`
    | Reading        // the reader is at `conn.ReadMessage()`
    | Sending(m: M)  // the reader is blocked on `hub.broadcast <- message`
    | Leaving        // the deferred function is blocked on `hub.unregister <- conn`
    | Ended

  /** `sent` is what the peer wrote so far, `taken` what `ReadMessage` returned, `inbox` what is in between. */
  datatype Peer<M> = Peer(phase: Phase<M>, sent: seq<M>, taken: seq<M>, inbox: seq<M>)

  /** The control point of `run`. `retry` tells an unregister of a spawned goroutine from one of a reader. */
  datatype Control<M> =
    | Idle
    | Adding(conn: nat)
    | Removing(conn: nat, retry: bool)
    | Writing(entry: Entry<M>, todo: set<nat>, failed: set<nat>)

  /** `served` is the history of requests `run` has finished serving, in the order it received them. */
  datatype System<M> = System(
    peers: seq<Peer<M>>,
    hub: HubState<M>,
    control: Control<M>,
    served: seq<Request<M>>)

  datatype Step<M> =
    // the peers
    | Accept
    | PeerSend(conn: nat, m: M)
    // the readers
    | Read(conn: nat)
    | ReadFail(conn: nat)
    // receives of `run`
    | RecvRegister(conn: nat)
    | RecvUnregister(conn: nat)
    | RecvRetry(conn: nat)
    | RecvBroadcast(conn: nat)
    // the rest of `run`
    | Add
    | Remove
    | Write(conn: nat, ok: bool)
    | EndWrite
  {
    /** Steps that bring new work from outside. */
    predicate External() {
      Accept? || PeerSend?
    }

    /** Steps of the `run` goroutine. */
    predicate OfRun() {
      RecvRegister? || RecvUnregister? || RecvRetry? || RecvBroadcast? || Add? || Remove? || Write? || EndWrite?
    }
  }

  function Init<M>(): System<M> {
    System([], EmptyHub(), Idle, [])
  }

  predicate InPhase<M(==)>(s: System<M>, c: nat, p: Phase<M>) {
    c < |s.peers| && s.peers[c].phase == p
  }

  predicate Enabled<M(==)>(s: System<M>, step: Step<M>) {
    match step
    case Accept => true
    case PeerSend(c, m) => c < |s.peers|
    case Read(c) => InPhase(s, c, Reading) && s.peers[c].inbox != []
    case ReadFail(c) => InPhase(s, c, Reading)
    case RecvRegister(c) => s.control == Idle && InPhase(s, c, Registering)
    case RecvUnregister(c) => s.control == Idle && InPhase(s, c, Leaving)
    case RecvRetry(c) => s.control == Idle && c in s.hub.spawned
    case RecvBroadcast(c) => s.control == Idle && c < |s.peers| && s.peers[c].phase.Sending?
    case Add => s.control.Adding?
    case Remove => s.control.Removing?
    case Write(c, ok) => s.control.Writing? && c in s.control.todo
    case EndWrite => s.control.Writing? && s.control.todo == {}
  }

  function At<M>(s: System<M>, c: nat, p: Peer<M>): System<M>
    requires c < |s.peers|
  {
    s.(peers := s.peers[c := p])
  }

  function Apply<M(==)>(s: System<M>, step: Step<M>): System<M>
    requires Enabled(s, step)
  {
    match step
    case Accept => s.(peers := s.peers + [Peer(Registering, [], [], [])])
    case PeerSend(c, m) =>
      var p := s.peers[c];
      At(s, c, p.(sent := p.sent + [m], inbox := p.inbox + [m]))
    case Read(c) =>
      var p := s.peers[c];
      At(s, c, p.(phase := Sending(p.inbox[0]), taken := p.taken + [p.inbox[0]], inbox := p.inbox[1..]))
    case ReadFail(c) => At(s, c, s.peers[c].(phase := Leaving))
    case RecvRegister(c) => At(s, c, s.peers[c].(phase := Reading)).(control := Adding(c))
    case RecvUnregister(c) => At(s, c, s.peers[c].(phase := Ended)).(control := Removing(c, false))
    case RecvRetry(c) =>
      s.(hub := s.hub.(spawned := s.hub.spawned - multiset{c}), control := Removing(c, true))
    case RecvBroadcast(c) =>
      var e := Entry(c, s.peers[c].phase.m);
      At(s, c, s.peers[c].(phase := Reading)).(
        hub := s.hub.(log := s.hub.log + [e]), control := Writing(e, s.hub.clients, {}))
    case Add =>
      var c := s.control.conn;
      s.(hub := Added(s.hub, c), control := Idle, served := s.served + [Register(c)])
    case Remove =>
      var c := s.control.conn;
      s.(hub := Removed(s.hub, c), control := Idle,
         served := s.served + [if s.control.retry then Retry(c) else Unregister(c)])
    case Write(c, ok) =>
      var k := s.control;
      s.(hub := Written(s.hub, c, k.entry.payload, ok),
         control := k.(todo := k.todo - {c}, failed := k.failed + if ok then {} else {c}))
    case EndWrite =>
      s.(control := Idle, served := s.served + [Broadcast(s.control.entry, s.control.failed)])
  }

  /** A schedule that can be taken from `s`, one enabled step after another. */
  predicate CanRun<M(==)>(s: System<M>, steps: seq<Step<M>>)
    decreases |steps|
  {
    steps == [] || (Enabled(s, steps[0]) && CanRun(Apply(s, steps[0]), steps[1..]))
  }

  function RunOf<M(==)>(s: System<M>, steps: seq<Step<M>>): System<M>
    requires CanRun(s, steps)
    decreases |steps|
  {
    if steps == [] then s else RunOf(Apply(s, steps[0]), steps[1..])
  }

  /** The payloads of a stretch of the log. */
  function Payloads<M>(es: seq<Entry<M>>): seq<M> {
    seq(|es|, i requires 0 <= i < |es| => es[i].payload)
  }

  /** The frames in a log that came from connection `c`. */
  function FromSender<M>(log: seq<Entry<M>>, c: nat): seq<M> {
    if log == [] then []
    else
      var e := log[|log| - 1];
      FromSender(log[..|log| - 1], c) + if e.sender == c then [e.payload] else []
  }

  function Pending<M>(p: Phase<M>): seq<M> {
    if p.Sending? then [p.m] else []
  }

  /** How far into the log the writes to `c` have got. */
  function Reach<M>(s: System<M>, c: nat): nat
    requires c in s.hub.wires
  {
    var w := s.hub.wires[c];
    if w.left.Some? then w.left.value
    else if s.control.Writing? && c in s.control.todo && s.hub.log != [] then |s.hub.log| - 1
    else |s.hub.log|
  }

  ghost predicate WireOk<M>(s: System<M>, c: nat)
    requires c in s.hub.wires
  {
    var w := s.hub.wires[c];
    && w.joined <= Reach(s, c) <= |s.hub.log|
    && w.attempts == Payloads(s.hub.log[w.joined..Reach(s, c)])
    && w.closes == (if w.left.Some? then 1 else 0)
    && (c in s.hub.clients <==> w.left.None?)
    && (w.errors > 0 ==> c !in s.hub.clients || c in s.hub.spawned || s.control == Removing(c, true))
  }

  ghost predicate PeerOk<M>(s: System<M>, c: nat)
    requires c < |s.peers|
  {
    var p := s.peers[c];
    && p.taken == FromSender(s.hub.log, c) + Pending(p.phase)
    && p.sent == p.taken + p.inbox
    && (p.phase.Registering? <==> c !in s.hub.wires && s.control != Adding(c))
    && (s.control == Adding(c) ==> c !in s.hub.wires && !p.phase.Ended?)
    && (p.phase.Ended? ==> c !in s.hub.clients || s.control == Removing(c, false))
  }

  /** Facts about the hub and its control point alone. */
  ghost predicate Shape<M>(s: System<M>) {
    && s.hub.clients <= s.hub.wires.Keys
    && (forall c <- s.hub.wires :: c < |s.peers|)
    && (forall c <- s.hub.spawned :: c in s.hub.wires)
    && (s.control.Adding? ==> s.control.conn < |s.peers|)
    && (s.control.Removing? ==> s.control.conn in s.hub.wires)
    && (s.control.Writing? ==>
          && s.hub.log != [] && s.control.entry == s.hub.log[|s.hub.log| - 1]
          && s.control.todo <= s.hub.clients && s.control.failed <= s.hub.clients - s.control.todo)
    && (forall e <- s.hub.log :: e.sender < |s.peers|)
  }

  /** The invariant of every interleaving. */
  ghost predicate Inv<M>(s: System<M>) {
    && Shape(s)
    && (forall c: nat | c < |s.peers| :: PeerOk(s, c))
    && (forall c <- s.hub.wires :: WireOk(s, c))
  }

  lemma FromSenderStep<M>(log: seq<Entry<M>>, e: Entry<M>, c: nat)
    ensures FromSender(log + [e], c) == FromSender(log, c) + if e.sender == c then [e.payload] else []
  {
    assert (log + [e])[..|log|] == log;
  }

  lemma PayloadsStep<M>(log: seq<Entry<M>>, e: Entry<M>, j: nat)
    requires j <= |log|
    ensures Payloads((log + [e])[j..]) == Payloads(log[j..]) + [e.payload]
  {
    assert (log + [e])[j..] == log[j..] + [e];
  }

  lemma {:induction false} FromSenderNobody<M>(log: seq<Entry<M>>, c: nat)
    requires forall e <- log :: e.sender != c
    ensures FromSender(log, c) == []
  {
    if log != [] {
      FromSenderNobody(log[..|log| - 1], c);
    }
  }

  lemma InvInit<M>()
    ensures Inv<M>(Init())
  {
  }

  /** A new connection starts with no trace in the log. */
  lemma AcceptKeepsInv<M>(s: System<M>)
    requires Inv(s)
    ensures Inv(Apply(s, Accept))
  {
    var t := Apply(s, Accept);
    forall c: nat | c < |t.peers| ensures PeerOk(t, c) {
      if c < |s.peers| {
        assert PeerOk(s, c);
      } else {
        FromSenderNobody(s.hub.log, c);
      }
    }
    forall c <- t.hub.wires ensures WireOk(t, c) {
      assert WireOk(s, c);
    }
  }

  /** Steps of the peers and readers move frames along within one connection. */
  lemma ReaderStepKeepsPeerOk<M>(s: System<M>, step: Step<M>, c: nat)
    requires Enabled(s, step) && (step.PeerSend? || step.Read? || step.ReadFail?)
    requires c < |s.peers| && PeerOk(s, c)
    ensures PeerOk(Apply(s, step), c)
  {
  }

  lemma ReaderStepKeepsInv<M>(s: System<M>, step: Step<M>)
    requires Inv(s) && Enabled(s, step) && (step.PeerSend? || step.Read? || step.ReadFail?)
    ensures Inv(Apply(s, step))
  {
    var t := Apply(s, step);
    assert t.hub == s.hub && t.control == s.control && |t.peers| == |s.peers|;
    forall c: nat | c < |t.peers| ensures PeerOk(t, c) {
      ReaderStepKeepsPeerOk(s, step, c);
    }
    forall c <- t.hub.wires ensures WireOk(t, c) {
      assert WireOk(s, c);
    }
  }

  /** Receiving a register or an unregister keeps the invariant. */
  lemma ReceiveKeepsInv<M>(s: System<M>, step: Step<M>)
    requires Inv(s) && Enabled(s, step)
    requires step.RecvRegister? || step.RecvUnregister? || step.RecvRetry?
    ensures Inv(Apply(s, step))
  {
    var t := Apply(s, step);
    assert step.RecvUnregister? ==> PeerOk(s, step.conn);
    forall c: nat | c < |t.peers| ensures PeerOk(t, c) {
      assert PeerOk(s, c);
    }
    forall c <- t.hub.wires ensures WireOk(t, c) {
      assert WireOk(s, c);
    }
  }

  /** Adding the client just received keeps the invariant: it is not there yet. */
  lemma AddKeepsInv<M>(s: System<M>, step: Step<M>)
    requires Inv(s) && Enabled(s, step) && step.Add?
    ensures Inv(Apply(s, step))
  {
    var t := Apply(s, step);
    assert PeerOk(s, s.control.conn);
    forall c: nat | c < |t.peers| ensures PeerOk(t, c) {
      assert PeerOk(s, c);
    }
    forall c <- t.hub.wires ensures WireOk(t, c) {
      if c in s.hub.wires { assert WireOk(s, c); }
    }
  }

  /** So does removing the connection just received, whether it is still there or not. */
  lemma RemoveKeepsInv<M>(s: System<M>, step: Step<M>)
    requires Inv(s) && Enabled(s, step) && step.Remove?
    ensures Inv(Apply(s, step))
  {
    var t := Apply(s, step);
    assert WireOk(s, s.control.conn);
    forall c: nat | c < |t.peers| ensures PeerOk(t, c) {
      assert PeerOk(s, c);
    }
    forall c <- t.hub.wires ensures WireOk(t, c) {
      assert WireOk(s, c);
    }
  }

  lemma RecvBroadcastKeepsInv<M>(s: System<M>, step: Step<M>)
    requires Inv(s) && Enabled(s, step) && step.RecvBroadcast?
    ensures Inv(Apply(s, step))
  {
    var t := Apply(s, step);
    forall c: nat | c < |t.peers| ensures PeerOk(t, c) {
      assert PeerOk(s, c);
      FromSenderStep(s.hub.log, t.control.entry, c);
    }
    forall c <- t.hub.wires ensures WireOk(t, c) {
      assert WireOk(s, c);
      var w := s.hub.wires[c];
      assert t.hub.log[w.joined..Reach(t, c)] == s.hub.log[w.joined..Reach(s, c)];
    }
  }

  /** A write extends the attempts of that client to the end of the log. */
  lemma WriteKeepsWireOk<M>(s: System<M>, step: Step<M>, c: nat)
    requires Inv(s) && Enabled(s, step) && step.Write? && c in s.hub.wires
    ensures WireOk(Apply(s, step), c)
  {
    assert WireOk(s, c);
    if c == step.conn {
      var n := |s.hub.log| - 1;
      assert s.hub.log == s.hub.log[..n] + [s.control.entry];
      assert s.hub.log[s.hub.wires[c].joined..n] == s.hub.log[..n][s.hub.wires[c].joined..];
      PayloadsStep(s.hub.log[..n], s.control.entry, s.hub.wires[c].joined);
    }
  }

  lemma WriteKeepsPeerOk<M>(s: System<M>, step: Step<M>, c: nat)
    requires Inv(s) && Enabled(s, step) && step.Write? && c < |s.peers|
    ensures PeerOk(Apply(s, step), c)
  {
    assert PeerOk(s, c);
  }

  lemma WriteKeepsShape<M>(s: System<M>, step: Step<M>)
    requires Inv(s) && Enabled(s, step) && step.Write?
    ensures Shape(Apply(s, step))
  {
  }

  lemma WriteKeepsInv<M>(s: System<M>, step: Step<M>)
    requires Inv(s) && Enabled(s, step) && step.Write?
    ensures Inv(Apply(s, step))
  {
    var t := Apply(s, step);
    WriteKeepsShape(s, step);
    forall c: nat | c < |t.peers| ensures PeerOk(t, c) {
      WriteKeepsPeerOk(s, step, c);
    }
    forall c <- t.hub.wires ensures WireOk(t, c) {
      WriteKeepsWireOk(s, step, c);
    }
  }

  lemma EndWriteKeepsInv<M>(s: System<M>, step: Step<M>)
    requires Inv(s) && Enabled(s, step) && step.EndWrite?
    ensures Inv(Apply(s, step))
  {
    var t := Apply(s, step);
    forall c: nat | c < |t.peers| ensures PeerOk(t, c) {
      assert PeerOk(s, c);
    }
    forall c <- t.hub.wires ensures WireOk(t, c) {
      assert WireOk(s, c);
    }
  }

  lemma StepKeepsInv<M>(s: System<M>, step: Step<M>)
    requires Inv(s) && Enabled(s, step)
    ensures Inv(Apply(s, step))
  {
    if step.Accept? {
      AcceptKeepsInv(s);
    } else if !step.OfRun() {
      ReaderStepKeepsInv(s, step);
    } else if step.RecvBroadcast? {
      RecvBroadcastKeepsInv(s, step);
    } else if step.Write? {
      WriteKeepsInv(s, step);
    } else if step.EndWrite? {
      EndWriteKeepsInv(s, step);
    } else if step.Add? {
      AddKeepsInv(s, step);
    } else if step.Remove? {
      RemoveKeepsInv(s, step);
    } else {
      ReceiveKeepsInv(s, step);
    }
  }

  /** Every state of every run from a good state is good. */
  lemma {:induction false} RunKeepsInv<M>(s: System<M>, steps: seq<Step<M>>)
    requires Inv(s) && CanRun(s, steps)
    ensures Inv(RunOf(s, steps))
    decreases |steps|
  {
    if steps != [] {
      StepKeepsInv(s, steps[0]);
      RunKeepsInv(Apply(s, steps[0]), steps[1..]);
    }
  }
}
