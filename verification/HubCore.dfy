/**
  The Human Bridge hub seen on its own: what one pass of the loop in `Hub.run` does for each kind of
  request, as functions on values, and the object that does it in place.

  A connection is identified by a natural number, which stands for the `*websocket.Conn` pointer.
  The type of a frame, `M`, is left open, since the hub never looks inside one.
 */
module HubCore {
  import opened Wrappers

  /** A frame received on the broadcast channel. The sender is not visible to the hub; it is kept to state order. */
  datatype Entry<M> = Entry(sender: nat, payload: M)

  /**
    What the hub did to one connection: the length of the broadcast log when the connection entered
    `clients` and when it left, every frame handed to `WriteMessage`, the number of these writes that returned an
    error, and the number of `Close` calls.
   */
  datatype Wire<M> = Wire(joined: nat, left: Option<nat>, attempts: seq<M>, errors: nat, closes: nat)

  /** The hub and its effects. `spawned` holds the goroutines started after failed writes that still wait to send. */
  datatype HubState<M> = HubState(
    clients: set<nat>,
    wires: map<nat, Wire<M>>,
    spawned: multiset<nat>,
    log: seq<Entry<M>>)

  /** One receive of the `select`. `Retry` is an unregister that comes from a spawned goroutine. */
  datatype Request<M> =
    | Register(conn: nat)
    | Unregister(conn: nat)
    | Retry(conn: nat)
    | Broadcast(entry: Entry<M>, failing: set<nat>)

  function EmptyHub<M>(): HubState<M> {
    HubState({}, map[], multiset{}, [])
  }

  function WireOf<M>(h: HubState<M>, c: nat): Wire<M> {
    if c in h.wires then h.wires[c] else Wire(|h.log|, None, [], 0, 0)
  }

  function Added<M>(h: HubState<M>, c: nat): HubState<M> {
    h.(clients := h.clients + {c}, wires := h.wires[c := WireOf(h, c)])
  }

  function Removed<M>(h: HubState<M>, c: nat): HubState<M> {
    if c in h.clients then
      var w := WireOf(h, c);
      h.(clients := h.clients - {c}, wires := h.wires[c := w.(left := Some(|h.log|), closes := w.closes + 1)])
    else h
  }

  function Sent<M>(w: Wire<M>, m: M, ok: bool): Wire<M> {
    w.(attempts := w.attempts + [m], errors := w.errors + if ok then 0 else 1)
  }

  /** One iteration of the broadcast loop: the write is attempted, and a failure starts a goroutine. */
  function Written<M>(h: HubState<M>, c: nat, m: M, ok: bool): HubState<M> {
    h.(wires := h.wires[c := Sent(WireOf(h, c), m, ok)],
       spawned := h.spawned + if ok then multiset{} else multiset{c})
  }

  /** The wires of a hub after each connection in `done` was sent `m` once, with an error for those in `failing`. */
  function SentTo<M>(wires: map<nat, Wire<M>>, done: set<nat>, m: M, failing: set<nat>): (r: map<nat, Wire<M>>)
    ensures r.Keys == wires.Keys
  {
    map c | c in wires :: if c in done then Sent(wires[c], m, c !in failing) else wires[c]
  }

  lemma SentToStep<M>(wires: map<nat, Wire<M>>, done: set<nat>, c: nat, m: M, failing: set<nat>, failing': set<nat>)
    requires c in wires && c !in done && forall d <- done :: d in failing <==> d in failing'
    ensures SentTo(wires, done, m, failing)[c := Sent(SentTo(wires, done, m, failing)[c], m, c !in failing')]
         == SentTo(wires, done + {c}, m, failing')
  {
  }

  /** The goroutines started by the writes to `done`. */
  function Failures(failing: set<nat>, done: set<nat>): multiset<nat> {
    multiset(failing * done)
  }

  lemma FailuresStep(failing: set<nat>, done: set<nat>, c: nat)
    requires c !in done
    ensures Failures(failing, done + {c})
         == Failures(failing, done) + if c in failing then multiset{c} else multiset{}
  {
    assert failing * (done + {c}) == failing * done + if c in failing then {c} else {};
  }

  /** The hub in the middle of a broadcast of `m`, with the clients in `done` written to. */
  function Delivered<M>(h: HubState<M>, done: set<nat>, m: M, failing: set<nat>): HubState<M> {
    h.(wires := SentTo(h.wires, done, m, failing), spawned := h.spawned + Failures(failing, done))
  }

  lemma DeliveredStep<M>(h: HubState<M>, done: set<nat>, m: M, failing: set<nat>, c: nat)
    requires c in h.wires && c !in done
    ensures Written(Delivered(h, done, m, failing), c, m, c !in failing) == Delivered(h, done + {c}, m, failing)
  {
    SentToStep(h.wires, done, c, m, failing, failing);
    FailuresStep(failing, done, c);
  }

  function Broadcasted<M>(h: HubState<M>, e: Entry<M>, failing: set<nat>): HubState<M> {
    Delivered(h, h.clients, e.payload, failing).(log := h.log + [e])
  }

  function Handle<M>(h: HubState<M>, r: Request<M>): HubState<M> {
    match r
    case Register(c) => Added(h, c)
    case Unregister(c) => Removed(h, c)
    case Retry(c) => Removed(h.(spawned := h.spawned - multiset{c}), c)
    case Broadcast(e, failing) => Broadcasted(h, e, failing)
  }

  /** The hub loop over a finite prefix of the requests it receives. */
  function HandleAll<M>(h: HubState<M>, rs: seq<Request<M>>): HubState<M> {
    if rs == [] then h else Handle(HandleAll(h, rs[..|rs| - 1]), rs[|rs| - 1])
  }

  lemma HandleAllStep<M>(h: HubState<M>, rs: seq<Request<M>>, r: Request<M>)
    ensures HandleAll(h, rs + [r]) == Handle(HandleAll(h, rs), r)
  {
    assert (rs + [r])[..|rs|] == rs;
  }

  /**
    The hub object. `clients` is the Go map, all of whose values are `true`. The other fields
    record the effects on the connections and the goroutines that `run` starts.
   */
  class Hub<M(==)> {
    var clients: map<nat, bool>
    var spawned: multiset<nat>
    ghost var wires: map<nat, Wire<M>>
    ghost var log: seq<Entry<M>>

    /** Every client has been given a wire. */
    ghost predicate Valid()
      reads this
    {
      clients.Keys <= wires.Keys
    }

    ghost function View(): HubState<M>
      reads this
    {
      HubState(clients.Keys, wires, spawned, log)
    }

    constructor ()
      ensures Valid() && View() == EmptyHub()
    {
      clients := map[];
      spawned := multiset{};
      wires := map[];
      log := [];
    }

    method Register(client: nat)
      requires Valid()
      modifies this
      ensures Valid() && View() == Added(old(View()), client)
    {
      wires := wires[client := WireOf(View(), client)];
      clients := clients[client := true];
    }

    method Unregister(client: nat)
      requires Valid()
      modifies this
      ensures Valid() && View() == Removed(old(View()), client)
    {
      if client in clients {
        clients := clients - {client};
        Close(client);
      }
    }

    /** `client.Close()`; the call is recorded together with the length of the log at that time. */
    ghost method Close(client: nat)
      requires client in wires
      modifies this`wires
      ensures var w := old(wires)[client];
        wires == old(wires)[client := w.(left := Some(|log|), closes := w.closes + 1)]
    {
      wires := wires[client := wires[client].(left := Some(|log|), closes := wires[client].closes + 1)];
    }

    /** `client.WriteMessage(...)`; which writes return an error is the environment's choice. */
    method WriteMessage(client: nat, message: M, failing: set<nat>) returns (ok: bool)
      requires client in wires
      modifies this`wires
      ensures wires == old(wires)[client := Sent(old(wires)[client], message, ok)]
      ensures ok <==> client !in failing
    {
      ok := client !in failing;
      wires := wires[client := Sent(wires[client], message, ok)];
    }

    /** The body of the range loop: a failed write starts a goroutine that will unregister the client. */
    method Deliver(client: nat, message: M, failing: set<nat>)
      requires client in wires
      modifies `wires, `spawned
      ensures View() == Written(old(View()), client, message, client !in failing)
    {
      var ok := WriteMessage(client, message, failing);
      if !ok {
        spawned := spawned + multiset{client};
      }
    }

    /** The range loop over `clients`, in any order. */
    method WriteAll(message: M, failing: set<nat>)
      requires Valid()
      modifies `wires, `spawned
      ensures View() == Delivered(old(View()), clients.Keys, message, failing)
    {
      var todo := clients.Keys;
      ghost var done := {};
      assert SentTo(wires, {}, message, failing) == wires && failing * {} == {};
      while todo != {}
        invariant todo <= clients.Keys && done == clients.Keys - todo
        invariant View() == Delivered(old(View()), done, message, failing)
        decreases todo
      {
        var client :| client in todo;
        Deliver(client, message, failing);
        DeliveredStep(old(View()), done, message, failing, client);
        todo, done := todo - {client}, done + {client};
      }
      assert done == clients.Keys;
    }

    method Broadcast(message: Entry<M>, failing: set<nat>)
      requires Valid()
      modifies this
      ensures Valid() && View() == Broadcasted(old(View()), message, failing)
    {
      WriteAll(message.payload, failing);
      log := log + [message];
    }

    /** One pass of the loop: the request received by the `select` is served. */
    method Serve(request: Request<M>)
      requires Valid()
      modifies this
      ensures Valid() && View() == Handle(old(View()), request)
    {
      match request {
        case Register(c) => Register(c);
        case Unregister(c) => Unregister(c);
        case Retry(c) =>
          spawned := spawned - multiset{c};
          Unregister(c);
        case Broadcast(e, failing) => Broadcast(e, failing);
      }
    }

    /** Any finite prefix of the endless loop. */
    method Run(requests: seq<Request<M>>)
      requires Valid()
      modifies this
      ensures Valid() && View() == HandleAll(old(View()), requests)
    {
      var i := 0;
      while i < |requests|
        invariant 0 <= i <= |requests|
        invariant Valid() && View() == HandleAll(old(View()), requests[..i])
      {
        Serve(requests[i]);
        HandleAllStep(old(View()), requests[..i], requests[i]);
        assert requests[..i] + [requests[i]] == requests[..i + 1];
        i := i + 1;
      }
      assert requests[..i] == requests;
    }
  }
}
