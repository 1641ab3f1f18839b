/**
  Happens-before for goroutines that share one `sync.RWMutex`, as the Go memory model has it: program order, and an
  unlock before every later lock of which at least one is exclusive. What the lock orders, and what it does not.
 */
module LockOrder {
  import opened Wrappers

  datatype Owner = Sweeper | Of(t: nat)

  /** A shared variable. */
  datatype Location = AnswerMap | StatusOf(tool: nat)

  datatype Event =
    | Locked(who: Owner, exclusive: bool)
    | Unlocked(who: Owner, exclusive: bool)
    | Reads(who: Owner, at: Location)
    | Writes(who: Owner, at: Location)
  {
    predicate Access() {
      Reads? || Writes?
    }
  }

  // ---- Happens-before and races ----

  predicate Edge(a: Event, b: Event) {
    a.who == b.who || (a.Unlocked? && b.Locked? && (a.exclusive || b.exclusive))
  }

  /** Event `i` happens before event `j`. */
  ghost predicate Before(tr: seq<Event>, i: nat, j: nat)
    decreases j
  {
    i < j < |tr| && (Edge(tr[i], tr[j]) || exists m: nat | i < m < j :: Before(tr, i, m) && Edge(tr[m], tr[j]))
  }

  predicate Conflict(a: Event, b: Event) {
    a.Access() && b.Access() && a.at == b.at && (a.Writes? || b.Writes?)
  }

  /** A data race: two conflicting accesses of which neither happens before the other. */
  ghost predicate Race(tr: seq<Event>, i: nat, j: nat) {
    i < |tr| && j < |tr| && i != j && Conflict(tr[i], tr[j]) && !Before(tr, i, j) && !Before(tr, j, i)
  }

  /** A chain of edges begins with an edge. */
  lemma {:induction false} FirstEdge(tr: seq<Event>, i: nat, j: nat) returns (m: nat)
    requires Before(tr, i, j)
    ensures i < m <= j && Edge(tr[i], tr[m])
    decreases j
  {
    if Edge(tr[i], tr[j]) {
      m := j;
    } else {
      var k: nat :| i < k < j && Before(tr, i, k) && Edge(tr[k], tr[j]);
      m := FirstEdge(tr, i, k);
    }
  }

  lemma Chain(tr: seq<Event>, i: nat, u: nat, l: nat, j: nat)
    requires i < u < l < j < |tr| && Edge(tr[i], tr[u]) && Edge(tr[u], tr[l]) && Edge(tr[l], tr[j])
    ensures Before(tr, i, j)
  {
    assert Before(tr, i, u);
    assert Before(tr, i, l);
  }

  /** Shared use of the lock orders nothing: without an exclusive section only program order is left. */
  lemma {:induction false} SharedUseOrdersNothing(tr: seq<Event>, i: nat, j: nat)
    requires forall e <- tr :: e.Locked? || e.Unlocked? ==> !e.exclusive
    ensures Before(tr, i, j) <==> i < j < |tr| && tr[i].who == tr[j].who
    decreases j
  {
    if Before(tr, i, j) && !Edge(tr[i], tr[j]) {
      var m: nat :| i < m < j && Before(tr, i, m) && Edge(tr[m], tr[j]);
      SharedUseOrdersNothing(tr, i, m);
    }
  }

  // ---- The lock ----

  datatype Holders = Holders(writer: Option<Owner>, readers: set<Owner>)

  predicate Holds(h: Holders, g: Owner, exclusive: bool) {
    if exclusive then h.writer == Some(g) else g in h.readers
  }

  function Next(h: Holders, e: Event): Holders {
    match e
    case Locked(g, true) => h.(writer := Some(g))
    case Locked(g, false) => h.(readers := h.readers + {g})
    case Unlocked(_, true) => h.(writer := None)
    case Unlocked(g, false) => h.(readers := h.readers - {g})
    case _ => h
  }

  /** Who holds the lock after these events. */
  function After(tr: seq<Event>): Holders {
    if tr == [] then Holders(None, {}) else Next(After(tr[..|tr| - 1]), tr[|tr| - 1])
  }

  predicate MayFollow(h: Holders, e: Event) {
    match e
    case Locked(_, exclusive) => h.writer.None? && (exclusive ==> h.readers == {})
    case Unlocked(g, exclusive) => Holds(h, g, exclusive)
    case _ => true
  }

  /** Every event of the lock is one that the lock allows. */
  ghost predicate WellLocked(tr: seq<Event>) {
    forall i: nat | i < |tr| :: MayFollow(After(tr[..i]), tr[i])
  }

  /** The access is made by a holder of the lock, a write by its exclusive holder. */
  ghost predicate Guarded(tr: seq<Event>, i: nat)
    requires i < |tr| && tr[i].Access()
  {
    Holds(After(tr[..i]), tr[i].who, true) || (tr[i].Reads? && Holds(After(tr[..i]), tr[i].who, false))
  }

  lemma AfterStep(tr: seq<Event>, i: nat)
    requires i < |tr|
    ensures After(tr[..i + 1]) == Next(After(tr[..i]), tr[i])
  {
    assert tr[..i + 1][..i] == tr[..i];
  }

  lemma WellLockedStep(tr: seq<Event>, e: Event)
    requires WellLocked(tr) && MayFollow(After(tr), e)
    ensures WellLocked(tr + [e]) && After(tr + [e]) == Next(After(tr), e)
  {
    var tr' := tr + [e];
    assert tr'[..|tr|] == tr;
    forall i: nat | i < |tr'| ensures MayFollow(After(tr'[..i]), tr'[i]) {
      if i < |tr| { assert tr'[..i] == tr[..i]; }
    }
  }

  /** Readers exclude a writer. */
  lemma {:induction false} Excludes(tr: seq<Event>, n: nat)
    requires WellLocked(tr) && n <= |tr|
    ensures After(tr[..n]).writer.Some? ==> After(tr[..n]).readers == {}
  {
    if n > 0 {
      Excludes(tr, n - 1);
      AfterStep(tr, n - 1);
    }
  }

  /** Who no longer holds the lock has released it. */
  lemma {:induction false} Released(tr: seq<Event>, i: nat, n: nat, g: Owner, exclusive: bool) returns (u: nat)
    requires WellLocked(tr) && i <= n <= |tr|
    requires Holds(After(tr[..i]), g, exclusive) && !Holds(After(tr[..n]), g, exclusive)
    ensures i <= u < n && tr[u] == Unlocked(g, exclusive)
    decreases n
  {
    AfterStep(tr, n - 1);
    if Holds(After(tr[..n - 1]), g, exclusive) {
      u := n - 1;
    } else {
      u := Released(tr, i, n - 1, g, exclusive);
    }
  }

  lemma NotBoth(tr: seq<Event>, n: nat, g: Owner, x: bool, h: Owner, y: bool)
    requires WellLocked(tr) && n <= |tr| && g != h && (x || y)
    ensures !(Holds(After(tr[..n]), g, x) && Holds(After(tr[..n]), h, y))
  {
    Excludes(tr, n);
  }

  /** Who has become a holder has taken the lock in this mode, when nobody held it in an incompatible one. */
  lemma Taken(tr: seq<Event>, n: nat, h: Owner, y: bool)
    requires WellLocked(tr) && n < |tr|
    requires !Holds(After(tr[..n]), h, y) && Holds(After(tr[..n + 1]), h, y)
    ensures tr[n] == Locked(h, y)
    ensures forall g, x | x || y :: !Holds(After(tr[..n]), g, x)
  {
    AfterStep(tr, n);
    assert MayFollow(After(tr[..n]), tr[n]);
  }

  /** Between two incompatible holders the first releases the lock before the second takes it. */
  lemma {:induction false} Handover(tr: seq<Event>, i: nat, n: nat, g: Owner, x: bool, h: Owner, y: bool)
    returns (u: nat, l: nat)
    requires WellLocked(tr) && i <= n <= |tr| && g != h && (x || y)
    requires Holds(After(tr[..i]), g, x) && Holds(After(tr[..n]), h, y)
    ensures i <= u < l < n && tr[u] == Unlocked(g, x) && tr[l] == Locked(h, y)
    decreases n
  {
    NotBoth(tr, i, g, x, h, y);
    if Holds(After(tr[..n - 1]), h, y) {
      u, l := Handover(tr, i, n - 1, g, x, h, y);
    } else {
      l := n - 1;
      Taken(tr, l, h, y);
      u := Released(tr, i, l, g, x);
    }
  }

  /** The mode in which an access is guarded. */
  ghost function Mode(tr: seq<Event>, i: nat): bool
    requires i < |tr|
  {
    Holds(After(tr[..i]), tr[i].who, true)
  }

  /** Conflicting accesses under the lock are ordered. */
  lemma GuardedAreOrdered(tr: seq<Event>, i: nat, j: nat)
    requires WellLocked(tr) && i < j < |tr| && Conflict(tr[i], tr[j]) && Guarded(tr, i) && Guarded(tr, j)
    ensures Before(tr, i, j)
  {
    if tr[i].who != tr[j].who {
      Excludes(tr, i);
      Excludes(tr, j);
      var u, l := Handover(tr, i, j, tr[i].who, Mode(tr, i), tr[j].who, Mode(tr, j));
      Chain(tr, i, u, l, j);
    }
  }

  lemma GuardedNeverRace(tr: seq<Event>, i: nat, j: nat)
    requires WellLocked(tr) && i < |tr| && j < |tr| && Conflict(tr[i], tr[j]) && Guarded(tr, i) && Guarded(tr, j)
    ensures !Race(tr, i, j)
  {
    if i < j {
      GuardedAreOrdered(tr, i, j);
    } else if j < i {
      GuardedAreOrdered(tr, j, i);
    }
  }

  // ---- The events of one goroutine ----

  function EventsOf(tr: seq<Event>, g: Owner): seq<Event> {
    if tr == [] then []
    else
      var e := tr[|tr| - 1];
      EventsOf(tr[..|tr| - 1], g) + if e.who == g then [e] else []
  }

  lemma EventsOfStep(tr: seq<Event>, e: Event, g: Owner)
    ensures EventsOf(tr + [e], g) == EventsOf(tr, g) + if e.who == g then [e] else []
  {
    assert (tr + [e])[..|tr|] == tr;
  }

  lemma {:induction false} NoEventsOf(tr: seq<Event>, g: Owner)
    requires forall e <- tr :: e.who != g
    ensures EventsOf(tr, g) == []
  {
    if tr != [] {
      NoEventsOf(tr[..|tr| - 1], g);
    }
  }

  /** How many events of its goroutine come before event `i`. */
  function Position(tr: seq<Event>, i: nat): nat
    requires i < |tr|
  {
    |EventsOf(tr[..i], tr[i].who)|
  }

  lemma {:induction false} EventsOfPrefix(tr: seq<Event>, i: nat, n: nat, g: Owner)
    requires i <= n <= |tr|
    ensures EventsOf(tr[..i], g) <= EventsOf(tr[..n], g)
    decreases n
  {
    if i < n {
      EventsOfPrefix(tr, i, n - 1, g);
      EventsOfStep(tr[..n - 1], tr[n - 1], g);
      assert tr[..n - 1] + [tr[n - 1]] == tr[..n];
    }
  }

  lemma EventAtPosition(tr: seq<Event>, i: nat)
    requires i < |tr|
    ensures Position(tr, i) < |EventsOf(tr, tr[i].who)| && EventsOf(tr, tr[i].who)[Position(tr, i)] == tr[i]
  {
    var g := tr[i].who;
    EventsOfStep(tr[..i], tr[i], g);
    assert tr[..i] + [tr[i]] == tr[..i + 1];
    EventsOfPrefix(tr, i + 1, |tr|, g);
    assert tr[..|tr|] == tr;
  }

  lemma {:induction false} EventFound(tr: seq<Event>, g: Owner, k: nat) returns (i: nat)
    requires k < |EventsOf(tr, g)|
    ensures i < |tr| && tr[i] == EventsOf(tr, g)[k] && tr[i].who == g
  {
    var front := tr[..|tr| - 1];
    if k < |EventsOf(front, g)| {
      i := EventFound(front, g, k);
    } else {
      i := |tr| - 1;
    }
  }

  lemma PositionsGrow(tr: seq<Event>, i: nat, j: nat)
    requires i < j < |tr| && tr[i].who == tr[j].who
    ensures Position(tr, i) < Position(tr, j)
  {
    var g := tr[i].who;
    EventsOfStep(tr[..i], tr[i], g);
    assert tr[..i] + [tr[i]] == tr[..i + 1];
    EventsOfPrefix(tr, i + 1, j, g);
  }

  // ---- A read after the release ----

  /** The goroutine has taken the lock shared, released it, and read the variable after that; this is all it did. */
  ghost predicate LateRead(tr: seq<Event>, g: Owner, x: Location) {
    EventsOf(tr, g) == [Locked(g, false), Unlocked(g, false), Reads(g, x)]
  }

  /** Where the three events are. */
  lemma LateReadPositions(tr: seq<Event>, g: Owner, x: Location, i: nat)
    requires LateRead(tr, g, x) && i < |tr| && tr[i].who == g
    ensures Position(tr, i) == if tr[i].Locked? then 0 else if tr[i].Unlocked? then 1 else 2
  {
    EventAtPosition(tr, i);
  }

  /** Before a guarded write the reader has released the lock. */
  lemma ReleasedBeforeWrite(tr: seq<Event>, g: Owner, l: nat, w: nat) returns (u: nat)
    requires WellLocked(tr) && l < w < |tr| && tr[l] == Locked(g, false)
    requires tr[w].Writes? && Guarded(tr, w)
    ensures l < u < w && tr[u] == Unlocked(g, false)
  {
    AfterStep(tr, l);
    Excludes(tr, w);
    u := Released(tr, l + 1, w, g, false);
  }

  /** A guarded write before the reader took the lock is ordered before the late read. */
  lemma EarlyWriteIsOrdered(tr: seq<Event>, g: Owner, x: Location, l: nat, w: nat, r: nat)
    requires WellLocked(tr) && LateRead(tr, g, x)
    requires w < l < |tr| && r < |tr| && tr[l] == Locked(g, false) && tr[r] == Reads(g, x)
    requires tr[w].Writes? && tr[w].who != g && Guarded(tr, w)
    ensures Before(tr, w, r)
  {
    LateReadPositions(tr, g, x, l);
    LateReadPositions(tr, g, x, r);
    if r < l { PositionsGrow(tr, r, l); }
    AfterStep(tr, l);
    var u, k := Handover(tr, w, l + 1, tr[w].who, true, g, false);
    LateReadPositions(tr, g, x, k);
    if k < l { PositionsGrow(tr, k, l); }
    Chain(tr, w, u, l, r);
  }

  /** The reader does nothing between a guarded write after its look-up and its read, nor after the read. */
  lemma LaterWriteIsUnordered(tr: seq<Event>, g: Owner, x: Location, l: nat, w: nat, r: nat)
    requires WellLocked(tr) && LateRead(tr, g, x)
    requires l < w < |tr| && r < |tr| && tr[l] == Locked(g, false) && tr[r] == Reads(g, x)
    requires tr[w].Writes? && tr[w].who != g && Guarded(tr, w)
    ensures !Before(tr, w, r) && !Before(tr, r, w)
  {
    LateReadPositions(tr, g, x, r);
    if Before(tr, r, w) {
      var m := FirstEdge(tr, r, w);
      PositionsGrow(tr, r, m);
      LateReadPositions(tr, g, x, m);
    }
    if Before(tr, w, r) {
      var m: nat :| w < m < r && Before(tr, w, m) && Edge(tr[m], tr[r]);
      var u := ReleasedBeforeWrite(tr, g, l, w);
      LateReadPositions(tr, g, x, u);
      PositionsGrow(tr, u, m);
      PositionsGrow(tr, m, r);
    }
  }

  /**
    The exact condition: a read made after the release races with a write made under the lock if and only if the
    write was made after the reader had taken the lock. It does not matter whether write or read came first, nor
    whether the writer still held the lock.
   */
  lemma LateReadRacesIff(tr: seq<Event>, g: Owner, x: Location, l: nat, w: nat, r: nat)
    requires WellLocked(tr) && LateRead(tr, g, x)
    requires l < |tr| && r < |tr| && tr[l] == Locked(g, false) && tr[r] == Reads(g, x)
    requires w < |tr| && tr[w].Writes? && tr[w].at == x && tr[w].who != g && Guarded(tr, w)
    ensures Race(tr, w, r) <==> l < w
  {
    if l < w {
      LaterWriteIsUnordered(tr, g, x, l, w, r);
    } else {
      EarlyWriteIsOrdered(tr, g, x, l, w, r);
    }
  }

  // ---- Counting writes ----

  function WritesTo(tr: seq<Event>, x: Location): nat {
    if tr == [] then 0
    else
      var e := tr[|tr| - 1];
      WritesTo(tr[..|tr| - 1], x) + if e.Writes? && e.at == x then 1 else 0
  }

  lemma WritesToStep(tr: seq<Event>, e: Event, x: Location)
    ensures WritesTo(tr + [e], x) == WritesTo(tr, x) + if e.Writes? && e.at == x then 1 else 0
  {
    assert (tr + [e])[..|tr|] == tr;
  }

  /** More writes have been made at `n` than at `i` exactly if there is one in between. */
  lemma {:induction false} MoreWritesIff(tr: seq<Event>, i: nat, n: nat, x: Location)
    requires i <= n <= |tr|
    ensures WritesTo(tr[..i], x) <= WritesTo(tr[..n], x)
    ensures WritesTo(tr[..i], x) < WritesTo(tr[..n], x) <==>
      exists w: nat :: i <= w < n && tr[w].Writes? && tr[w].at == x
    decreases n
  {
    if i < n {
      MoreWritesIff(tr, i, n - 1, x);
      WritesToStep(tr[..n - 1], tr[n - 1], x);
      assert tr[..n - 1] + [tr[n - 1]] == tr[..n];
      if tr[n - 1].Writes? && tr[n - 1].at == x {
        assert i <= n - 1 < n && tr[n - 1].Writes?;
      }
    }
  }
}
