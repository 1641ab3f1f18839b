/**
  The asynchronous human-answer protocol: where the answers come from that callers are shown, and what callers are
  told while they wait.
 */
module HumanTheorems {
  import opened Wrappers
  import opened ServerSpec
  import ServerSystem
  import StoreTheorems
  import opened HumanSystem

  /** A finished GetHumanInput for `id` that showed `a`. */
  ghost predicate Showed(s: ServerSystem.State, t: nat, id: string, a: ServerSpec.Answer) {
    && t < |s.handlers| && s.handlers[t].call == ServerSystem.Store(Get(id)) && s.handlers[t].pc.Done?
    && s.handlers[t].pc.outcome.Pointer?
    && ServerSystem.Deref(s.heap, s.handlers[t].pc.outcome.at) == a
  }

  /** Some answer for `id` took effect after the `j`-th store operation and before the `k`-th. */
  ghost predicate ProvidedBetween(s: ServerSystem.State, j: nat, k: nat, id: string) {
    exists i: nat :: j < i < k && i < |s.lin| && s.lin[i].op.Provide? && s.lin[i].op.id == id
  }

  /** What a finished Get showed is what its place in the history of the store says. */
  lemma ShowedIsFound(s: ServerSystem.State, g: nat, id: string, a: ServerSpec.Answer) returns (k: nat)
    requires ServerSystem.Reachable(s) && Showed(s, g, id, a) && id != ""
    ensures StoreTheorems.Legal(s.lin) && s.handlers[g].point == Some(k) && k < |s.lin|
    ensures s.handlers[g].since <= k
    ensures s.lin[k].op == Get(id) && s.lin[k].result == Found(a)
  {
    StoreTheorems.Linearizable(s, g);
    k := s.handlers[g].point.value;
  }

  /** The call behind a point of the history of the store. */
  lemma PointIsCall(s: ServerSystem.State, j: nat)
    requires ServerSystem.Reachable(s) && j < |s.lin|
    ensures var t := s.lin[j].t;
      && t < |s.handlers| && s.handlers[t].call == ServerSystem.Store(s.lin[j].op)
      && s.handlers[t].point == Some(j) && s.handlers[t].since <= j
  {
    StoreTheorems.ReachableStoreInv(s);
    assert StoreTheorems.PointOk(s.handlers, j, s.lin[j]);
    assert StoreTheorems.HandlerOk(s.lin, s.heap, s.lin[j].t, s.handlers[s.lin[j].t]);
  }

  /** The message carries the id of run `r`, and the text that the request for the run has under `prompt`. */
  ghost predicate IsPromptOf(w: World, r: nat, m: Prompt)
    requires r < |w.runs|
  {
    var t := w.runs[r].caller;
    && w.runs[r].id == Some(m.taskId)
    && t < |w.server.handlers| && w.server.handlers[t].call.ExecuteTool?
    && w.server.handlers[t].call.name == "human_input"
    && w.server.handlers[t].call.args.Struct? && "prompt" in w.server.handlers[t].call.args.fields
    && w.server.handlers[t].call.args.fields["prompt"] == Scalar(m.prompt)
  }

  /**
    The operator behind an answer: it is in the history of the store that some operator provided it, who had been
    sent the id before calling, after each run with that id had published its message.
   */
  lemma ProvideIsCausal(w: World, j: nat, r: nat) returns (published: nat, asked: nat)
    requires Reachable(w) && j < |w.server.lin| && w.server.lin[j].op.Provide?
    requires r < |w.runs| && w.runs[r].id == Some(w.server.lin[j].op.id)
    ensures published < asked < |w.events|
    ensures w.events[published].Publishes? && w.events[published].run == r
    ensures w.events[published].m == Message(w, r)
    ensures IsPromptOf(w, r, w.events[published].m)
    ensures w.events[asked].Provides? && w.events[asked].t == w.server.lin[j].t
    ensures w.events[asked].id == w.server.lin[j].op.id
    ensures var e := w.events[asked]; Carried(w.bridge, e.conn, e.id, e.at)
    ensures var t := w.server.lin[j].t;
      t < |w.server.handlers| && w.events[published].lin <= w.server.handlers[t].since <= j
  {
    ReachableInv(w);
    PointIsCall(w.server, j);
    var t := w.server.lin[j].t;
    assert RunOk(w, r) && HandlerOk(w, t);
    var e :| e in w.events && e.Provides? && e.t == t;
    asked :| asked < |w.events| && w.events[asked] == e;
    assert EventOk(w, asked);
    published :|
      published < asked && published < |w.events| &&
      IsPublish(w.events[published], r, Message(w, r), w.server.handlers[t].since);
  }

  /**
    Causality. If GetHumanInput shows a `completed` answer for an id that a run of the tool generated, then, in
    the order in which the store operations took effect, the last ProvideHumanInput for that id before it gave this
    answer; an operator made that call, after the bridge had written a message with the id to the operator's
    connection, and after the run had published its own message under it. This holds for every run that has got
    as far as an id, however it ended.
   */
  lemma CompletedAnswerIsCausal(w: World, g: nat, v: Value, r: nat)
    returns (k: nat, j: nat, asked: nat, published: nat)
    requires Reachable(w) && r < |w.runs| && w.runs[r].id.Some?
    requires Showed(w.server, g, w.runs[r].id.value, Answer("completed", Some(v)))
    ensures w.server.handlers[g].point == Some(k) && j < k < |w.server.lin|
    ensures w.server.lin[j].op == Provide(w.runs[r].id.value, v)
    ensures !ProvidedBetween(w.server, j, k, w.runs[r].id.value)
    ensures published < asked < |w.events|
    ensures w.events[asked].Provides? && w.events[asked].t == w.server.lin[j].t
    ensures w.events[asked].id == w.runs[r].id.value
    ensures var e := w.events[asked]; Carried(w.bridge, e.conn, e.id, e.at)
    ensures w.events[published].Publishes? && w.events[published].run == r
    ensures IsPromptOf(w, r, w.events[published].m)
    ensures var t := w.server.lin[j].t;
      t < |w.server.handlers| && w.events[published].lin <= w.server.handlers[t].since <= j
  {
    var id := w.runs[r].id.value;
    ReachableInv(w);
    assert RunOk(w, r);
    k := ShowedIsFound(w.server, g, id, Answer("completed", Some(v)));
    StoreTheorems.GetSeesLastProvide(w.server.lin, k);
    StoreTheorems.LastProvideIsLast(w.server.lin, k, id);
    j := StoreTheorems.LastProvide(w.server.lin, k, id).value;
    published, asked := ProvideIsCausal(w, j, r);
  }

  /** An id that has not left the tool, for whatever reason, is never answered. */
  lemma UnsentIsPending(w: World, g: nat, a: ServerSpec.Answer, r: nat)
    requires Reachable(w) && r < |w.runs| && w.runs[r].id.Some? && !w.runs[r].sent
    requires Showed(w.server, g, w.runs[r].id.value, a)
    ensures a.status == "pending" && a.response.None?
  {
    ReachableInv(w);
    assert RunOk(w, r);
    var id := w.runs[r].id.value;
    var k := ShowedIsFound(w.server, g, id, a);
    StoreTheorems.GetSeesLastProvide(w.server.lin, k);
    StoreTheorems.LastProvideIsLast(w.server.lin, k, id);
    if a.status != "pending" || a.response.Some? {
      var j := StoreTheorems.LastProvide(w.server.lin, k, id).value;
      var published, asked := ProvideIsCausal(w, j, r);
      assert EventOk(w, asked);
      CarriedIsAired(w.bridge, w.events[asked].conn, id, w.events[asked].at);
      assert false;
    }
  }

  /** An operator's answer for `id` took effect before the `k`-th store operation. */
  ghost predicate AnsweredBefore(w: World, k: nat, id: string) {
    exists e <- w.events :: e.Provides? && e.id == id && TookEffectBefore(w.server, e.t, k)
  }

  predicate TookEffectBefore(s: ServerSystem.State, t: nat, k: nat) {
    t < |s.handlers| && s.handlers[t].point.Some? && s.handlers[t].point.value < k
  }

  lemma OperatorOfProvide(w: World, i: nat, k: nat)
    requires Inv(w) && i < k && i < |w.server.lin| && w.server.lin[i].op.Provide? && w.server.lin[i].op.id != ""
    ensures AnsweredBefore(w, k, w.server.lin[i].op.id)
  {
    PointIsCall(w.server, i);
    assert HandlerOk(w, w.server.lin[i].t);
    var e :| e in w.events && e.Provides? && e.t == w.server.lin[i].t;
    var j: nat :| j < |w.events| && w.events[j] == e;
    assert EventOk(w, j);
  }

  lemma ProvideOfOperator(w: World, k: nat, id: string) returns (i: nat)
    requires Inv(w) && AnsweredBefore(w, k, id)
    ensures i < k && i < |w.server.lin| && w.server.lin[i].op.Provide? && w.server.lin[i].op.id == id
  {
    var e :| e in w.events && e.Provides? && e.id == id && TookEffectBefore(w.server, e.t, k);
    var j: nat :| j < |w.events| && w.events[j] == e;
    assert EventOk(w, j);
    StoreTheorems.ReachableStoreInv(w.server);
    assert StoreTheorems.HandlerOk(w.server.lin, w.server.heap, e.t, w.server.handlers[e.t]);
    i := w.server.handlers[e.t].point.value;
    assert StoreTheorems.PointOk(w.server.handlers, i, w.server.lin[i]);
  }

  /** `pending` is shown exactly until an operator's answer for the id has taken effect, and `completed` afterwards. */
  lemma PendingUntilProvided(w: World, g: nat, a: ServerSpec.Answer, id: string) returns (k: nat)
    requires Reachable(w) && id != "" && Showed(w.server, g, id, a)
    ensures w.server.handlers[g].point == Some(k)
    ensures a.status == "pending" <==> !AnsweredBefore(w, k, id)
    ensures a.status == "completed" <==> AnsweredBefore(w, k, id)
    ensures a.response.Some? <==> AnsweredBefore(w, k, id)
  {
    ReachableInv(w);
    k := ShowedIsFound(w.server, g, id, a);
    StoreTheorems.PendingIffNotProvided(w.server.lin, k);
    if AnsweredBefore(w, k, id) {
      var i := ProvideOfOperator(w, k, id);
    } else if i: nat :| i < k && w.server.lin[i].op.Provide? && w.server.lin[i].op.id == id {
      OperatorOfProvide(w, i, k);
      assert false;
    }
  }

  /** The only run that a request started, if it was answered by one. */
  lemma RunOfRequest(w: World, t: nat) returns (r: nat)
    requires Inv(w) && t < |w.server.handlers|
    requires exists run <- w.runs :: run.caller == t
    ensures r < |w.runs| && w.runs[r].caller == t
    ensures forall q: nat | q < |w.runs| && w.runs[q].caller == t :: q == r
  {
    var run :| run in w.runs && run.caller == t;
    r :| r < |w.runs| && w.runs[r] == run;
  }

  /**
    Every success of an ExecuteTool for `human_input` carries the request's own task id, the status
    `waiting_for_human`, and as `task_id` the id generated by the only run that this request started, which has
    published the prompt of this request under it.
   */
  lemma WaitingIdIsPublished(w: World, t: nat) returns (r: nat, published: nat)
    requires Reachable(w) && t < |w.server.handlers| && ForHuman(w.server.handlers[t].call)
    requires w.server.handlers[t].pc.Done? && w.server.handlers[t].pc.outcome.Answered?
    requires w.server.handlers[t].pc.outcome.result.Executed?
    ensures r < |w.runs| && w.runs[r].caller == t && w.runs[r].id.Some?
    ensures forall q: nat | q < |w.runs| && w.runs[q].caller == t :: q == r
    ensures w.server.handlers[t].pc.outcome.result.taskId == w.server.handlers[t].call.taskId
    ensures w.server.handlers[t].pc.outcome.result.result ==
      map["status" := Scalar("waiting_for_human"), "task_id" := Scalar(w.runs[r].id.value)]
    ensures published < |w.events| && w.events[published].Publishes? && w.events[published].run == r
    ensures IsPromptOf(w, r, w.events[published].m)
  {
    ReachableInv(w);
    assert HandlerOk(w, t);
    r := RunOfRequest(w, t);
    assert RunOk(w, r);
    published :|
      published < |w.events| && IsPublish(w.events[published], r, Message(w, r), |w.server.lin|);
  }

  /** An ExecuteTool for `human_input` is aborted with exactly the error its run has reported. */
  lemma FailureIsTold(w: World, t: nat) returns (r: nat)
    requires Reachable(w) && t < |w.server.handlers| && ForHuman(w.server.handlers[t].call)
    requires w.server.handlers[t].pc.Done? && w.server.handlers[t].pc.outcome.Answered?
    requires w.server.handlers[t].pc.outcome.result.Aborted?
    ensures r < |w.runs| && w.runs[r].caller == t
    ensures forall q: nat | q < |w.runs| && w.runs[q].caller == t :: q == r
    ensures w.runs[r].reply.Some? && w.runs[r].reply.value.Response?
    ensures w.runs[r].reply.value.error != ""
    ensures w.server.handlers[t].pc.outcome.result == Aborted(w.runs[r].reply.value.error)
  {
    ReachableInv(w);
    assert HandlerOk(w, t);
    r := RunOfRequest(w, t);
  }

  /**
    What the history of a run of the protocol notes: publishing comes with the number of store operations that have
    taken effect, an operator's call with its handler and the number of messages written to the operator so far.
   */
  lemma StepNotes(w: World, step: Step)
    requires Enabled(w, step)
    ensures step.Publish? ==>
      Apply(w, step).events == w.events + [Publishes(step.r, Message(w, step.r), |w.server.lin|)]
    ensures step.Ask? ==>
      && step.conn in w.bridge.hub.wires
      && Apply(w, step).events == w.events +
           [Provides(|w.server.handlers|, step.conn, step.id, |w.bridge.hub.wires[step.conn].attempts|)]
      && |Apply(w, step).server.handlers| == |w.server.handlers| + 1
      && Apply(w, step).server.handlers[|w.server.handlers|].call == ServerSystem.Store(Provide(step.id, step.value))
  {
  }

  /** The freshness of generated ids, which is assumed when one is generated, lasts. */
  lemma IdsAreUnique(w: World, q: nat, r: nat)
    requires Reachable(w) && q < |w.runs| && r < |w.runs| && w.runs[q].id.Some?
    ensures w.runs[q].id == w.runs[r].id <==> q == r
  {
    ReachableInv(w);
    if q < r {
      assert w.runs[q].id != w.runs[r].id;
    } else if r < q && w.runs[r].id.Some? {
      assert w.runs[r].id != w.runs[q].id;
    }
  }
}
