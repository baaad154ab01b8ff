// The orders a sink keeps: log messages in the worker's order, handle calls in call order.
module PipelineOrder {
  import opened Common
  import opened ActiveObject
  import opened Pipeline
  import opened PipelineSpec
  import opened PipelineOwnership
  import opened PipelineDelivery
  import opened PipelineTheorems

  function CallOf(t: SinkTask): seq<CallId> {
    match t
    case Call(HandleCall(c)) => [c]
    case _ => []
  }

  // The handle calls among a sink's jobs, in order.
  function HandleCalls(ts: seq<SinkTask>): seq<CallId>
    decreases |ts|
  {
    if ts == [] then [] else HandleCalls(ts[..|ts| - 1]) + CallOf(ts[|ts| - 1])
  }

  // The calls that clients enqueue on sink k, in order: read off the labels alone.
  function CallsMade(ls: seq<Label>, k: SinkId): seq<CallId>
    decreases |ls|
  {
    if ls == [] then []
    else
      var l := ls[|ls| - 1];
      CallsMade(ls[..|ls| - 1], k) + if l.HandleSend? && l.sink == k then [l.call] else []
  }

  lemma {:induction false} HandleCallsConcat(a: seq<SinkTask>, b: seq<SinkTask>)
    ensures HandleCalls(a + b) == HandleCalls(a) + HandleCalls(b)
    decreases |b|
  {
    if b == [] {
      assert a + b == a;
    } else {
      var n := |b| - 1;
      assert (a + b)[..|a + b| - 1] == a + b[..n];
      HandleCallsConcat(a, b[..n]);
    }
  }

  lemma CallsGrow(s: State, l: Label, k: SinkId)
    requires Enabled(s, l) && k in s.sinks && k in Apply(s, l).sinks
    ensures HandleCalls(Sent(Apply(s, l).sinks[k].active)) ==
            HandleCalls(Sent(s.sinks[k].active)) + if l.HandleSend? && l.sink == k then [l.call] else []
  {
    hide Apply, Enabled, Sent, Grown;
    SentGrows(s, l, k);
    GrownCall(s, l, k);
    HandleCallsConcat(Sent(s.sinks[k].active), Grown(s.sinks[k].active, Apply(s, l).sinks[k].active));
  }

  lemma GrownCall(s: State, l: Label, k: SinkId)
    requires Enabled(s, l) && k in s.sinks && k in Apply(s, l).sinks
    ensures HandleCalls(Grown(s.sinks[k].active, Apply(s, l).sinks[k].active)) ==
            if l.HandleSend? && l.sink == k then [l.call] else []
  {
    hide Apply;
    ActiveChange(s, l, k);
    var g := Grown(s.sinks[k].active, Apply(s, l).sinks[k].active);
    if g != [] {
      assert g[..0] == [] && HandleCalls(g) == HandleCalls(g[..0]) + CallOf(g[0]);
    }
  }

  lemma {:induction false} CallsReachTheQueue(ls: seq<Label>, s: State, k: SinkId)
    requires Run(ls) == Some(s)
    ensures if k in s.sinks then HandleCalls(Sent(s.sinks[k].active)) == CallsMade(ls, k) else CallsMade(ls, k) == []
    decreases |ls|
  {
    if ls != [] {
      var b, l := Run(ls[..|ls| - 1]).value, ls[|ls| - 1];
      CallsReachTheQueue(ls[..|ls| - 1], b, k);
      SinksOnlyGrow(b, l);
      if k in b.sinks {
        CallsGrow(b, l, k);
      } else {
        NoCallWithoutSink(b, l, k);
      }
    }
  }

  lemma NoCallWithoutSink(s: State, l: Label, k: SinkId)
    requires Enabled(s, l) && k !in s.sinks
    ensures !(l.HandleSend? && l.sink == k)
    ensures k in Apply(s, l).sinks ==> Sent(Apply(s, l).sinks[k].active) == []
  {
    hide Strong, Released, Free;
    SinksOnlyGrow(s, l);
  }

  // One sink executes handle calls in the order they were enqueued, none skipped.
  lemma HandleCallsKeepOrder(ls: seq<Label>, s: State, k: SinkId)
    requires Run(ls) == Some(s) && k in s.sinks
    ensures HandleCalls(s.sinks[k].active.executed) <= CallsMade(ls, k)
  {
    var a := s.sinks[k].active;
    CallsReachTheQueue(ls, s, k);
    assert Sent(a) == a.executed + (InHand(a) + a.queue);
    HandleCallsConcat(a.executed, InHand(a) + a.queue);
  }

  // One sink executes its log messages in the worker's order, none skipped.
  lemma LogMessagesKeepOrder(ls: seq<Label>, s: State, k: SinkId)
    requires Run(ls) == Some(s) && k in s.sinks
    ensures LogMessages(s.sinks[k].active.executed) <= Slice(Absent, JobsSent(ls), k)
  {
    Conservation(ls, s, k);
  }

  // A destroyed sink has run every handle call that any client enqueued on it, in order, and every
  // message that the worker's jobs have given it, in order, with the stop request last.
  lemma DestroyedSinkRanEverything(ls: seq<Label>, s: State, k: SinkId)
    requires Run(ls) == Some(s) && k in s.sinks && s.sinks[k].life.Dead?
    ensures var e := s.sinks[k].active.executed;
            && HandleCalls(e) == CallsMade(ls, k)
            && LogMessages(e) == Slice(Absent, s.worker.executed, k) + GivenInHand(s, k)
            && EndsWithDone(e)
  {
    hide HandleCalls, CallsMade, LogMessages, Slice, GivenInHand, Run;
    DestroyedSinkIsDrained(ls, s, k);
    CallsReachTheQueue(ls, s, k);
    ReachableDelivery(ls, s);
    assert Received(s, k);
  }
}
