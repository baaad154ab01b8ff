// Conservation: what the sinks receive is what the job history owes them, message by message, in
// every reachable state of every interleaving.
module PipelineDelivery {
  import opened Common
  import opened ActiveObject
  import opened Pipeline
  import opened PipelineSpec
  import opened PipelineOwnership

  // The log messages among a sink's jobs, in order.
  function LogMessages(ts: seq<SinkTask>): seq<Message>
    decreases |ts|
  {
    if ts == [] then []
    else LogMessages(ts[..|ts| - 1]) + LogOf(ts[|ts| - 1])
  }

  function LogOf(t: SinkTask): seq<Message> {
    match t
    case Call(LogCall(m)) => [m]
    case _ => []
  }

  lemma {:induction false} LogMessagesConcat(a: seq<SinkTask>, b: seq<SinkTask>)
    ensures LogMessages(a + b) == LogMessages(a) + LogMessages(b)
    decreases |b|
  {
    if b == [] {
      assert a + b == a;
    } else {
      var n := |b| - 1;
      assert (a + b)[..|a + b| - 1] == a + b[..n];
      LogMessagesConcat(a, b[..n]);
    }
  }

  lemma LogMessagesSnoc(a: seq<SinkTask>, t: SinkTask)
    ensures LogMessages(a + [t]) == LogMessages(a) + LogOf(t)
  {
    assert (a + [t])[..|a + [t]| - 1] == a;
  }

  // The part of the job in hand that sink k has been given already; r is the registry at its start.
  function GivenFrom(s: State, r: seq<SinkId>, k: SinkId): seq<Message> {
    var reached := if s.progress.FanOut? && s.progress.next <= |s.registry| then s.registry[..s.progress.next] else r;
    if SaveInHand(s) && k in reached then [s.worker.hand.value.job.msg]
    else if FatalInHand(s) && k in reached then [FatalReport(s.worker.hand.value.job.msg)]
    else []
  }

  function GivenInHand(s: State, k: SinkId): seq<Message> {
    GivenFrom(s, RegistryAfter(s.worker.executed), k)
  }

  predicate IsSuffix(a: seq<SinkId>, b: seq<SinkId>) {
    |a| <= |b| && a == b[|b| - |a|..]
  }

  // The registry is r, the one the executed jobs describe, or what is left of it while it is cleared;
  // the stderr reports are o.
  ghost predicate WorkerShape(s: State, r: seq<SinkId>, o: seq<Message>) {
    && (forall t | t in s.worker.executed :: t.Done? || Runs(t))
    && IsSuffix(s.registry, r)
    && (ClearingNow(s) || s.stage.Finished? || s.registry == r)
    && (SaveInHand(s) || AddInHand(s) ==> s.progress.FanOut?)
    && (ClearInHand(s) ==> s.progress.Clearing?)
    && (s.worker.hand.Some? && s.progress.FanOut? ==> s.progress.next <= |s.registry|)
    && s.reported == o
    && (s.exited ==> FatalInHand(s) && s.progress.Clearing? && s.registry == [])
  }

  ghost predicate WorkerInv(s: State) {
    WorkerShape(s, RegistryAfter(s.worker.executed), Orphans(s.worker.executed))
  }

  ghost predicate Received(s: State, k: SinkId)
    requires k in s.sinks
  {
    LogMessages(Sent(s.sinks[k].active)) == Slice(Absent, s.worker.executed, k) + GivenInHand(s, k)
  }

  ghost predicate DeliveryInv(s: State) {
    WorkerInv(s) && forall k | k in s.sinks :: Received(s, k)
  }

  // ----- The registry and the worker

  lemma RegistrySnoc(ts: seq<WorkerTask>, t: WorkerTask)
    ensures RegistryAfter(ts + [t]) == RegistryNext(RegistryAfter(ts), t)
    ensures Orphans(ts + [t]) == Orphans(ts) + OrphanOf(RegistryAfter(ts), t)
  {
    assert (ts + [t])[..|ts + [t]| - 1] == ts;
  }

  predicate MovesWorker(l: Label) {
    l.WorkerPop? || l.WorkerSend? || l.WorkerSaved? || l.WorkerAdded? || l.WorkerFlush? || l.WorkerExit?
    || l.WorkerDone? || l.DropSink? || l.WorkerCleared? || l.DtorJoin?
    || l.DtorDiscarded? || l.DtorEnd?
  }

  lemma OthersKeepProgress(s: State, l: Label)
    requires Enabled(s, l) && !MovesWorker(l)
    ensures var s' := Apply(s, l);
            && s'.worker.executed == s.worker.executed && s'.worker.hand == s.worker.hand
            && s'.progress == s.progress && s'.registry == s.registry && s'.reported == s.reported
            && s'.exited == s.exited && (s'.stage.Members? <==> s.stage.Members?)
            && (s'.stage.Finished? <==> s.stage.Finished?)
  {
  }

  lemma HandIsOpen(s: State, r: seq<SinkId>, o: seq<Message>)
    requires WorkerShape(s, r, o) && Valid(s.worker) && StageOk(s) && s.worker.hand.Some?
    ensures forall t | t in s.worker.executed :: Runs(t)
    ensures !s.stage.Members? && !s.stage.Finished?
    ensures !FatalInHand(s) && !ClearInHand(s) ==> s.registry == r
  {
  }

  // Each returning job changes the registry and the report as the history describes.
  lemma ReturnKeepsShape(s: State, l: Label, r: seq<SinkId>, o: seq<Message>)
    requires Enabled(s, l) && WorkerShape(s, r, o) && Valid(s.worker) && StageOk(s)
    requires Returning(l)
    ensures WorkerShape(Apply(s, l), RegistryNext(r, s.worker.hand.value), o + OrphanOf(r, s.worker.hand.value))
  {
    HandIsOpen(s, r, o);
    ReturnChanges(s, l, r);
    var t, s' := s.worker.hand.value, Apply(s, l);
    ShapeAfterReturn(s, s', RegistryNext(r, t), o + OrphanOf(r, t));
  }

  lemma ReturnChanges(s: State, l: Label, r: seq<SinkId>)
    requires Enabled(s, l) && Returning(l) && (!FatalInHand(s) && !ClearInHand(s) ==> s.registry == r)
    ensures var s', t := Apply(s, l), s.worker.hand.value;
            && s'.worker == Finish(s.worker) && !s'.exited && (t.Done? || Runs(t))
            && s'.registry == RegistryNext(r, t) && s'.reported == s.reported + OrphanOf(r, t)
  {
  }

  lemma ShapeAfterReturn(s: State, s': State, r': seq<SinkId>, o': seq<Message>)
    requires s.worker.hand.Some? && s'.worker == Finish(s.worker) && !s'.exited
    requires forall t | t in s.worker.executed :: Runs(t)
    requires s.worker.hand.value.Done? || Runs(s.worker.hand.value)
    requires s'.registry == r' && s'.reported == o'
    ensures WorkerShape(s', r', o')
  {
    assert s'.registry == s'.registry[0..];
  }

  lemma DropKeepsShape(s: State, r: seq<SinkId>, o: seq<Message>)
    requires Enabled(s, DropSink) && WorkerShape(s, r, o) && Valid(s.worker) && StageOk(s)
    ensures WorkerShape(Apply(s, DropSink), r, o)
  {
    assert r[|r| - |s.registry|..][1..] == r[|r| - |s.registry| + 1..];
  }

  lemma HandMoveKeepsShape(s: State, l: Label, r: seq<SinkId>, o: seq<Message>)
    requires Enabled(s, l) && WorkerShape(s, r, o) && Valid(s.worker) && StageOk(s)
    requires l.WorkerPop? || l.WorkerSend? || l.WorkerFlush?
    ensures WorkerShape(Apply(s, l), r, o)
  {
    if l.WorkerPop? {
      assert s.registry == r;
    } else {
      HandIsOpen(s, r, o);
    }
  }

  lemma EndMoveKeepsShape(s: State, l: Label, r: seq<SinkId>, o: seq<Message>)
    requires Enabled(s, l) && WorkerShape(s, r, o) && Valid(s.worker) && StageOk(s)
    requires l.WorkerExit? || l.DtorJoin? || l.DtorDiscarded? || l.DtorEnd?
    ensures WorkerShape(Apply(s, l), r, o)
  {
    if l.WorkerExit? {
      assert Apply(s, l) == s.(exited := true);
    } else if l.DtorEnd? {
      assert Apply(s, l) == s.(stage := Finished);
    } else {
      assert s.worker.hand.None?;
    }
  }

  lemma ExecutedOnlyAtReturn(s: State, l: Label)
    requires Enabled(s, l) && !Returning(l)
    ensures Apply(s, l).worker.executed == s.worker.executed
  {
  }

  lemma WorkerInvStep(s: State, l: Label)
    requires Enabled(s, l) && WorkerInv(s) && Valid(s.worker) && StageOk(s)
    ensures WorkerInv(Apply(s, l))
  {
    hide Apply, RegistryNext, OrphanOf;
    var e := s.worker.executed;
    var r, o := RegistryAfter(e), Orphans(e);
    if Returning(l) {
      ReturnMovesHand(s, l);
      RegistrySnoc(e, s.worker.hand.value);
      ReturnKeepsShape(s, l, r, o);
    } else {
      ExecutedOnlyAtReturn(s, l);
      if !MovesWorker(l) {
        OthersKeepProgress(s, l);
      } else if l.DropSink? {
        DropKeepsShape(s, r, o);
      } else if l.WorkerPop? || l.WorkerSend? || l.WorkerFlush? {
        HandMoveKeepsShape(s, l, r, o);
      } else {
        EndMoveKeepsShape(s, l, r, o);
      }
    }
  }

  // ----- The sinks

  // What a step adds to the log calls of sink k.
  function Delivered(s: State, l: Label, k: SinkId): seq<Message>
    requires Enabled(s, l)
  {
    if l.WorkerSend? && s.registry[s.progress.next] == k then
      var m := s.worker.hand.value.job.msg;
      [if SaveInHand(s) then m else FatalReport(m)]
    else []
  }

  lemma SinkGains(s: State, l: Label, k: SinkId)
    requires Enabled(s, l) && k in s.sinks && k in Apply(s, l).sinks
    ensures LogMessages(Sent(Apply(s, l).sinks[k].active)) == LogMessages(Sent(s.sinks[k].active)) + Delivered(s, l, k)
  {
    var a, a' := s.sinks[k].active, Apply(s, l).sinks[k].active;
    ActiveChange(s, l, k);
    SentGrows(s, l, k);
    if Grown(a, a') != [] {
      LogMessagesSnoc(Sent(a), Grown(a, a')[0]);
    } else {
      assert Sent(a) + [] == Sent(a);
    }
  }

  lemma GiftsOfRegistered(s: State, k: SinkId)
    requires WorkerInv(s) && Valid(s.worker) && s.worker.hand.Some?
    ensures StandingAfter(Absent, s.worker.executed, k) ==
            if k in RegistryAfter(s.worker.executed) then Present else Absent
  {
    PresentIffRegistered(s.worker.executed, k);
  }

  lemma GivenIsTheGift(s: State, l: Label, r: seq<SinkId>, o: seq<Message>, k: SinkId)
    requires Enabled(s, l) && WorkerShape(s, r, o) && Valid(s.worker) && StageOk(s) && Returning(l)
    ensures GivenFrom(s, r, k) == Gift(if k in r then Present else Absent, s.worker.hand.value)
    ensures GivenFrom(Apply(s, l), [], k) == []
  {
    HandIsOpen(s, r, o);
    assert s.registry[..|s.registry|] == s.registry;
  }

  lemma NothingGivenWithoutHand(s: State, r: seq<SinkId>, k: SinkId)
    requires s.worker.hand.None?
    ensures GivenFrom(s, r, k) == []
  {
  }

  lemma ReturnMovesHand(s: State, l: Label)
    requires Enabled(s, l) && Returning(l)
    ensures s.worker.hand.Some? && Apply(s, l).worker == Finish(s.worker)
  {
  }

  lemma GivenAtReturn(s: State, l: Label, k: SinkId)
    requires Enabled(s, l) && WorkerInv(s) && Valid(s.worker) && StageOk(s)
    requires Returning(l)
    ensures Slice(Absent, Apply(s, l).worker.executed, k) == Slice(Absent, s.worker.executed, k) + GivenInHand(s, k)
    ensures GivenInHand(Apply(s, l), k) == []
  {
    var e := s.worker.executed;
    ReturnMovesHand(s, l);
    HandIsOpen(s, RegistryAfter(e), Orphans(e));
    PresentIffRegistered(e, k);
    GivenIsTheGift(s, l, RegistryAfter(e), Orphans(e), k);
    NothingGivenWithoutHand(Apply(s, l), RegistryAfter(Apply(s, l).worker.executed), k);
    SliceSnoc(Absent, e, s.worker.hand.value, k);
  }

  lemma GivenAtSend(s: State, k: SinkId)
    requires Enabled(s, WorkerSend) && WorkerInv(s) && RegistryOk(s)
    ensures GivenInHand(Apply(s, WorkerSend), k) == GivenInHand(s, k) + Delivered(s, WorkerSend, k)
  {
    var n := s.progress.next;
    assert s.registry[..n + 1] == s.registry[..n] + [s.registry[n]];
    assert s.registry[n] !in s.registry[..n];
  }

  lemma GivenElsewhere(s: State, l: Label, r: seq<SinkId>, o: seq<Message>, k: SinkId)
    requires Enabled(s, l) && WorkerShape(s, r, o) && Valid(s.worker) && StageOk(s)
    requires !Returning(l) && !l.WorkerSend?
    ensures GivenFrom(Apply(s, l), r, k) == GivenFrom(s, r, k)
  {
    if l.WorkerPop? {
      GivenAtPop(s, r, k);
    } else if l.WorkerFlush? {
      GivenAtFlush(s, r, o, k);
    } else if l.DropSink? {
      GivenAtDrop(s, r, o, k);
    } else {
      HandKept(s, l);
    }
  }

  lemma GivenAtPop(s: State, r: seq<SinkId>, k: SinkId)
    requires Enabled(s, WorkerPop)
    ensures GivenFrom(Apply(s, WorkerPop), r, k) == GivenFrom(s, r, k) == []
  {
  }

  lemma GivenAtFlush(s: State, r: seq<SinkId>, o: seq<Message>, k: SinkId)
    requires Enabled(s, WorkerFlush) && WorkerShape(s, r, o) && Valid(s.worker) && StageOk(s)
    ensures GivenFrom(Apply(s, WorkerFlush), r, k) == GivenFrom(s, r, k)
  {
    HandIsOpen(s, r, o);
    assert !ClearingNow(s);
    assert s.registry[..|s.registry|] == s.registry;
  }

  lemma GivenAtDrop(s: State, r: seq<SinkId>, o: seq<Message>, k: SinkId)
    requires Enabled(s, DropSink) && WorkerShape(s, r, o) && Valid(s.worker) && StageOk(s)
    ensures GivenFrom(Apply(s, DropSink), r, k) == GivenFrom(s, r, k)
  {
    var s' := Apply(s, DropSink);
    assert s'.worker == s.worker && s'.progress == s.progress;
    assert s.worker.hand.Some? ==> s.progress.Clearing?;
  }

  lemma HandKept(s: State, l: Label)
    requires Enabled(s, l) && !Returning(l) && !l.WorkerSend? && !l.WorkerPop? && !l.WorkerFlush? && !l.DropSink?
    ensures var s' := Apply(s, l);
            s'.worker.hand == s.worker.hand && s'.progress == s.progress && s'.registry == s.registry
  {
  }

  // A step moves exactly what it delivers from "owed" to "given".
  lemma GivenStep(s: State, l: Label, k: SinkId)
    requires Enabled(s, l) && WorkerInv(s) && Valid(s.worker) && StageOk(s) && RegistryOk(s)
    ensures Slice(Absent, Apply(s, l).worker.executed, k) + GivenInHand(Apply(s, l), k)
         == Slice(Absent, s.worker.executed, k) + GivenInHand(s, k) + Delivered(s, l, k)
  {
    if Returning(l) {
      GivenAtReturn(s, l, k);
    } else if l.WorkerSend? {
      GivenAtSend(s, k);
    } else {
      ExecutedOnlyAtReturn(s, l);
      GivenElsewhere(s, l, RegistryAfter(s.worker.executed), Orphans(s.worker.executed), k);
    }
  }

  lemma FreshSinkIsOwedNothing(s: State, k: SinkId)
    requires JobsOk(s) && k !in s.sinks && WorkerInv(s)
    ensures Slice(Absent, s.worker.executed, k) == []
    ensures !StandingAfter(Absent, s.worker.executed, k).Present?
  {
    forall t | t in s.worker.executed ensures !Adds(t, k) {
      assert t in History(s);
    }
    NothingUnlessAdded(Absent, s.worker.executed, k);
  }

  lemma ReceivedStep(s: State, l: Label, k: SinkId)
    requires Inv(s) && WorkerInv(s) && Enabled(s, l) && k in s.sinks && k in Apply(s, l).sinks && Received(s, k)
    ensures Received(Apply(s, l), k)
  {
    GivenStep(s, l, k);
    SinkGains(s, l, k);
  }

  lemma ReceivedAtBirth(s: State, l: Label)
    requires Inv(s) && WorkerInv(s) && Enabled(s, l) && (l.AddSinkCall? || l.AddSinkRefused?)
    ensures Received(Apply(s, l), l.sink)
  {
    ExecutedOnlyAtReturn(s, l);
    GivenElsewhere(s, l, RegistryAfter(s.worker.executed), Orphans(s.worker.executed), l.sink);
    FreshSinkIsOwedNothing(s, l.sink);
    NewSinkIsGivenNothing(s, l.sink);
  }

  lemma DeliveryStep(s: State, l: Label)
    requires Inv(s) && DeliveryInv(s) && Enabled(s, l)
    ensures DeliveryInv(Apply(s, l))
  {
    WorkerInvStep(s, l);
    SinksOnlyGrow(s, l);
    var s' := Apply(s, l);
    forall k | k in s'.sinks ensures Received(s', k) {
      if k in s.sinks {
        ReceivedStep(s, l, k);
      } else {
        ReceivedAtBirth(s, l);
      }
    }
  }

  lemma NewSinkIsGivenNothing(s: State, k: SinkId)
    requires Inv(s) && WorkerInv(s) && k !in s.sinks
    ensures GivenInHand(s, k) == []
  {
    if FatalInHand(s) {
      FreshSinkIsOwedNothing(s, k);
      GiftsOfRegistered(s, k);
    }
  }
}
