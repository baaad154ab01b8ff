// When the end of the pipeline, by the destructor or by a fatal message, waits for a sink: exactly when
// no client holds that sink as the registry lets go of it.
module PipelineEnding {
  import opened Common
  import opened ActiveObject
  import opened Pipeline
  import opened PipelineSpec
  import opened PipelineOwnership
  import opened PipelineDelivery
  import opened PipelineFutures
  import opened PipelineTheorems
  import opened PipelineShutdown
  import opened PipelineProgress
  import opened PipelineFlush

  // ----- The destructor does not wait for a held sink

  // Nothing about sink k has changed, but that messages may have joined its queue.
  predicate Untouched(s: State, s': State, k: SinkId) {
    && k in s.sinks && k in s'.sinks
    && s'.sinks[k] == s.sinks[k].(active := s.sinks[k].active.(queue := s'.sinks[k].active.queue))
    && s.sinks[k].active.queue <= s'.sinks[k].active.queue
  }

  predicate Ended(s: State) {
    s.exited || s.stage.Finished?
  }

  lemma SendUntouched(s: State, k: SinkId)
    requires Enabled(s, WorkerSend) && k in s.sinks
    ensures Untouched(s, Apply(s, WorkerSend), k)
  {
  }

  // Freeing a job's reference does not end a sink that somebody else holds.
  lemma FreeUntouched(s: State, k: SinkId)
    requires Inv(s) && Enabled(s, DtorFree) && k in s.sinks && ClientHolds(s, k)
    ensures Untouched(s, Apply(s, DtorFree), k)
  {
    hide Unblocked, JobsOk, RegistryOk, SinksOk;
  }

  // The sink that is waited for takes its next step; it is not k, which is held and so lives.
  lemma AwaitedSinkGoesOn(s: State, k: SinkId) returns (l: Label)
    requires Inv(s) && !s.exited && !Unblocked(s) && k in s.sinks && ClientHolds(s, k)
    ensures Enabled(s, l) && !Starts(l) && Untouched(s, Apply(s, l), k)
  {
    hide Apply;
    var j := s.blockedOn.value;
    assert SinkOk(s, k) && s.sinks[k].life.Live?;
    assert SinkOk(s, j) && j != k;
    var a := s.sinks[j].active;
    l := if a.hand.Some? then SinkReturn(j) else if a.done then SinkReap(j) else SinkPop(j);
    OtherSinkUntouched(s, l, k);
  }

  lemma ClearingNext(s: State, k: SinkId) returns (l: Label)
    requires Inv(s) && !s.exited && ClearingNow(s) && Unblocked(s) && k in s.sinks && ClientHolds(s, k)
    ensures Enabled(s, l) && !Starts(l) && Untouched(s, Apply(s, l), k)
  {
    hide Apply, JobsOk, SinksOk;
    if s.registry != [] {
      assert s.registry[0] in s.registry;
      l := DropSink;
      DropUntouched(s, k);
    } else {
      l := if s.stage.Members? then DtorEnd else if FatalInHand(s) then WorkerExit else WorkerCleared;
      OthersKeepSinks(s, l);
    }
  }

  lemma DiscardingNext(s: State, k: SinkId) returns (l: Label)
    requires Inv(s) && !s.exited && s.stage.Discarding? && Unblocked(s) && k in s.sinks && ClientHolds(s, k)
    ensures Enabled(s, l) && !Starts(l) && Untouched(s, Apply(s, l), k)
  {
    hide Apply, Inv;
    l := if s.stage.doomed == [] then DtorDiscarded else if s.stage.broken then DtorFree else DtorBreak;
    if l.DtorFree? {
      FreeUntouched(s, k);
    } else {
      OthersKeepSinks(s, l);
    }
  }

  lemma HandNext(s: State, k: SinkId, r: seq<SinkId>, o: seq<Message>) returns (l: Label)
    requires Inv(s) && WorkerShape(s, r, o) && !s.exited && s.worker.hand.Some? && !ClearingNow(s)
    requires k in s.sinks && ClientHolds(s, k)
    ensures Enabled(s, l) && !Starts(l) && Untouched(s, Apply(s, l), k)
  {
    hide Apply, JobsOk, SinksOk, WorkerShape;
    if s.worker.hand == Some(Done) {
      l := WorkerDone;
    } else if AddInHand(s) {
      l := WorkerAdded;
    } else {
      HandIsFanOut(s, r, o);
      if s.progress.next < |s.registry| {
        assert s.registry[s.progress.next] in s.registry;
        l := WorkerSend;
        SendUntouched(s, k);
        return;
      }
      l := if SaveInHand(s) then WorkerSaved else WorkerFlush;
    }
    OthersKeepSinks(s, l);
  }

  lemma DestructorNext(s: State, k: SinkId) returns (l: Label)
    requires Inv(s) && StopInv(s) && ClearFuture(s) && !s.exited && k in s.sinks && ClientHolds(s, k)
    requires s.worker.hand.None? && (s.worker.queue == [] || s.worker.done)
    requires s.stage.Flushing? || s.stage.Stopping?
    ensures Enabled(s, l) && !Starts(l) && Untouched(s, Apply(s, l), k)
  {
    hide Apply;
    if s.stage.Stopping? {
      assert s.worker.done;
      l := DtorJoin;
    } else {
      assert !s.worker.done;
      l := DtorReset;
    }
    OthersKeepSinks(s, l);
  }

  // The next step on the way to the end that leaves sink k alone.
  lemma NextToEnd(s: State, k: SinkId, r: seq<SinkId>, o: seq<Message>) returns (l: Label)
    requires Inv(s) && StopInv(s) && ClearFuture(s) && WorkerShape(s, r, o)
    requires !Ended(s) && !s.stage.Up? && k in s.sinks && ClientHolds(s, k)
    ensures Enabled(s, l) && !Starts(l) && Untouched(s, Apply(s, l), k)
  {
    hide Apply, Inv, StopInv, ClearFuture, WorkerShape, Untouched, Starts;
    if (ClearingNow(s) || s.stage.Discarding?) && !Unblocked(s) {
      l := AwaitedSinkGoesOn(s, k);
    } else if ClearingNow(s) {
      l := ClearingNext(s, k);
    } else if s.stage.Discarding? {
      l := DiscardingNext(s, k);
    } else if s.worker.hand.Some? {
      l := HandNext(s, k, r, o);
    } else if CanPop(s.worker) {
      l := WorkerPop;
      PopUntouched(s, k);
    } else {
      l := DestructorNext(s, k);
    }
  }

  lemma PopUntouched(s: State, k: SinkId)
    requires Enabled(s, WorkerPop) && k in s.sinks
    ensures Untouched(s, Apply(s, WorkerPop), k) && !Starts(WorkerPop)
  {
    OthersKeepSinks(s, WorkerPop);
  }

  lemma UntouchedTrans(s: State, b: State, s': State, k: SinkId)
    requires Untouched(s, b, k) && Untouched(b, s', k)
    ensures Untouched(s, s', k)
  {
  }

  lemma UntouchedIsHeld(s: State, b: State, k: SinkId)
    requires Untouched(s, b, k) && ClientHolds(s, k)
    ensures ClientHolds(b, k)
  {
  }

  lemma StaysUnderway(s: State, l: Label)
    requires Enabled(s, l) && !s.stage.Up?
    ensures !Apply(s, l).stage.Up?
  {
    hide Apply;
    StageChange(s, l);
  }

  lemma StepToEnd(ls: seq<Label>, s: State, k: SinkId) returns (l: Label, b: State)
    requires Run(ls) == Some(s) && !Ended(s) && !s.stage.Up? && k in s.sinks && ClientHolds(s, k)
    ensures Run(ls + [l]) == Some(b) && !b.stage.Up? && Untouched(s, b, k) && ClientHolds(b, k) && Work(b) < Work(s)
  {
    hide Enabled, Apply, Inv, Work, Starts, StopInv, AddFutures, ClearFuture, CallFutures, WorkerShape, Received,
         ClientHolds, Untouched;
    ReachableDelivery(ls, s);
    ReachableStop(ls, s);
    ReachableFutures(ls, s);
    l := NextToEnd(s, k, RegistryAfter(s.worker.executed), Orphans(s.worker.executed));
    b := Apply(s, l);
    assert (ls + [l])[..|ls + [l]| - 1] == ls;
    StaysUnderway(s, l);
    UntouchedIsHeld(s, b, k);
    WorkDecreases(s, l);
  }

  // Once the destructor is underway, every such step uses up work.
  lemma {:induction false} UnderwayEnds(ls: seq<Label>, s: State, k: SinkId) returns (more: seq<Label>, s': State)
    requires Run(ls) == Some(s) && !s.stage.Up? && k in s.sinks && ClientHolds(s, k)
    ensures Run(ls + more) == Some(s') && Ended(s') && Untouched(s, s', k)
    decreases Work(s)
  {
    hide Work, ClientHolds, Run;
    if Ended(s) {
      more, s' := [], s;
      assert ls + [] == ls;
    } else {
      var l, b := StepToEnd(ls, s, k);
      more, s' := UnderwayEnds(ls + [l], b, k);
      UntouchedTrans(s, b, s', k);
      assert ls + [l] + more == ls + ([l] + more);
      more := [l] + more;
    }
  }

  lemma ClearUntouched(s: State, k: SinkId)
    requires Enabled(s, DtorClear) && k in s.sinks
    ensures Untouched(s, Apply(s, DtorClear), k) && !Apply(s, DtorClear).stage.Up?
  {
    OthersKeepSinks(s, DtorClear);
  }

  // From every reachable state, while a client holds sink k, the process can come to its end, through
  // the destructor or a fatal message that is queued already, without sink k taking another step.
  lemma EndsWithoutWaiting(ls: seq<Label>, s: State, k: SinkId) returns (more: seq<Label>, s': State)
    requires Run(ls) == Some(s) && k in s.sinks && ClientHolds(s, k)
    ensures Run(ls + more) == Some(s') && Ended(s') && Untouched(s, s', k)
  {
    hide Apply, ClientHolds;
    if s.exited {
      more, s' := [], s;
      assert ls + [] == ls;
    } else if s.stage.Up? {
      var b := Apply(s, DtorClear);
      assert (ls + [DtorClear])[..|ls + [DtorClear]| - 1] == ls;
      ClearUntouched(s, k);
      UntouchedIsHeld(s, b, k);
      more, s' := UnderwayEnds(ls + [DtorClear], b, k);
      UntouchedTrans(s, b, s', k);
      assert ls + [DtorClear] + more == ls + ([DtorClear] + more);
      more := [DtorClear] + more;
    } else {
      more, s' := UnderwayEnds(ls, s, k);
    }
  }

  // ----- The exact condition

  // Sink k has executed every task it was sent.
  predicate Drained(s: State, k: SinkId) {
    k in s.sinks && InHand(s.sinks[k].active) + s.sinks[k].active.queue == []
  }

  // Whatever happens after ls, at the end sink k has been drained.
  ghost predicate AlwaysDrained(ls: seq<Label>, k: SinkId) {
    forall more :: DrainedAfter(ls + more, k)
  }

  ghost predicate DrainedAfter(ls: seq<Label>, k: SinkId) {
    var r := Run(ls);
    r.Some? && Ended(r.value) ==> Drained(r.value, k)
  }

  // The registry is about to let go of sink k, which still has tasks.
  predicate DropsBusy(s: State, k: SinkId) {
    Enabled(s, DropSink) && s.registry[0] == k && !Drained(s, k)
  }

  // The registry let go of sink k, and nobody else had it.
  predicate Gone(s: State, k: SinkId) {
    k !in s.registry && k !in s.outlived && OfAdd(k) in s.futures && s.futures[OfAdd(k)].Value?
  }

  lemma GoneStep(s: State, l: Label, k: SinkId)
    requires Inv(s) && FuturesInv(s) && Enabled(s, l) && Gone(s, k)
    ensures Gone(Apply(s, l), k)
  {
    hide Apply, Enabled, Inv, FuturesInv;
    ResolvedIsFinal(s, l, OfAdd(k));
    StaysUnregistered(s, l, k);
    if k in Apply(s, l).outlived {
      NewlyOutlived(s, l, k);
      FirstIsRegistered(s);
    }
  }

  lemma FirstIsRegistered(s: State)
    requires Enabled(s, DropSink)
    ensures s.registry != [] && s.registry[0] in s.registry
  {
  }

  lemma {:induction false} StaysGone(ls: seq<Label>, more: seq<Label>, s: State, s': State, k: SinkId)
    requires Run(ls) == Some(s) && Run(ls + more) == Some(s') && Gone(s, k)
    ensures Gone(s', k)
    decreases |more|
  {
    hide Enabled, Apply, Gone, Inv, FuturesInv;
    if more == [] {
      assert ls + more == ls;
    } else {
      var n := |more| - 1;
      assert (ls + more)[..|ls + more| - 1] == ls + more[..n] && (ls + more)[|ls + more| - 1] == more[n];
      var b := Run(ls + more[..n]).value;
      StaysGone(ls, more[..n], s, b, k);
      ReachableInv(ls + more[..n], b);
      ReachableFutures(ls + more[..n], b);
      GoneStep(b, more[n], k);
    }
  }

  // When the end has come, a sink that went with the registry has been drained.
  lemma GoneIsDrained(ls: seq<Label>, s: State, k: SinkId)
    requires Run(ls) == Some(s) && Ended(s) && Gone(s, k) && k in s.sinks
    ensures Drained(s, k)
  {
    hide Run;
    ReachableFlush(ls, s);
    if s.exited {
      ExitedIsUnblocked(ls, s);
    } else {
      FinishedIsEmpty(ls, s);
    }
    assert LetGo(s, k) && SinkOk(s, k);
    DoneMeansDrained(s.sinks[k]);
  }

  lemma DropMakesGone(s: State, k: SinkId)
    requires Inv(s) && Enabled(s, DropSink) && s.registry[0] == k && k !in s.outlived && k in s.sinks
    ensures var b := Apply(s, DropSink);
            k in b.sinks && if ClientHolds(s, k) then b.sinks == s.sinks && ClientHolds(b, k) else Gone(b, k)
  {
    hide Apply;
    DropDecides(s);
    SinksOnlyGrow(s, DropSink);
  }

  lemma RegisteredIsNotOutlived(s: State, k: SinkId)
    requires OutlivedOk(s) && Enabled(s, DropSink) && s.registry[0] == k
    ensures k !in s.outlived
  {
    FirstIsRegistered(s);
  }

  // A busy sink that the registry lets go of, on the way to either end, is drained at the end of every
  // continuation if and only if no client holds it at that moment.
  lemma DrainedExactly(ls: seq<Label>, s: State, k: SinkId)
    requires Run(ls) == Some(s) && DropsBusy(s, k)
    ensures AlwaysDrained(ls + [DropSink], k) <==> !ClientHolds(s, k)
  {
    hide Enabled, Apply, ClientHolds, Inv, Gone, OutlivedOk;
    var after := ls + [DropSink];
    assert after[..|after| - 1] == ls;
    ReachableOutlived(ls, s);
    RegisteredIsNotOutlived(s, k);
    DroppedExists(s, k);
    DropMakesGone(s, k);
    var b := Apply(s, DropSink);
    if ClientHolds(s, k) {
      var more, s' := EndsWithoutWaiting(after, b, k);
      assert !DrainedAfter(after + more, k);
    } else {
      forall more ensures DrainedAfter(after + more, k) {
        GoneAfter(after, b, more, k);
      }
    }
  }

  lemma DroppedExists(s: State, k: SinkId)
    requires Enabled(s, DropSink) && s.registry[0] == k
    ensures k in s.sinks
  {
  }

  lemma GoneAfter(ls: seq<Label>, s: State, more: seq<Label>, k: SinkId)
    requires Run(ls) == Some(s) && Gone(s, k) && k in s.sinks
    ensures DrainedAfter(ls + more, k)
  {
    hide Gone, Drained;
    var r := Run(ls + more);
    if r.Some? && Ended(r.value) {
      StaysGone(ls, more, s, r.value, k);
      SinksStay(ls, more, s, r.value, k);
      GoneIsDrained(ls + more, r.value, k);
    }
  }

  lemma {:induction false} SinksStay(ls: seq<Label>, more: seq<Label>, s: State, s': State, k: SinkId)
    requires Run(ls) == Some(s) && Run(ls + more) == Some(s') && k in s.sinks
    ensures k in s'.sinks
    decreases |more|
  {
    hide Enabled, Apply;
    if more == [] {
      assert ls + more == ls;
    } else {
      var n := |more| - 1;
      assert (ls + more)[..|ls + more| - 1] == ls + more[..n] && (ls + more)[|ls + more| - 1] == more[n];
      var b := Run(ls + more[..n]).value;
      SinksStay(ls, more[..n], s, b, k);
      SinksOnlyGrow(b, more[n]);
    }
  }
}
