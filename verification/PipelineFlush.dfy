// When the fatal exit flushes a sink: exactly when no client holds it as the worker lets go of it.
module PipelineFlush {
  import opened Common
  import opened ActiveObject
  import opened Pipeline
  import opened PipelineSpec
  import opened PipelineOwnership
  import opened PipelineDelivery
  import opened PipelineFutures
  import opened PipelineTheorems
  import opened PipelineShutdown
  import opened PipelineProgress

  // ----- Sinks that outlived the registry

  // They were registered, and are not any more.
  ghost predicate OutlivedOk(s: State) {
    forall k | k in s.outlived :: k !in s.registry && OfAdd(k) in s.futures && s.futures[OfAdd(k)].Value?
  }

  lemma OutlivedStep(s: State, l: Label)
    requires Inv(s) && FuturesInv(s) && OutlivedOk(s) && Enabled(s, l)
    ensures OutlivedOk(Apply(s, l))
  {
    hide Apply, Enabled, FuturesInv;
    var s' := Apply(s, l);
    forall k | k in s'.outlived
      ensures k !in s'.registry && OfAdd(k) in s'.futures && s'.futures[OfAdd(k)].Value?
    {
      if k in s.outlived {
        ResolvedIsFinal(s, l, OfAdd(k));
        StaysUnregistered(s, l, k);
      } else {
        NewlyOutlived(s, l, k);
      }
    }
  }

  lemma StaysUnregistered(s: State, l: Label, k: SinkId)
    requires Inv(s) && Enabled(s, l) && k !in s.registry && OfAdd(k) in s.futures && s.futures[OfAdd(k)].Value?
    ensures k !in Apply(s, l).registry
  {
    hide Apply, RegistryOk, JobsOk;
    if !Clears(l) {
      RegistryKept(s, l);
    } else if Forgets(l) {
      ForgetChange(s, l);
    } else if l.DtorFree? {
      FreeChange(s);
    } else if l.DropSink? {
      DropChange(s);
    } else {
      AddedChange(s);
      AddedWasPending(s);
    }
  }

  lemma AddedWasPending(s: State)
    requires Inv(s) && Enabled(s, WorkerAdded)
    ensures var f := OfAdd(s.worker.hand.value.job.sink); f in s.futures && s.futures[f].Pending?
  {
    var k := s.worker.hand.value.job.sink;
    assert Call(AddSink(k)) in History(s);
    assert SinkOk(s, k) && JobHolds(s, k);
  }

  // Only the worker letting go of a held sink makes it outlive the registry.
  lemma NewlyOutlived(s: State, l: Label, k: SinkId)
    requires Inv(s) && Enabled(s, l) && k in Apply(s, l).outlived && k !in s.outlived
    ensures l.DropSink? && s.registry[0] == k && ClientHolds(s, k)
    ensures k !in Apply(s, l).registry && OfAdd(k) in Apply(s, l).futures && Apply(s, l).futures[OfAdd(k)].Value?
  {
    hide Apply;
    if !Clears(l) {
      RegistryKept(s, l);
    } else if Forgets(l) {
      ForgetChange(s, l);
    } else if l.DtorFree? {
      FreeChange(s);
    } else if l.DropSink? {
      DropChange(s);
      DropDecides(s);
    } else {
      AddedChange(s);
    }
  }

  // The worker lets go of the first registered sink: it lives on exactly when a client holds it.
  lemma DropDecides(s: State)
    requires Inv(s) && Enabled(s, DropSink)
    ensures var s', k := Apply(s, DropSink), s.registry[0];
            && k !in s'.registry && OfAdd(k) in s'.futures && s'.futures[OfAdd(k)].Value?
            && s'.outlived == s.outlived + (if ClientHolds(s, k) then {k} else {})
            && (ClientHolds(s, k) ==> s'.sinks == s.sinks)
  {
    var k := s.registry[0];
    assert k in s.registry && SinkOk(s, k);
    assert k !in s.registry[1..] && !JobHolds(s, k);
  }

  lemma {:induction false} ReachableOutlived(ls: seq<Label>, s: State)
    requires Run(ls) == Some(s)
    ensures Inv(s) && OutlivedOk(s)
    decreases |ls|
  {
    ReachableInv(ls, s);
    if ls != [] {
      var b := Run(ls[..|ls| - 1]).value;
      ReachableOutlived(ls[..|ls| - 1], b);
      ReachableFutures(ls[..|ls| - 1], b);
      OutlivedStep(b, ls[|ls| - 1]);
    }
  }

  // ----- While the worker clears the registry for the fatal exit

  predicate Exiting(s: State) {
    FatalInHand(s) && s.progress.Clearing?
  }

  lemma ExitingStays(s: State, l: Label)
    requires JobsOk(s) && Enabled(s, l) && Exiting(s)
    ensures Exiting(Apply(s, l)) && Apply(s, l).worker.executed == s.worker.executed
    ensures !l.WorkerAdded?
  {
    hide Apply, History, AddedOnce;
    FatalHandTakesNoOther(s, l);
    if TouchesWorker(l) {
      WorkerMoves(s, l);
    } else {
      OthersKeepWorker(s, l);
    }
    ClearingKept(s, l);
  }

  lemma FatalHandTakesNoOther(s: State, l: Label)
    requires JobsOk(s) && Enabled(s, l) && Exiting(s)
    ensures !Returning(l) && !l.WorkerPop? && !l.DtorJoin? && !l.WorkerSend?
  {
    hide History, AddedOnce, Strong, Unblocked;
  }

  lemma ClearingKept(s: State, l: Label)
    requires Enabled(s, l) && !l.WorkerPop? && !l.WorkerSend?
    ensures s.progress.Clearing? ==> Apply(s, l).progress.Clearing?
  {
    hide Released, Free, Strong, Unblocked, WorkerReachable, Resolved;
  }

  // A sink that went with the registry stays gone with it.
  lemma {:induction false} NeverOutlives(ls: seq<Label>, more: seq<Label>, s: State, s': State, k: SinkId)
    requires Run(ls) == Some(s) && Run(ls + more) == Some(s')
    requires Exiting(s) && k !in s.registry && k !in s.outlived
    ensures Exiting(s') && k !in s'.registry && k !in s'.outlived && s'.worker.executed == s.worker.executed
    decreases |more|
  {
    hide Enabled, Apply, Exiting, Inv;
    if more == [] {
      assert ls + more == ls;
    } else {
      var n := |more| - 1;
      assert (ls + more)[..|ls + more| - 1] == ls + more[..n] && (ls + more)[|ls + more| - 1] == more[n];
      var b := Run(ls + more[..n]).value;
      NeverOutlives(ls, more[..n], s, b, k);
      ReachableInv(ls + more[..n], b);
      NeverOutlivesStep(b, more[n], k);
    }
  }

  lemma NeverOutlivesStep(s: State, l: Label, k: SinkId)
    requires Inv(s) && Enabled(s, l) && Exiting(s) && k !in s.registry && k !in s.outlived
    ensures var s' := Apply(s, l);
            Exiting(s') && k !in s'.registry && k !in s'.outlived && s'.worker.executed == s.worker.executed
  {
    hide Apply;
    ExitingStays(s, l);
    if k in Apply(s, l).outlived {
      NewlyOutlived(s, l, k);
    }
    if !Clears(l) {
      RegistryKept(s, l);
    } else if Forgets(l) {
      ForgetChange(s, l);
    } else if l.DtorFree? {
      FreeChange(s);
    } else {
      DropChange(s);
    }
  }

  // ----- The worker does not wait for a held sink

  // The next step on the way to the exit that leaves sink k alone.
  lemma NextToExit(s: State, k: SinkId) returns (l: Label)
    requires Inv(s) && Exiting(s) && !s.exited && k in s.sinks && ClientHolds(s, k)
    ensures Enabled(s, l) && !Starts(l)
    ensures var s' := Apply(s, l); k in s'.sinks && s'.sinks[k] == s.sinks[k]
  {
    hide Apply;
    assert SinkOk(s, k) && s.sinks[k].life.Live?;
    if !Unblocked(s) {
      var j := s.blockedOn.value;
      assert SinkOk(s, j) && j != k;
      var a := s.sinks[j].active;
      l := if a.hand.Some? then SinkReturn(j) else if a.done then SinkReap(j) else SinkPop(j);
      OtherSinkUntouched(s, l, k);
    } else if s.registry != [] {
      assert s.registry[0] in s.registry;
      l := DropSink;
      DropUntouched(s, k);
    } else {
      l := WorkerExit;
      OthersKeepSinks(s, l);
    }
  }

  lemma OtherSinkUntouched(s: State, l: Label, k: SinkId)
    requires Enabled(s, l) && k in s.sinks && (l.SinkPop? || l.SinkReturn? || l.SinkReap?) && l.sink != k
    ensures k in Apply(s, l).sinks && Apply(s, l).sinks[k] == s.sinks[k]
  {
  }

  lemma DropUntouched(s: State, k: SinkId)
    requires Inv(s) && Enabled(s, DropSink) && k in s.sinks && ClientHolds(s, k)
    ensures k in Apply(s, DropSink).sinks && Apply(s, DropSink).sinks[k] == s.sinks[k]
  {
    if s.registry[0] == k {
      DropDecides(s);
    }
  }

  // From every reachable state on the way to the fatal exit, while a client holds sink k, the process
  // can exit without sink k taking another step.
  lemma {:induction false} ExitsWithoutWaiting(ls: seq<Label>, s: State, k: SinkId) returns (more: seq<Label>, s': State)
    requires Run(ls) == Some(s) && Exiting(s) && !s.exited && k in s.sinks && ClientHolds(s, k)
    ensures Run(ls + more) == Some(s') && s'.exited
    ensures k in s'.sinks && s'.sinks[k] == s.sinks[k] && s'.worker.executed == s.worker.executed
    decreases Work(s)
  {
    hide Enabled, Apply, Inv, Exiting, Work;
    ReachableInv(ls, s);
    var l := NextToExit(s, k);
    var b := Apply(s, l);
    assert (ls + [l])[..|ls + [l]| - 1] == ls;
    assert Run(ls + [l]) == Some(b);
    ExitingStep(s, l);
    if b.exited {
      more, s' := [l], b;
    } else {
      WorkDecreases(s, l);
      more, s' := ExitsWithoutWaiting(ls + [l], b, k);
      assert ls + [l] + more == ls + ([l] + more);
      more := [l] + more;
    }
  }

  lemma ExitingStep(s: State, l: Label)
    requires Inv(s) && Enabled(s, l) && Exiting(s)
    ensures Exiting(Apply(s, l)) && Apply(s, l).worker.executed == s.worker.executed
  {
    ExitingStays(s, l);
  }

  // ----- The exact condition

  // Sink k has executed everything owed to it, the fatal message last.
  ghost predicate Flushed(s: State, k: SinkId)
    requires FatalInHand(s)
  {
    k in s.sinks &&
    LogMessages(s.sinks[k].active.executed) ==
    Slice(Absent, s.worker.executed, k) + [FatalReport(s.worker.hand.value.job.msg)]
  }

  // Whatever happens after ls, when the process exits sink k has been flushed.
  ghost predicate AlwaysFlushed(ls: seq<Label>, k: SinkId) {
    forall more :: FlushedAfter(ls + more, k)
  }

  ghost predicate FlushedAfter(ls: seq<Label>, k: SinkId) {
    var r := Run(ls);
    r.Some? && r.value.exited ==> FatalInHand(r.value) && Flushed(r.value, k)
  }

  // The worker, on its way to the fatal exit, lets go of sink k while messages are still waiting there.
  ghost predicate LetsGoOfBusy(s: State, k: SinkId) {
    && Exiting(s) && Enabled(s, DropSink) && s.registry[0] == k
    && k in s.sinks && LogMessages(InHand(s.sinks[k].active) + s.sinks[k].active.queue) != []
  }

  // Such a sink is flushed in every continuation if and only if no client holds it at that moment.
  lemma FlushedExactly(ls: seq<Label>, s: State, k: SinkId)
    requires Run(ls) == Some(s) && LetsGoOfBusy(s, k)
    ensures AlwaysFlushed(ls + [DropSink], k) <==> !ClientHolds(s, k)
  {
    hide Enabled, Apply, LogMessages, Exiting, ClientHolds, Inv;
    assert (ls + [DropSink])[..|ls + [DropSink]| - 1] == ls;
    ReachableOutlived(ls, s);
    DropLeads(s);
    var b := Apply(s, DropSink);
    assert Run(ls + [DropSink]) == Some(b);
    RegisteredInHistory(ls, s, k);
    if ClientHolds(s, k) {
      HeldIsMissed(ls + [DropSink], b, k);
    } else {
      forall more ensures FlushedAfter(ls + [DropSink] + more, k) {
        ReleasedIsFlushed(ls + [DropSink], b, more, k);
      }
    }
  }

  lemma DropLeads(s: State)
    requires Inv(s) && OutlivedOk(s) && Exiting(s) && Enabled(s, DropSink)
    ensures var b, k := Apply(s, DropSink), s.registry[0];
            && Exiting(b) && !b.exited && b.worker.executed == s.worker.executed && k in b.sinks
            && k in s.registry && k !in b.registry
            && if ClientHolds(s, k) then b.sinks == s.sinks && ClientHolds(b, k) else k !in b.outlived
  {
    hide Apply;
    assert s.registry[0] in s.registry;
    DropDecides(s);
    ExitingStays(s, DropSink);
    SinksOnlyGrow(s, DropSink);
    DropKeepsGoing(s);
  }

  lemma DropKeepsGoing(s: State)
    requires Enabled(s, DropSink)
    ensures !Apply(s, DropSink).exited
  {
    hide Strong;
  }

  lemma RegisteredInHistory(ls: seq<Label>, s: State, k: SinkId)
    requires Run(ls) == Some(s) && k in s.registry
    ensures k in RegistryAfter(s.worker.executed)
  {
    hide RegistryAfter, Received, Orphans, Run;
    ReachableDelivery(ls, s);
  }

  lemma HeldIsMissed(ls: seq<Label>, s: State, k: SinkId)
    requires Run(ls) == Some(s) && Exiting(s) && !s.exited && k in s.sinks && ClientHolds(s, k)
    requires k in RegistryAfter(s.worker.executed)
    requires LogMessages(InHand(s.sinks[k].active) + s.sinks[k].active.queue) != []
    ensures !AlwaysFlushed(ls, k)
  {
    hide LogMessages, RegistryAfter, ClientHolds, Exiting, Run;
    var more, s' := ExitsWithoutWaiting(ls, s, k);
    FatalIsSent(ls + more, s', k);
    ExecutedAndRest(s'.sinks[k].active);
    assert !FlushedAfter(ls + more, k);
  }

  lemma ReleasedIsFlushed(ls: seq<Label>, s: State, more: seq<Label>, k: SinkId)
    requires Run(ls) == Some(s) && Exiting(s) && k !in s.registry && k !in s.outlived
    requires k in RegistryAfter(s.worker.executed)
    ensures FlushedAfter(ls + more, k)
  {
    hide LogMessages, RegistryAfter, Run, Exiting;
    var r := Run(ls + more);
    if r.Some? && r.value.exited {
      NeverOutlives(ls, more, s, r.value, k);
      FatalIsTheLastMessage(ls + more, r.value, k);
    }
  }
}
