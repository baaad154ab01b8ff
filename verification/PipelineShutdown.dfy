// The two ways the pipeline ends: a fatal message that takes the process down, and ~LogWorker.
module PipelineShutdown {
  import opened Common
  import opened ActiveObject
  import opened Pipeline
  import opened PipelineSpec
  import opened PipelineOwnership
  import opened PipelineDelivery
  import opened PipelineFutures
  import opened PipelineTheorems

  // ----- Sinks the registry has let go of

  // Registered once, and no longer: a client kept it alive, or it is destroyed, or it is the one the
  // clearing thread is waiting for.
  ghost predicate LetGo(s: State, k: SinkId)
    requires k in s.sinks && OfAdd(k) in s.futures
  {
    s.futures[OfAdd(k)].Value? && k !in s.registry ==>
      k in s.outlived || s.sinks[k].life.Dead? || s.blockedOn == Some(k)
  }

  ghost predicate FlushInv(s: State) {
    && (forall k | k in s.sinks :: OfAdd(k) in s.futures && LetGo(s, k))
    && (!ClearingNow(s) && !s.stage.Discarding? ==> Unblocked(s))
  }

  lemma DeadStays(s: State, l: Label, k: SinkId)
    requires Inv(s) && Enabled(s, l) && k in s.sinks && s.sinks[k].life.Dead?
    ensures k in Apply(s, l).sinks && Apply(s, l).sinks[k].life.Dead?
  {
    hide Apply, Inv;
    if !TouchesSinks(l) {
      OthersKeepSinks(s, l);
    } else if l.DtorFree? {
      FreeLeavesDead(s, k);
    } else if l.DropSink? {
      DropLeavesDead(s, k);
    } else if l.AddSinkReturn? || l.HandleReturn? {
      ReleaseLeavesDead(s, l, k);
    } else {
      OthersLeaveDead(s, l, k);
    }
  }

  lemma FreeLeavesDead(s: State, k: SinkId)
    requires Inv(s) && Enabled(s, DtorFree) && k in s.sinks && s.sinks[k].life.Dead?
    ensures k in Apply(s, DtorFree).sinks && Apply(s, DtorFree).sinks[k].life.Dead?
  {
    hide Unblocked;
    assert SinkOk(s, k);
    var t := s.stage.doomed[0];
    assert t in s.stage.doomed;
    assert t != Call(AddSink(k));
  }

  lemma DropLeavesDead(s: State, k: SinkId)
    requires Inv(s) && Enabled(s, DropSink) && k in s.sinks && s.sinks[k].life.Dead?
    ensures k in Apply(s, DropSink).sinks && Apply(s, DropSink).sinks[k].life.Dead?
  {
    hide Unblocked, ClearingNow;
    assert SinkOk(s, k);
    assert s.registry[0] in s.registry;
    assert k != s.registry[0];
  }

  lemma ReleaseLeavesDead(s: State, l: Label, k: SinkId)
    requires Inv(s) && Enabled(s, l) && (l.AddSinkReturn? || l.HandleReturn?) && k in s.sinks && s.sinks[k].life.Dead?
    ensures k in Apply(s, l).sinks && Apply(s, l).sinks[k].life.Dead?
  {
    assert SinkOk(s, k);
    assert ClientHolds(s, l.sink);
    assert k != l.sink;
  }

  lemma OthersLeaveDead(s: State, l: Label, k: SinkId)
    requires Enabled(s, l) && k in s.sinks && s.sinks[k].life.Dead?
    requires TouchesSinks(l) && !l.DtorFree? && !l.DropSink? && !l.AddSinkReturn? && !l.HandleReturn?
    ensures k in Apply(s, l).sinks && Apply(s, l).sinks[k].life.Dead?
  {
    hide Strong, WorkerReachable;
  }

  predicate Clears(l: Label) {
    l.WorkerPop? || l.DropSink? || l.DtorJoin? || l.DtorFree? || l.DtorDiscarded? || l.WorkerAdded?
  }

  lemma RegistryKept(s: State, l: Label)
    requires Enabled(s, l) && !Clears(l)
    ensures Apply(s, l).registry == s.registry && Apply(s, l).blockedOn == s.blockedOn
    ensures Apply(s, l).outlived == s.outlived
  {
  }

  lemma LetGoStep(s: State, l: Label, k: SinkId)
    requires Inv(s) && FlushInv(s) && Enabled(s, l) && k in s.sinks
    ensures k in Apply(s, l).sinks && OfAdd(k) in Apply(s, l).futures && LetGo(Apply(s, l), k)
  {
    hide Apply, Enabled, SinksOk, RegistryOk, Unblocked, ClearingNow;
    AddFutureChange(s, l, k);
    SinksOnlyGrow(s, l);
    if s.sinks[k].life.Dead? {
      DeadStays(s, l, k);
    } else if !Clears(l) {
      RegistryKept(s, l);
    } else {
      ClearsLetGo(s, l, k);
    }
  }

  predicate Forgets(l: Label) {
    l.WorkerPop? || l.DtorJoin? || l.DtorDiscarded?
  }

  // A step that forgets what was waited for is taken when the wait is over.
  lemma ForgetsOnlyTheDead(s: State, l: Label)
    requires JobsOk(s) && FlushInv(s) && Enabled(s, l) && Forgets(l)
    ensures Unblocked(s)
  {
    hide LetGo, History, AddedOnce;
  }

  lemma ForgetChange(s: State, l: Label)
    requires Enabled(s, l) && Forgets(l)
    ensures Apply(s, l).blockedOn.None?
    ensures Apply(s, l).registry == s.registry && Apply(s, l).outlived == s.outlived
    ensures Apply(s, l).sinks == s.sinks && Apply(s, l).futures == s.futures
  {
    hide Released;
  }

  lemma FreeChange(s: State)
    requires Enabled(s, DtorFree)
    ensures var s' := Apply(s, DtorFree);
            && s'.registry == s.registry && s'.outlived == s.outlived && s'.futures == s.futures
            && s'.stage.Discarding? && Unblocked(s)
  {
  }

  lemma DropChange(s: State)
    requires Enabled(s, DropSink)
    ensures var s', k := Apply(s, DropSink), s.registry[0];
            && s'.registry == s.registry[1..] && s'.futures == s.futures && Unblocked(s)
            && (s'.blockedOn == Some(k) || k in s'.outlived) && s.outlived <= s'.outlived
            && s'.stage == s.stage && s'.worker == s.worker && s'.progress == s.progress
  {
    hide Strong;
  }

  lemma AddedChange(s: State)
    requires Enabled(s, WorkerAdded)
    ensures var s', k := Apply(s, WorkerAdded), s.worker.hand.value.job.sink;
            && s'.registry == s.registry + [k] && s'.futures == s.futures[OfAdd(k) := Value]
            && s'.blockedOn == s.blockedOn && s'.outlived == s.outlived && s'.sinks == s.sinks
  {
  }

  // A step that lets go of a sink says so; one that forgets what it was blocked on was not blocked.
  lemma ClearsLetGo(s: State, l: Label, k: SinkId)
    requires Inv(s) && FlushInv(s) && Enabled(s, l) && Clears(l) && k in s.sinks && !s.sinks[k].life.Dead?
    requires k in Apply(s, l).sinks && OfAdd(k) in Apply(s, l).futures
    ensures LetGo(Apply(s, l), k)
  {
    hide Apply, Enabled, SinksOk, JobsOk;
    assert OfAdd(k) in s.futures && LetGo(s, k);
    if Forgets(l) {
      ForgetsOnlyTheDead(s, l);
      ForgetChange(s, l);
    } else if l.DtorFree? {
      FreeChange(s);
    } else if l.DropSink? {
      DropChange(s);
    } else {
      AddedChange(s);
    }
  }

  lemma UnblockedStep(s: State, l: Label)
    requires Inv(s) && FlushInv(s) && Enabled(s, l)
    ensures !ClearingNow(Apply(s, l)) && !Apply(s, l).stage.Discarding? ==> Unblocked(Apply(s, l))
  {
    hide Apply, Enabled, Inv, FlushInv;
    if Forgets(l) {
      ForgetChange(s, l);
    } else if l.DtorFree? {
      FreeChange(s);
    } else if l.DropSink? {
      ClearingGoesOnDropping(s);
    } else {
      if l.WorkerAdded? {
        AddedChange(s);
      } else {
        RegistryKept(s, l);
      }
      if Unblocked(s) {
        UnblockedStays(s, l);
      } else {
        ClearingGoesOnBlocked(s, l);
      }
    }
  }

  lemma ClearingGoesOnDropping(s: State)
    requires Enabled(s, DropSink)
    ensures ClearingNow(Apply(s, DropSink))
  {
    hide Apply;
    DropChange(s);
  }

  lemma UnblockedStays(s: State, l: Label)
    requires Inv(s) && Enabled(s, l) && Unblocked(s) && Apply(s, l).blockedOn == s.blockedOn
    ensures Unblocked(Apply(s, l))
  {
    hide Apply, Enabled;
    if s.blockedOn.Some? {
      DeadStays(s, l, s.blockedOn.value);
    }
  }

  // Whoever is inside a sink's destructor stays in the loop that led there.
  lemma ClearingGoesOnBlocked(s: State, l: Label)
    requires FlushInv(s) && Enabled(s, l) && !Unblocked(s) && !l.DropSink? && !Forgets(l)
    ensures ClearingNow(Apply(s, l)) || Apply(s, l).stage.Discarding?
  {
    hide LetGo, Strong;
    StageChange(s, l);
  }

  lemma {:induction false} ReachableFlush(ls: seq<Label>, s: State)
    requires Run(ls) == Some(s)
    ensures Inv(s) && FlushInv(s)
    decreases |ls|
  {
    ReachableInv(ls, s);
    if ls != [] {
      var b, l := Run(ls[..|ls| - 1]).value, ls[|ls| - 1];
      ReachableFlush(ls[..|ls| - 1], b);
      UnblockedStep(b, l);
      SinksOnlyGrow(b, l);
      forall k | k in s.sinks ensures OfAdd(k) in s.futures && LetGo(s, k) {
        if k in b.sinks {
          LetGoStep(b, l, k);
        } else {
          AddFutureChange(b, l, k);
        }
      }
    }
  }

  lemma {:induction false} RegisteredWasAdded(ts: seq<WorkerTask>, k: SinkId)
    requires k in RegistryAfter(ts)
    ensures Call(AddSink(k)) in ts
    decreases |ts|
  {
    var n := |ts| - 1;
    if ts[n] != Call(AddSink(k)) {
      RegisteredWasAdded(ts[..n], k);
    }
  }

  // A sink the worker once registered is gone for good when the registry is: unless a client thread
  // still held it at that moment, everything sent to it has been executed.
  lemma RegisteredSinkIsDrained(ls: seq<Label>, s: State, k: SinkId)
    requires Run(ls) == Some(s) && Call(AddSink(k)) in s.worker.executed
    requires s.registry == [] && Unblocked(s) && k !in s.outlived
    ensures k in s.sinks && s.sinks[k].life.Dead?
    ensures LogMessages(s.sinks[k].active.executed) == LogMessages(Sent(s.sinks[k].active))
  {
    ReachableFlush(ls, s);
    assert Call(AddSink(k)) in History(s);
    AddFutureIsWhereItsJobIs(ls, s, k);
    assert LetGo(s, k);
    DestroyedSinkIsDrained(ls, s, k);
  }

  // ----- The fatal message

  // When bgFatal ends the process, the fatal job is the last one the worker ever took, nothing queued
  // behind it (another fatal included) runs, and no step of any thread is possible any more.
  lemma FatalIsTheLastJob(ls: seq<Label>, s: State)
    requires Run(ls) == Some(s) && s.exited
    ensures FatalInHand(s)
    ensures forall t | t in s.worker.executed :: Runs(t)
    ensures JobsSent(ls) == s.worker.executed + [s.worker.hand.value] + s.worker.queue
    ensures forall l :: !Enabled(s, l)
  {
    ReachableDelivery(ls, s);
    HandIsOpen(s, RegistryAfter(s.worker.executed), Orphans(s.worker.executed));
    assert s.discarded == [];
    assert History(s) == Sent(s.worker) + [];
  }

  // Every sink registered when the fatal job began has by then executed all that was owed to it and
  // the fatal message last, unless a client thread still held that sink when the worker let go of it.
  lemma FatalIsTheLastMessage(ls: seq<Label>, s: State, k: SinkId)
    requires Run(ls) == Some(s) && s.exited
    requires k in RegistryAfter(s.worker.executed) && k !in s.outlived
    ensures k in s.sinks && s.sinks[k].life.Dead?
    ensures FatalInHand(s)
    ensures LogMessages(s.sinks[k].active.executed) ==
            Slice(Absent, s.worker.executed, k) + [FatalReport(s.worker.hand.value.job.msg)]
  {
    ReachableDelivery(ls, s);
    RegisteredWasAdded(s.worker.executed, k);
    ExitedIsUnblocked(ls, s);
    RegisteredSinkIsDrained(ls, s, k);
    ExitedGift(s, RegistryAfter(s.worker.executed), Orphans(s.worker.executed), k);
    assert Received(s, k);
  }

  lemma {:induction false} FatalJobWasCalled(ls: seq<Label>, m: Message)
    requires Call(Fatal(m)) in JobsSent(ls)
    ensures FatalCall(m) in ls
    decreases |ls|
  {
    var n := |ls| - 1;
    if Call(Fatal(m)) in JobsSent(ls[..n]) {
      FatalJobWasCalled(ls[..n], m);
    } else {
      assert ls[n] == FatalCall(m);
    }
  }

  // The last message of such a sink is the one that some thread raised: same level, same text, with the
  // closing lines.
  lemma FatalMessageArrivesWhole(ls: seq<Label>, s: State, k: SinkId) returns (m: Message)
    requires Run(ls) == Some(s) && s.exited
    requires k in RegistryAfter(s.worker.executed) && k !in s.outlived
    ensures FatalCall(m) in ls && k in s.sinks
    ensures var got := LogMessages(s.sinks[k].active.executed);
            got != [] && got[|got| - 1] == Message(m.level, m.text, true)
  {
    hide LogMessages, Slice, RegistryAfter, Run;
    FatalIsTheLastMessage(ls, s, k);
    FatalIsTheLastJob(ls, s);
    m := s.worker.hand.value.job.msg;
    assert s.worker.hand.value in JobsSent(ls);
    FatalJobWasCalled(ls, m);
  }

  // Whoever holds it, every registered sink has been sent all that was owed to it, the fatal message
  // last. Whether it has also executed it by then is decided in PipelineFlush.
  lemma FatalIsSent(ls: seq<Label>, s: State, k: SinkId)
    requires Run(ls) == Some(s) && s.exited && k in RegistryAfter(s.worker.executed)
    ensures k in s.sinks && FatalInHand(s)
    ensures LogMessages(Sent(s.sinks[k].active)) ==
            Slice(Absent, s.worker.executed, k) + [FatalReport(s.worker.hand.value.job.msg)]
  {
    hide RegistryAfter, Slice, LogMessages, Run, SinksOk, RegistryOk;
    ReachableDelivery(ls, s);
    RegisteredWasAdded(s.worker.executed, k);
    assert Call(AddSink(k)) in History(s);
    ExitedGift(s, RegistryAfter(s.worker.executed), Orphans(s.worker.executed), k);
    assert Received(s, k);
  }

  lemma ExecutedAndRest(a: Active<SinkJob>)
    ensures LogMessages(Sent(a)) == LogMessages(a.executed) + LogMessages(InHand(a) + a.queue)
  {
    assert Sent(a) == a.executed + (InHand(a) + a.queue);
    LogMessagesConcat(a.executed, InHand(a) + a.queue);
  }

  lemma ExitedGift(s: State, r: seq<SinkId>, o: seq<Message>, k: SinkId)
    requires WorkerShape(s, r, o) && s.exited && k in r
    ensures FatalInHand(s) && s.registry == []
    ensures GivenFrom(s, r, k) == [FatalReport(s.worker.hand.value.job.msg)]
  {
  }

  lemma {:induction false} ExitedIsUnblocked(ls: seq<Label>, s: State)
    requires Run(ls) == Some(s) && s.exited
    ensures Unblocked(s)
  {
    assert ls != [];
    var b := Run(ls[..|ls| - 1]).value;
    assert !b.exited;
    OnlyExitExits(b, ls[|ls| - 1]);
  }

  lemma OnlyExitExits(s: State, l: Label)
    requires Enabled(s, l) && Apply(s, l).exited
    ensures l.WorkerExit?
  {
  }

  // ----- The destructor

  // After ~LogWorker every job sent before the stop request has run: its message is in every sink that
  // was registered at that point, or on stderr if there was none. What was sent behind it never ran.
  lemma ShutdownConservation(ls: seq<Label>, s: State)
    requires Run(ls) == Some(s) && s.stage.Finished?
    ensures var e := s.worker.executed;
            && JobsSent(ls) == e + s.discarded
            && e != [] && e[|e| - 1].Done? && (forall t | t in e[..|e| - 1] :: Runs(t))
            && s.reported == Orphans(e)
    ensures forall k | Call(AddSink(k)) in s.worker.executed && k !in s.outlived ::
              && k in s.sinks && s.sinks[k].life.Dead?
              && LogMessages(s.sinks[k].active.executed) == Slice(Absent, s.worker.executed, k)
  {
    ReachableDelivery(ls, s);
    var e := s.worker.executed;
    assert s.worker.queue == [] && s.worker.hand.None?;
    assert Sent(s.worker) == e;
    forall t | t in e[..|e| - 1] ensures Runs(t) {
      assert t in e;
    }
    FinishedIsEmpty(ls, s);
    forall k | Call(AddSink(k)) in e && k !in s.outlived
      ensures k in s.sinks && s.sinks[k].life.Dead? && LogMessages(s.sinks[k].active.executed) == Slice(Absent, e, k)
    {
      RegisteredSinkIsDrained(ls, s, k);
      assert Received(s, k);
      NothingGivenWithoutHand(s, RegistryAfter(e), k);
    }
  }

  lemma {:induction false} FinishedIsEmpty(ls: seq<Label>, s: State)
    requires Run(ls) == Some(s) && s.stage.Finished?
    ensures s.registry == [] && Unblocked(s)
    decreases |ls|
  {
    hide Apply, Enabled, RegistryOk, SinksOk, LetGo;
    assert ls != [];
    var b, l := Run(ls[..|ls| - 1]).value, ls[|ls| - 1];
    ReachableFlush(ls, s);
    if b.stage.Finished? {
      FinishedIsEmpty(ls[..|ls| - 1], b);
      ReachableInv(ls[..|ls| - 1], b);
      FinishedKeepsRegistry(b, l);
    } else {
      FinishesEmpty(b, l);
    }
  }

  lemma FinishesEmpty(s: State, l: Label)
    requires Enabled(s, l) && !s.stage.Finished? && Apply(s, l).stage.Finished?
    ensures Apply(s, l).registry == []
  {
    StageChange(s, l);
  }

  lemma FinishedKeepsRegistry(s: State, l: Label)
    requires Valid(s.worker) && StageOk(s) && s.stage.Finished? && Enabled(s, l)
    ensures Apply(s, l).registry == s.registry
  {
    hide Apply;
    if !Clears(l) {
      RegistryKept(s, l);
    }
  }

  // The same, job by job: a saved message goes to each sink registered at its turn, once, in place,
  // and to no other; and it is reported on stderr exactly when there is none.
  lemma SavedMessageIsAccountedFor(e: seq<WorkerTask>, i: nat, m: Message, k: SinkId)
    requires i < |e| && e[i] == Call(Save(m)) && forall t | t in e[..i] :: Runs(t)
    ensures var mine := if k in RegistryAfter(e[..i]) then [m] else [];
            Slice(Absent, e, k) == Slice(Absent, e[..i], k) + mine + Slice(StandingAfter(Absent, e[..i + 1], k), e[i + 1..], k)
    ensures Orphans(e[..i + 1]) == Orphans(e[..i]) + if RegistryAfter(e[..i]) == [] then [m] else []
  {
    var a, b := e[..i], e[i + 1..];
    assert e == a + [e[i]] + b && e[..i + 1] == a + [e[i]];
    SliceSnoc(Absent, a, e[i], k);
    SliceConcat(Absent, a + [e[i]], b, k);
    PresentIffRegistered(a, k);
    RegistrySnoc(a, e[i]);
  }
}
