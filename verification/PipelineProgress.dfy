// The pipeline cannot get stuck and cannot run forever on its own: left to itself, under any schedule,
// it finishes all work within a bounded number of steps, and then every message has been delivered.
module PipelineProgress {
  import opened Common
  import opened ActiveObject
  import opened Pipeline
  import opened PipelineSpec
  import opened PipelineOwnership
  import opened PipelineDelivery
  import opened PipelineFutures
  import opened PipelineTheorems
  import opened PipelineShutdown

  // Steps by which some thread starts something new. Everything else is a thread carrying on.
  predicate Starts(l: Label) {
    l.SaveCall? || l.FatalCall? || l.AddSinkCall? || l.AddSinkRefused? || l.HandleLock? || l.DtorClear?
  }

  predicate SinkQuiet(x: SinkState) {
    && x.active.hand.None? && x.active.queue == []
    && !x.life.Draining? && !x.adder && x.locked == {} && x.leaving == {}
  }

  // Nobody is in the middle of anything: not a queue, not a call, not a destructor.
  predicate Quiet(s: State) {
    && s.worker.hand.None? && (s.worker.queue == [] || s.worker.done)
    && (forall k | k in s.sinks :: SinkQuiet(s.sinks[k]))
    && (s.stage.Up? || s.stage.Finished?)
  }

  // ----- Stopping

  // The stop request is in the worker's history exactly from DtorReset on.
  ghost predicate StopInv(s: State) {
    if s.stage.Up? || s.stage.Flushing? then Done !in Sent(s.worker)
    else if s.stage.Stopping? then Done in Sent(s.worker)
    else s.worker.done
  }

  lemma StopStep(s: State, l: Label)
    requires Inv(s) && StopInv(s) && Enabled(s, l)
    ensures StopInv(Apply(s, l))
  {
    hide Apply, Enabled, Inv, Sent;
    StageChange(s, l);
    if l.DtorJoin? {
      JoinMoves(s);
    } else {
      StopSent(s, l);
    }
  }

  // The stop request is sent by DtorReset alone, and a worker that is done stays so.
  lemma StopSent(s: State, l: Label)
    requires Enabled(s, l) && !l.DtorJoin?
    ensures Done in Sent(Apply(s, l).worker) <==> Done in Sent(s.worker) || l.DtorReset?
    ensures s.worker.done ==> Apply(s, l).worker.done
  {
    hide Apply, Enabled, Sent;
    if !TouchesWorker(l) {
      OthersKeepWorker(s, l);
      PushesDone(s, l);
    } else {
      WorkerMoves(s, l);
      PushesDone(s, l);
      if l.WorkerPop? {
        PopKeepsSent(s.worker);
      } else if Returning(l) {
        FinishKeepsSent(s.worker);
      } else {
        PushAddsToSent(s.worker, JobOf(l)[0]);
      }
    }
  }

  lemma PushesDone(s: State, l: Label)
    requires Enabled(s, l)
    ensures Done in JobOf(l) <==> l.DtorReset?
    ensures l.WorkerPop? ==> CanPop(s.worker)
    ensures Returning(l) ==> s.worker.hand.Some?
  {
    hide Unblocked, Strong, WorkerReachable, Resolved;
  }

  lemma {:induction false} ReachableStop(ls: seq<Label>, s: State)
    requires Run(ls) == Some(s)
    ensures Inv(s) && StopInv(s)
    decreases |ls|
  {
    ReachableInv(ls, s);
    if ls != [] {
      var b := Run(ls[..|ls| - 1]).value;
      ReachableStop(ls[..|ls| - 1], b);
      StopStep(b, ls[|ls| - 1]);
    }
  }

  // ----- Calls

  // Until the process exits no call is turned away: addSink always gets a worker or an answer, both only
  // while the destructor joins; a handle can always be called once addSink has returned it; and a message
  // can be saved as long as the worker's thread has not been joined.
  lemma CallsAreTaken(s: State, m: Message, k: SinkId, c: CallId)
    requires !s.exited
    ensures k !in s.sinks ==> Enabled(s, AddSinkCall(k)) || Enabled(s, AddSinkRefused(k))
    ensures k !in s.sinks ==> (Enabled(s, AddSinkCall(k)) && Enabled(s, AddSinkRefused(k)) <==> s.stage.Stopping?)
    ensures k in s.sinks && !s.sinks[k].adder && OfCall(k, c) !in s.futures ==> Enabled(s, HandleLock(k, c))
    ensures s.stage.Up? || s.stage.Flushing? || s.stage.Stopping? <==> Enabled(s, SaveCall(m))
    ensures Enabled(s, SaveCall(m)) <==> Enabled(s, FatalCall(m))
    ensures s.stage.Up? ==> Enabled(s, DtorClear)
  {
  }

  // ----- No deadlock

  ghost predicate CanGoOn(s: State) {
    exists l :: !Starts(l) && Enabled(s, l)
  }

  lemma DrainingSinkGoesOn(s: State, k: SinkId)
    requires Inv(s) && !s.exited && k in s.sinks && s.sinks[k].life.Draining?
    ensures CanGoOn(s)
  {
    assert SinkOk(s, k);
    var a := s.sinks[k].active;
    if a.hand.Some? {
      assert Enabled(s, SinkReturn(k));
    } else if a.done {
      assert Enabled(s, SinkReap(k));
    } else if a.queue != [] {
      assert Enabled(s, SinkPop(k));
    }
  }

  lemma BusySinkGoesOn(s: State, k: SinkId)
    requires Inv(s) && !s.exited && k in s.sinks && !SinkQuiet(s.sinks[k]) && !s.sinks[k].adder
    ensures CanGoOn(s)
  {
    assert SinkOk(s, k);
    var x := s.sinks[k];
    if x.life.Draining? {
      DrainingSinkGoesOn(s, k);
    } else if x.active.hand.Some? {
      assert Enabled(s, SinkReturn(k));
    } else if x.active.queue != [] {
      if x.active.done {
        DoneMeansDrained(x);
      } else {
        assert Enabled(s, SinkPop(k));
      }
    } else if x.locked != {} {
      var c :| c in x.locked;
      assert Enabled(s, HandleSend(k, c));
    } else {
      var c :| c in x.leaving;
      assert Enabled(s, HandleReturn(k, c));
    }
  }

  // Waiting for a sink's destructor never blocks for good: that sink can always go on.
  lemma BlockedOrGoesOn(s: State)
    requires Inv(s) && !s.exited
    ensures Unblocked(s) || CanGoOn(s)
  {
    if s.blockedOn.Some? && s.sinks[s.blockedOn.value].life.Draining? {
      DrainingSinkGoesOn(s, s.blockedOn.value);
    }
  }

  lemma ClearingGoesOn(s: State)
    requires Inv(s) && !s.exited && ClearingNow(s)
    ensures CanGoOn(s)
  {
    BlockedOrGoesOn(s);
    if s.registry != [] {
      assert s.registry[0] in s.registry;
      assert Unblocked(s) ==> Enabled(s, DropSink);
    } else if s.stage.Members? {
      assert Unblocked(s) ==> Enabled(s, DtorEnd);
    } else if FatalInHand(s) {
      assert Unblocked(s) ==> Enabled(s, WorkerExit);
    } else {
      assert Unblocked(s) ==> Enabled(s, WorkerCleared);
    }
  }

  lemma FanOutGoesOn(s: State)
    requires Inv(s) && !s.exited && (SaveInHand(s) || FatalInHand(s))
    requires s.progress.FanOut? && s.progress.next <= |s.registry|
    ensures CanGoOn(s)
  {
    if s.progress.next < |s.registry| {
      assert s.registry[s.progress.next] in s.registry;
      assert Enabled(s, WorkerSend);
    } else if SaveInHand(s) {
      assert Enabled(s, WorkerSaved);
    } else {
      assert Enabled(s, WorkerFlush);
    }
  }

  lemma BusyWorkerGoesOn(s: State, r: seq<SinkId>, o: seq<Message>)
    requires Inv(s) && WorkerShape(s, r, o) && !s.exited && s.worker.hand.Some?
    ensures CanGoOn(s)
  {
    hide Apply, SinkOk, History;
    if s.worker.hand == Some(Done) {
      assert Enabled(s, WorkerDone);
    } else if AddInHand(s) {
      assert Enabled(s, WorkerAdded);
    } else if ClearingNow(s) {
      ClearingGoesOn(s);
    } else {
      HandIsFanOut(s, r, o);
      FanOutGoesOn(s);
    }
  }

  lemma HandIsFanOut(s: State, r: seq<SinkId>, o: seq<Message>)
    requires WorkerShape(s, r, o) && s.worker.hand.Some?
    requires s.worker.hand != Some(Done) && !AddInHand(s) && !ClearingNow(s)
    ensures SaveInHand(s) || FatalInHand(s)
    ensures s.progress.FanOut? && s.progress.next <= |s.registry|
  {
    match s.worker.hand.value
    case Done =>
    case Call(job) =>
      assert job.Save? || job.Fatal? || job.AddSink? || job.ClearSinks?;
  }

  // addSink's wait ends: while its job is in the worker's queue the worker, or the join that destroys
  // the queue, can go on.
  lemma WaitingAdderGoesOn(s: State, k: SinkId)
    requires Inv(s) && StopInv(s) && AddFutures(s) && !s.exited && k in s.sinks && s.sinks[k].adder
    requires s.worker.hand.None?
    ensures CanGoOn(s)
  {
    assert AddFuture(s, k);
    if Resolved(s.futures[OfAdd(k)]) {
      assert Enabled(s, AddSinkReturn(k));
    } else if s.stage.Discarding? {
      DiscardingGoesOn(s);
    } else if s.worker.done {
      assert s.stage.Stopping?;
      assert Enabled(s, DtorJoin);
    } else {
      assert Enabled(s, WorkerPop);
    }
  }

  lemma DiscardingGoesOn(s: State)
    requires Inv(s) && !s.exited && s.stage.Discarding?
    ensures CanGoOn(s)
  {
    BlockedOrGoesOn(s);
    if s.stage.doomed == [] {
      assert Unblocked(s) ==> Enabled(s, DtorDiscarded);
    } else if s.stage.broken {
      assert Unblocked(s) ==> Enabled(s, DtorFree);
    } else {
      assert Unblocked(s) ==> Enabled(s, DtorBreak);
    }
  }

  lemma DestructorGoesOn(s: State)
    requires Inv(s) && StopInv(s) && ClearFuture(s) && !s.exited
    requires s.worker.hand.None? && (s.worker.queue == [] || s.worker.done)
    requires !s.stage.Up? && !s.stage.Finished?
    ensures CanGoOn(s)
  {
    if s.stage.Members? {
      ClearingGoesOn(s);
    } else if s.stage.Discarding? {
      DiscardingGoesOn(s);
    } else if s.stage.Stopping? {
      assert s.worker.done;
      assert Enabled(s, DtorJoin);
    } else {
      assert !s.worker.done;
      assert Enabled(s, DtorReset);
    }
  }

  // In every reachable state either all is quiet, or the process has exited, or some thread that is in
  // the middle of something can take a step: no wait in the pipeline can last forever by itself.
  lemma NoDeadlock(ls: seq<Label>, s: State)
    requires Run(ls) == Some(s) && !s.exited && !Quiet(s)
    ensures CanGoOn(s)
  {
    hide Enabled, Apply, Inv, StopInv, AddFutures, ClearFuture, CallFutures, WorkerShape, Received;
    ReachableDelivery(ls, s);
    ReachableStop(ls, s);
    ReachableFutures(ls, s);
    BusyGoesOn(s, RegistryAfter(s.worker.executed), Orphans(s.worker.executed));
  }

  lemma BusyGoesOn(s: State, r: seq<SinkId>, o: seq<Message>)
    requires Inv(s) && StopInv(s) && AddFutures(s) && ClearFuture(s) && WorkerShape(s, r, o)
    requires !s.exited && !Quiet(s)
    ensures CanGoOn(s)
  {
    hide Apply, JobsOk, RegistryOk, SinksOk, StopInv, AddFutures, ClearFuture, WorkerShape, SinkQuiet;
    if s.worker.hand.Some? {
      BusyWorkerGoesOn(s, r, o);
    } else if CanPop(s.worker) {
      assert Enabled(s, WorkerPop);
    } else if k :| k in s.sinks && !SinkQuiet(s.sinks[k]) {
      if s.sinks[k].adder {
        WaitingAdderGoesOn(s, k);
      } else {
        BusySinkGoesOn(s, k);
      }
    } else {
      DestructorGoesOn(s);
    }
  }

  // ----- Termination

  // An upper bound on the steps that can still happen around one sink without anybody starting anything:
  // two for each queued task, one for the one in hand; a live sink may yet have to take Done and die.
  function SinkWork(x: SinkState): nat {
    2 * |x.active.queue| + |InHand(x.active)| + (match x.life case Live => 4 case Draining => 1 case Dead => 0)
    + 4 * |x.locked| + |x.leaving| + (if x.adder then 1 else 0)
  }

  ghost function AllSinkWork(m: map<SinkId, SinkState>): nat
    decreases |m|
  {
    if m == map[] then 0
    else
      var k :| k in m;
      SinkWork(m[k]) + AllSinkWork(m - {k})
  }

  // A job may have to visit every sink.
  function JobWork(n: nat): nat {
    3 * n + 6
  }

  function HandWork(s: State): nat {
    var n := |s.sinks|;
    if s.worker.hand.None? then 0
    else if s.progress.Clearing? then 2
    else 3 + 3 * (if s.progress.next <= n then n - s.progress.next else 0)
  }

  function StageWork(s: State): nat {
    match s.stage
    case Flushing => JobWork(|s.sinks|) + 5
    case Stopping => 4
    case Discarding(doomed, broken) => 2 * |doomed| + (if broken then 2 else 3)
    case Members => 1
    case _ => 0
  }

  ghost function WorkBesidesQueue(s: State): nat {
    HandWork(s) + |s.registry| + AllSinkWork(s.sinks) + StageWork(s) + (if s.exited then 0 else 1)
  }

  ghost function Work(s: State): nat {
    JobWork(|s.sinks|) * |s.worker.queue| + WorkBesidesQueue(s)
  }

  lemma {:induction false} PickSink(m: map<SinkId, SinkState>, k: SinkId)
    requires k in m
    ensures AllSinkWork(m) == SinkWork(m[k]) + AllSinkWork(m - {k})
    decreases |m|
  {
    var j :| j in m && AllSinkWork(m) == SinkWork(m[j]) + AllSinkWork(m - {j});
    if j != k {
      assert m - {j} - {k} == m - {k} - {j};
      PickSink(m - {j}, k);
      PickSink(m - {k}, j);
    }
  }

  lemma ChangeSink(m: map<SinkId, SinkState>, k: SinkId, x: SinkState)
    requires k in m
    ensures AllSinkWork(m[k := x]) == AllSinkWork(m) - SinkWork(m[k]) + SinkWork(x)
    ensures |m[k := x]| == |m|
  {
    PickSink(m, k);
    PickSink(m[k := x], k);
    assert m[k := x] - {k} == m - {k};
    assert m[k := x].Keys == m.Keys;
    assert |m[k := x].Keys| == |m[k := x]|;
  }

  lemma {:induction false} DistinctFits(ks: seq<SinkId>, all: set<SinkId>)
    requires Distinct(ks) && forall k | k in ks :: k in all
    ensures |ks| <= |all|
    decreases |ks|
  {
    if ks != [] {
      DistinctFits(ks[1..], all - {ks[0]});
    }
  }

  // Which sink a step changes, if it changes one.
  predicate AtSink(l: Label) {
    l.SinkPop? || l.SinkReturn? || l.SinkReap? || l.HandleSend? || l.HandleReturn? || l.AddSinkReturn?
    || l.WorkerSend? || l.DropSink?
  }

  function SinkOf(s: State, l: Label): SinkId
    requires AtSink(l) && Enabled(s, l)
  {
    if l.WorkerSend? then s.registry[s.progress.next] else if l.DropSink? then s.registry[0] else l.sink
  }

  // What the step may take from, or add to, the work around its sink.
  function SinkGain(l: Label): int {
    if l.DropSink? then 0 else if l.WorkerSend? then 2 else -1
  }

  // Dropping a reference never adds work: a last reference turns Live (4) into Draining and Done (3).
  lemma ReleaseWork(s: State, k: SinkId)
    requires k in s.sinks && s.sinks[k].life.Live?
    ensures var s' := Released(s, k);
            s'.sinks == s.sinks[k := s'.sinks[k]] && SinkWork(s'.sinks[k]) <= SinkWork(s.sinks[k])
  {
  }

  ghost predicate SinkWorkOk(s: State, l: Label)
    requires AtSink(l) && Enabled(s, l)
  {
    var s', k := Apply(s, l), SinkOf(s, l);
    && k in s.sinks && k in s'.sinks && s'.sinks == s.sinks[k := s'.sinks[k]]
    && SinkWork(s'.sinks[k]) <= SinkWork(s.sinks[k]) + SinkGain(l)
  }

  lemma SinkThreadWork(s: State, l: Label)
    requires Enabled(s, l) && (l.SinkPop? || l.SinkReturn? || l.SinkReap? || l.WorkerSend?)
    ensures SinkWorkOk(s, l)
  {
  }

  lemma HandleSendWork(s: State, l: Label)
    requires Enabled(s, l) && l.HandleSend?
    ensures SinkWorkOk(s, l)
  {
    var x := s.sinks[l.sink];
    assert |x.locked - {l.call}| == |x.locked| - 1;
    assert |x.leaving + {l.call}| <= |x.leaving| + 1;
  }

  lemma ReleasingWork(s: State, l: Label)
    requires SinksOk(s) && RegistryOk(s) && Enabled(s, l) && (l.HandleReturn? || l.AddSinkReturn? || l.DropSink?)
    ensures SinkWorkOk(s, l)
  {
    if l.DropSink? {
      DropWork(s);
    } else if l.AddSinkReturn? {
      AddReturnWork(s, l);
    } else {
      HandleReturnWork(s, l);
    }
  }

  lemma DropWork(s: State)
    requires SinksOk(s) && RegistryOk(s) && Enabled(s, DropSink)
    ensures SinkWorkOk(s, DropSink)
  {
    var k := s.registry[0];
    assert k in s.registry && SinkOk(s, k);
    ReleaseWork(s.(registry := s.registry[1..]), k);
  }

  lemma AddReturnWork(s: State, l: Label)
    requires SinksOk(s) && Enabled(s, l) && l.AddSinkReturn?
    ensures SinkWorkOk(s, l)
  {
    var k, x := l.sink, s.sinks[l.sink];
    assert SinkOk(s, k);
    ReleaseWork(s.(sinks := s.sinks[k := x.(adder := false)]), k);
  }

  lemma HandleReturnWork(s: State, l: Label)
    requires SinksOk(s) && Enabled(s, l) && l.HandleReturn?
    ensures SinkWorkOk(s, l)
  {
    var k, x := l.sink, s.sinks[l.sink];
    assert SinkOk(s, k);
    assert |x.leaving - {l.call}| == |x.leaving| - 1;
    ReleaseWork(s.(sinks := s.sinks[k := x.(leaving := x.leaving - {l.call})]), k);
  }

  lemma RestAtSink(s: State, l: Label)
    requires Enabled(s, l) && AtSink(l)
    ensures var s' := Apply(s, l);
            && s'.worker == s.worker && s'.stage == s.stage && s'.exited == s.exited
            && |s'.registry| == |s.registry| - (if l.DropSink? then 1 else 0)
            && s'.progress == (if l.WorkerSend? then FanOut(s.progress.next + 1) else s.progress)
  {
  }

  lemma SinkStepsWork(s: State, l: Label)
    requires RegistryOk(s) && Enabled(s, l) && AtSink(l) && SinkWorkOk(s, l)
    ensures Work(Apply(s, l)) < Work(s)
  {
    var s', k := Apply(s, l), SinkOf(s, l);
    ChangeSink(s.sinks, k, s'.sinks[k]);
    RestAtSink(s, l);
    DistinctFits(s.registry, s.sinks.Keys);
    assert |s.sinks.Keys| == |s.sinks|;
    assert |s'.sinks| == |s.sinks|;
    assert HandWork(s') == HandWork(s) - (if l.WorkerSend? then 3 else 0);
  }

  lemma ReturnWork(s: State, l: Label)
    requires Enabled(s, l) && !Starts(l) && !AtSink(l)
    requires !l.WorkerPop? && !l.DtorReset? && !l.DtorJoin? && !l.DtorFree?
    ensures Apply(s, l).worker.queue == s.worker.queue
    ensures WorkBesidesQueue(Apply(s, l)) < WorkBesidesQueue(s)
  {
    OthersKeepSinks(s, l);
  }

  lemma QueueWork(s: State, l: Label)
    requires Inv(s) && Enabled(s, l) && (l.WorkerPop? || l.DtorReset?)
    ensures Work(Apply(s, l)) < Work(s)
  {
    hide Apply, Enabled, JobWork, WorkBesidesQueue;
    OthersKeepSinks(s, l);
    QueueWorkBesides(s, l);
    Product(JobWork(|s.sinks|), |s.worker.queue|, |Apply(s, l).worker.queue|);
  }

  lemma Product(job: nat, q: nat, q': nat)
    ensures q' == q - 1 ==> job * q' == job * q - job
    ensures q' == q + 1 ==> job * q' == job * q + job
    ensures job >= 6 ==> job * q >= 6 * q
  {
  }

  lemma QueueWorkBesides(s: State, l: Label)
    requires Inv(s) && Enabled(s, l) && (l.WorkerPop? || l.DtorReset?)
    ensures var s', job: int := Apply(s, l), JobWork(|s.sinks|);
            && |s'.worker.queue| as int == (if l.WorkerPop? then |s.worker.queue| - 1 else |s.worker.queue| + 1)
            && WorkBesidesQueue(s') < WorkBesidesQueue(s) + (if l.WorkerPop? then job else -job)
  {
    hide AllSinkWork;
    OthersKeepSinks(s, l);
  }

  lemma JoinWork(s: State)
    requires Inv(s) && Enabled(s, DtorJoin)
    ensures Work(Apply(s, DtorJoin)) < Work(s)
  {
    hide AllSinkWork;
    OthersKeepSinks(s, DtorJoin);
    Product(JobWork(|s.sinks|), |s.worker.queue|, 0);
  }

  lemma FreeWork(s: State)
    requires Inv(s) && Enabled(s, DtorFree)
    ensures Work(Apply(s, DtorFree)) < Work(s)
  {
    hide Inv, SinksOk;
    var s', t := Apply(s, DtorFree), s.stage.doomed[0];
    FreeKeepsTheRest(s);
    if t.Call? && t.job.AddSink? && t.job.sink in s.sinks {
      FreedSinkWork(s);
      ChangeSink(s.sinks, t.job.sink, s'.sinks[t.job.sink]);
    }
  }

  lemma FreeKeepsTheRest(s: State)
    requires Enabled(s, DtorFree)
    ensures var s', t := Apply(s, DtorFree), s.stage.doomed[0];
            && s'.worker == s.worker && s'.exited == s.exited && s'.registry == s.registry && s'.progress == s.progress
            && s'.stage == Discarding(s.stage.doomed[1..], false)
            && (!(t.Call? && t.job.AddSink? && t.job.sink in s.sinks) ==> s'.sinks == s.sinks)
  {
    hide Strong;
  }

  lemma FreedSinkWork(s: State)
    requires Inv(s) && Enabled(s, DtorFree)
    requires var t := s.stage.doomed[0]; t.Call? && t.job.AddSink? && t.job.sink in s.sinks
    ensures var s', k := Apply(s, DtorFree), s.stage.doomed[0].job.sink;
            && k in s'.sinks && s'.sinks == s.sinks[k := s'.sinks[k]] && SinkWork(s'.sinks[k]) <= SinkWork(s.sinks[k])
  {
    var k := s.stage.doomed[0].job.sink;
    assert SinkOk(s, k) && JobHolds(s, k);
    ReleaseWork(s.(stage := Discarding(s.stage.doomed[1..], false), blockedOn := None), k);
  }

  // Every step of a thread that is merely carrying on uses up some of the work that is left.
  lemma WorkDecreases(s: State, l: Label)
    requires Inv(s) && Enabled(s, l) && !Starts(l)
    ensures Work(Apply(s, l)) < Work(s)
  {
    if AtSink(l) {
      if l.HandleSend? {
        HandleSendWork(s, l);
      } else if l.HandleReturn? || l.AddSinkReturn? || l.DropSink? {
        ReleasingWork(s, l);
      } else {
        SinkThreadWork(s, l);
      }
      SinkStepsWork(s, l);
    } else if l.WorkerPop? || l.DtorReset? {
      QueueWork(s, l);
    } else if l.DtorJoin? {
      JoinWork(s);
    } else if l.DtorFree? {
      FreeWork(s);
    } else {
      OthersKeepSinks(s, l);
      ReturnWork(s, l);
    }
  }

  // Whatever the schedule: once nobody starts anything new, the pipeline stops after at most Work(s)
  // steps, and by NoDeadlock it stops only when all is quiet or the process has exited.
  lemma {:induction false} DrainsInBoundedTime(ls: seq<Label>, more: seq<Label>, s: State, s': State)
    requires Run(ls) == Some(s) && Run(ls + more) == Some(s')
    requires forall l | l in more :: !Starts(l)
    ensures |more| + Work(s') <= Work(s)
    decreases |more|
  {
    hide Enabled, Apply, Work, Inv;
    if more == [] {
      assert ls + more == ls;
    } else {
      var n := |more| - 1;
      assert (ls + more)[..|ls + more| - 1] == ls + more[..n];
      var b := Run(ls + more[..n]).value;
      assert forall l | l in more[..n] :: l in more;
      DrainsInBoundedTime(ls, more[..n], s, b);
      ReachableInv(ls + more[..n], b);
      assert more[n] in more;
      WorkDecreases(b, more[n]);
    }
  }

  // And when all is quiet, nothing is owed: each sink has executed exactly its slice of the history.
  lemma QuietMeansDelivered(ls: seq<Label>, s: State, k: SinkId)
    requires Run(ls) == Some(s) && Quiet(s) && k in s.sinks
    ensures LogMessages(s.sinks[k].active.executed) == Slice(Absent, JobsSent(ls), k)
  {
    Conservation(ls, s, k);
    assert SinkQuiet(s.sinks[k]);
    if s.worker.done {
      ClosedStays(s.worker.queue, k);
    }
  }
}
