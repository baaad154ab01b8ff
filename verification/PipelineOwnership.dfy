// Who keeps a sink alive, and what that guarantees: no step ever touches a destroyed sink, and a
// sink is destroyed only when everything that was ever sent to it has been executed.
module PipelineOwnership {
  import opened Common
  import opened ActiveObject
  import opened Pipeline

  predicate NoDone(ts: seq<SinkTask>) {
    forall t | t in ts :: t.Call?
  }

  // Done has been sent, once, and nothing behind it.
  predicate EndsWithDone(ts: seq<SinkTask>) {
    ts != [] && ts[|ts| - 1].Done? && NoDone(ts[..|ts| - 1])
  }

  // The add job of k has broken its promise and is about to be freed.
  predicate Freeing(s: State, k: SinkId) {
    Discards(s, true) && s.stage.doomed[0] == Call(AddSink(k))
  }

  ghost predicate SinkOk(s: State, k: SinkId)
    requires k in s.sinks
  {
    var x := s.sinks[k];
    && Valid(x.active)
    && (x.life.Live? <==> Strong(s, k))
    && (if x.life.Live? then NoDone(Sent(x.active)) else EndsWithDone(Sent(x.active)))
    && (x.life.Dead? ==> x.active.done)
    && OfAdd(k) in s.futures
    && (JobHolds(s, k) ==> if Freeing(s, k) then s.futures[OfAdd(k)].Broken? else x.adder && s.futures[OfAdd(k)].Pending?)
    && (k in s.registry ==> s.futures[OfAdd(k)].Value?)
    && (!x.adder ==> Resolved(s.futures[OfAdd(k)]))
  }

  // Every job ever sent to this worker.
  function History(s: State): seq<WorkerTask> {
    Sent(s.worker) + s.discarded
  }

  predicate AddedOnce(ts: seq<WorkerTask>) {
    forall i, j | 0 <= i < j < |ts| && ts[i].Call? && ts[i].job.AddSink? :: ts[i] != ts[j]
  }

  predicate Distinct(ks: seq<SinkId>) {
    forall i, j | 0 <= i < j < |ks| :: ks[i] != ks[j]
  }

  // The worker's queue outlives the stages in which it can still be used.
  predicate StageOk(s: State) {
    if s.stage.Discarding? || s.stage.Members? || s.stage.Finished? then
      s.worker.done && s.worker.queue == [] && IsTail(Doomed(s), s.discarded)
    else s.discarded == []
  }

  predicate IsTail(a: seq<WorkerTask>, b: seq<WorkerTask>) {
    |a| <= |b| && a == b[|b| - |a|..]
  }

  ghost predicate JobsOk(s: State) {
    && Valid(s.worker)
    && StageOk(s)
    && AddedOnce(History(s))
    && (forall k | Call(AddSink(k)) in History(s) :: k in s.sinks)
  }

  predicate RegistryOk(s: State) {
    && Distinct(s.registry)
    && (forall k | k in s.registry :: k in s.sinks)
    && (s.blockedOn.Some? ==> s.blockedOn.value in s.sinks && !s.sinks[s.blockedOn.value].life.Live?)
  }

  ghost predicate SinksOk(s: State) {
    forall k | k in s.sinks :: SinkOk(s, k)
  }

  ghost predicate Inv(s: State) {
    JobsOk(s) && RegistryOk(s) && SinksOk(s)
  }

  lemma InitInv()
    ensures Inv(Init)
  {
  }

  // ----- The job history

  predicate TouchesWorker(l: Label) {
    l.SaveCall? || l.FatalCall? || l.AddSinkCall? || l.DtorClear? || l.DtorReset? || l.DtorJoin?
    || l.WorkerPop? || l.WorkerSaved? || l.WorkerAdded? || l.WorkerCleared? || l.WorkerDone?
  }

  lemma OthersKeepWorker(s: State, l: Label)
    requires Enabled(s, l) && !TouchesWorker(l)
    ensures Apply(s, l).worker == s.worker && Apply(s, l).discarded == s.discarded && JobOf(l) == []
  {
  }

  predicate TouchesSinks(l: Label) {
    l.AddSinkCall? || l.AddSinkRefused? || l.AddSinkReturn? || l.HandleLock? || l.HandleSend? || l.HandleReturn?
    || l.WorkerSend? || l.DropSink? || l.SinkPop? || l.SinkReturn? || l.SinkReap? || l.DtorFree?
  }

  lemma OthersKeepSinks(s: State, l: Label)
    requires Enabled(s, l) && !TouchesSinks(l)
    ensures Apply(s, l).sinks == s.sinks
  {
  }

  predicate TouchesFutures(l: Label) {
    l.AddSinkCall? || l.AddSinkRefused? || l.HandleLock? || l.HandleSend? || l.WorkerAdded? || l.WorkerCleared?
    || l.SinkReturn? || l.DtorClear? || l.DtorBreak?
  }

  lemma OthersKeepFutures(s: State, l: Label)
    requires Enabled(s, l) && !TouchesFutures(l)
    ensures Apply(s, l).futures == s.futures
  {
    hide Strong;
  }

  predicate Returning(l: Label) {
    l.WorkerSaved? || l.WorkerAdded? || l.WorkerDone? || l.WorkerCleared?
  }

  lemma WorkerMoves(s: State, l: Label)
    requires Enabled(s, l) && TouchesWorker(l) && !l.DtorJoin?
    ensures Apply(s, l).discarded == s.discarded
    ensures Apply(s, l).worker == if l.WorkerPop? then Pop(s.worker)
                                  else if Returning(l) then Finish(s.worker)
                                  else Push(s.worker, JobOf(l)[0])
    ensures !l.WorkerPop? && !Returning(l) ==> |JobOf(l)| == 1
    ensures l.WorkerPop? || Returning(l) ==> JobOf(l) == []
  {
  }

  lemma JoinMoves(s: State)
    requires Enabled(s, DtorJoin)
    ensures Apply(s, DtorJoin).worker == s.worker.(queue := []) && Apply(s, DtorJoin).discarded == s.worker.queue
    ensures s.stage.Stopping? && s.worker.done
  {
  }

  // One step appends to the history what its label sends, and loses nothing.
  lemma HistoryStep(s: State, l: Label)
    requires Enabled(s, l) && Valid(s.worker) && StageOk(s)
    ensures History(Apply(s, l)) == History(s) + JobOf(l)
  {
    hide Apply;
    if !TouchesWorker(l) {
      OthersKeepWorker(s, l);
    } else if l.DtorJoin? {
      JoinMoves(s);
      assert Sent(s.worker) == s.worker.executed + s.worker.queue;
    } else {
      WorkerMoves(s, l);
      if l.WorkerPop? {
        PopKeepsSent(s.worker);
      } else if Returning(l) {
        FinishKeepsSent(s.worker);
      } else {
        PushAddsToSent(s.worker, JobOf(l)[0]);
        assert s.discarded == [];
      }
    }
  }

  lemma WorkerStaysValid(s: State, l: Label)
    requires Enabled(s, l) && Valid(s.worker) && StageOk(s)
    ensures Valid(Apply(s, l).worker) && StageOk(Apply(s, l))
  {
    if !TouchesWorker(l) {
      OthersKeepWorker(s, l);
    }
    if l.DtorFree? {
      TailOfTail(s.stage.doomed, s.discarded);
    }
  }

  lemma TailOfTail(a: seq<WorkerTask>, b: seq<WorkerTask>)
    requires a != [] && IsTail(a, b)
    ensures IsTail(a[1..], b)
  {
  }

  lemma SinksOnlyGrow(s: State, l: Label)
    requires Enabled(s, l)
    ensures Apply(s, l).sinks.Keys == s.sinks.Keys + (if l.AddSinkCall? || l.AddSinkRefused? then {l.sink} else {})
  {
    hide Strong, Released, Free, Unblocked, WorkerReachable, ClearingNow, Resolved;
    if !TouchesSinks(l) {
      OthersKeepSinks(s, l);
    }
  }

  lemma AddedOnceSnoc(h: seq<WorkerTask>, t: WorkerTask)
    requires AddedOnce(h)
    requires t.Call? && t.job.AddSink? ==> t !in h
    ensures AddedOnce(h + [t])
  {
  }

  lemma JobsStep(s: State, l: Label)
    requires Enabled(s, l) && JobsOk(s)
    ensures JobsOk(Apply(s, l))
  {
    HistoryStep(s, l);
    WorkerStaysValid(s, l);
    SinksOnlyGrow(s, l);
    if JobOf(l) != [] {
      AddedOnceSnoc(History(s), JobOf(l)[0]);
    }
  }

  // ----- One sink's own queue

  ghost predicate SideOk(x: SinkState) {
    && Valid(x.active)
    && (if x.life.Live? then NoDone(Sent(x.active)) else EndsWithDone(Sent(x.active)))
    && (x.life.Dead? ==> x.active.done)
  }

  lemma PopSink(x: SinkState)
    requires SideOk(x) && CanPop(x.active)
    ensures SideOk(x.(active := Pop(x.active)))
  {
    PopKeepsSent(x.active);
  }

  lemma ReturnSink(x: SinkState)
    requires SideOk(x) && x.active.hand.Some?
    ensures SideOk(x.(active := Finish(x.active)))
  {
    var ts := Sent(x.active);
    FinishKeepsSent(x.active);
    assert ts[|x.active.executed|] == x.active.hand.value;
  }

  lemma PushSink(x: SinkState, j: SinkJob)
    requires SideOk(x) && x.life.Live?
    ensures SideOk(x.(active := Push(x.active, Call(j))))
  {
    PushAddsToSent(x.active, Call(j));
  }

  lemma ReleaseSink(x: SinkState)
    requires SideOk(x) && x.life.Live?
    ensures SideOk(x.(life := Draining, active := Push(x.active, Done)))
  {
    PushAddsToSent(x.active, Done);
    var ts := Sent(x.active);
    assert (ts + [Done])[..|ts + [Done]| - 1] == ts;
  }

  // ----- Preservation, label by label

  // A step that changes sink k only and leaves the worker's jobs and the registry alone.
  lemma SinkFrame(s: State, s': State, k: SinkId)
    requires SinksOk(s) && RegistryOk(s) && k in s.sinks && k in s'.sinks
    requires s'.worker == s.worker && s'.stage == s.stage && s'.registry == s.registry && s'.blockedOn == s.blockedOn
    requires s'.sinks == s.sinks[k := s'.sinks[k]]
    requires forall j | OfAdd(j) in s.futures :: OfAdd(j) in s'.futures && s'.futures[OfAdd(j)] == s.futures[OfAdd(j)]
    requires SinkOk(s', k)
    requires !s.sinks[k].life.Live? ==> !s'.sinks[k].life.Live?
    ensures SinksOk(s') && RegistryOk(s')
  {
    forall j | j in s'.sinks ensures SinkOk(s', j) {
      if j != k {
        assert SinkOk(s, j);
        assert s'.sinks[j] == s.sinks[j];
      }
    }
  }

  lemma SinkStep(s: State, l: Label)
    requires SinksOk(s) && RegistryOk(s) && Enabled(s, l)
    requires l.SinkPop? || l.SinkReturn? || l.SinkReap?
    ensures SinksOk(Apply(s, l)) && RegistryOk(Apply(s, l))
  {
    hide Apply, Enabled, SinksOk, RegistryOk;
    OwnThreadMoves(s, l);
    OwnThreadKeepsOk(s, l);
    SinkFrame(s, Apply(s, l), l.sink);
  }

  // What a sink's own thread, and its reaping, change.
  lemma OwnThreadMoves(s: State, l: Label)
    requires Enabled(s, l) && (l.SinkPop? || l.SinkReturn? || l.SinkReap?)
    ensures var s', k := Apply(s, l), l.sink;
            && k in s.sinks && k in s'.sinks && s'.sinks == s.sinks[k := s'.sinks[k]]
            && s'.worker == s.worker && s'.stage == s.stage && s'.registry == s.registry && s'.blockedOn == s.blockedOn
            && (!s.sinks[k].life.Live? ==> !s'.sinks[k].life.Live?)
            && (forall j | OfAdd(j) in s.futures :: OfAdd(j) in s'.futures && s'.futures[OfAdd(j)] == s.futures[OfAdd(j)])
  {
    hide Strong, Released, Free;
  }

  lemma OwnThreadKeepsOk(s: State, l: Label)
    requires SinksOk(s) && Enabled(s, l) && (l.SinkPop? || l.SinkReturn? || l.SinkReap?)
    ensures l.sink in Apply(s, l).sinks && SinkOk(Apply(s, l), l.sink)
  {
    hide Released, Free;
    var s', k := Apply(s, l), l.sink;
    assert SinkOk(s, k);
    assert JobHolds(s', k) == JobHolds(s, k);
    if l.SinkPop? {
      PopSink(s.sinks[k]);
    } else if l.SinkReturn? {
      ReturnSink(s.sinks[k]);
    }
  }

  lemma HandleStep(s: State, l: Label)
    requires SinksOk(s) && RegistryOk(s) && Enabled(s, l)
    requires l.HandleLock? || l.HandleSend?
    ensures SinksOk(Apply(s, l)) && RegistryOk(Apply(s, l))
  {
    var s', k := Apply(s, l), l.sink;
    assert SinkOk(s, k);
    assert JobHolds(s', k) == JobHolds(s, k);
    if l.HandleSend? {
      PushSink(s.sinks[k], HandleCall(l.call));
    }
    SinkFrame(s, s', k);
  }

  lemma FanOutStep(s: State)
    requires SinksOk(s) && RegistryOk(s) && Enabled(s, WorkerSend)
    ensures SinksOk(Apply(s, WorkerSend)) && RegistryOk(Apply(s, WorkerSend))
  {
    var s', k := Apply(s, WorkerSend), s.registry[s.progress.next];
    assert SinkOk(s, k) && k in s.registry;
    assert JobHolds(s', k) == JobHolds(s, k);
    var q := s'.sinks[k].active.queue;
    PushSink(s.sinks[k], q[|q| - 1].job);
    SinkFrame(s, s', k);
  }

  lemma ReleaseStep(s: State, l: Label)
    requires SinksOk(s) && RegistryOk(s) && Enabled(s, l)
    requires l.AddSinkReturn? || l.HandleReturn?
    ensures SinksOk(Apply(s, l)) && RegistryOk(Apply(s, l))
  {
    var s', k := Apply(s, l), l.sink;
    assert SinkOk(s, k);
    assert JobHolds(s', k) == JobHolds(s, k);
    ReleaseSink(if l.AddSinkReturn? then s.sinks[k].(adder := false) else s.sinks[k].(leaving := s.sinks[k].leaving - {l.call}));
    SinkFrame(s, s', k);
  }

  // Jobs that carry no add request change no reference.
  lemma SendStep(s: State, l: Label)
    requires SinksOk(s) && RegistryOk(s) && Enabled(s, l)
    requires l.SaveCall? || l.FatalCall? || l.DtorClear? || l.DtorReset?
    ensures SinksOk(Apply(s, l)) && RegistryOk(Apply(s, l))
  {
    var s' := Apply(s, l);
    forall j | j in s'.sinks ensures SinkOk(s', j) {
      assert SinkOk(s, j);
      assert JobHolds(s', j) == JobHolds(s, j);
    }
  }

  lemma NewSinkStep(s: State, l: Label)
    requires Inv(s) && Enabled(s, l)
    requires l.AddSinkCall? || l.AddSinkRefused?
    ensures SinksOk(Apply(s, l)) && RegistryOk(Apply(s, l))
  {
    var s', k := Apply(s, l), l.sink;
    forall j | j in s'.sinks ensures SinkOk(s', j) {
      if j == k {
        assert k !in s.registry;
        assert JobHolds(s', k) ==> l.AddSinkCall? by {
          assert Call(AddSink(k)) !in History(s);
        }
      } else {
        assert SinkOk(s, j);
        assert JobHolds(s', j) == JobHolds(s, j);
      }
    }
  }

  lemma WorkerPopStep(s: State)
    requires Inv(s) && Enabled(s, WorkerPop)
    ensures SinksOk(Apply(s, WorkerPop)) && RegistryOk(Apply(s, WorkerPop))
  {
    var s' := Apply(s, WorkerPop);
    assert s.worker.queue == [s.worker.queue[0]] + s.worker.queue[1..];
    forall j | j in s'.sinks ensures SinkOk(s', j) {
      assert SinkOk(s, j);
      assert JobHolds(s', j) == JobHolds(s, j);
    }
  }

  lemma WorkerReturnStep(s: State, l: Label)
    requires Inv(s) && Enabled(s, l)
    requires l.WorkerSaved? || l.WorkerDone? || l.WorkerCleared? || l.WorkerFlush? || l.WorkerExit?
    ensures SinksOk(Apply(s, l)) && RegistryOk(Apply(s, l))
  {
    var s' := Apply(s, l);
    forall j | j in s'.sinks ensures SinkOk(s', j) {
      assert SinkOk(s, j);
      assert JobHolds(s', j) == JobHolds(s, j);
    }
  }

  lemma HandIsNotQueued(s: State, t: WorkerTask)
    requires AddedOnce(History(s)) && s.worker.hand == Some(t) && t.Call? && t.job.AddSink?
    ensures t !in s.worker.queue && t in History(s)
  {
    var h, n := History(s), |s.worker.executed|;
    assert h[n] == t;
    assert forall i | 0 <= i < |s.worker.queue| :: h[n + 1 + i] == s.worker.queue[i];
  }

  lemma AddedSinkOk(s: State, s': State, k: SinkId, j: SinkId)
    requires SinksOk(s) && j in s.sinks && k in s.sinks && JobHolds(s, k)
    requires s'.sinks == s.sinks && s'.worker.queue == s.worker.queue && Call(AddSink(k)) !in s.worker.queue
    requires s.worker.hand == Some(Call(AddSink(k))) && s'.worker.hand.None?
    requires s'.registry == s.registry + [k] && s'.futures == s.futures[OfAdd(k) := Value]
    requires Doomed(s) == [] && s'.stage == s.stage
    ensures SinkOk(s', j)
  {
    assert SinkOk(s, j) && SinkOk(s, k);
  }

  // The add job runs: the registry takes over from the job, whose copy of the pointer goes away.
  lemma WorkerAddedStep(s: State)
    requires Inv(s) && Enabled(s, WorkerAdded)
    ensures SinksOk(Apply(s, WorkerAdded)) && RegistryOk(Apply(s, WorkerAdded))
  {
    var s', k := Apply(s, WorkerAdded), s.worker.hand.value.job.sink;
    HandIsNotQueued(s, Call(AddSink(k)));
    assert SinkOk(s, k) && JobHolds(s, k);
    assert !s.stage.Discarding? && k !in s.registry;
    forall j | j in s'.sinks ensures SinkOk(s', j) {
      AddedSinkOk(s, s', k, j);
    }
  }

  lemma DropStep(s: State)
    requires SinksOk(s) && RegistryOk(s) && Enabled(s, DropSink)
    ensures SinksOk(Apply(s, DropSink)) && RegistryOk(Apply(s, DropSink))
  {
    var s', k := Apply(s, DropSink), s.registry[0];
    DroppedSinkOk(s);
    forall j | j in s'.sinks ensures SinkOk(s', j) {
      if j != k {
        OtherSinkOk(s, s', k, j);
      }
    }
  }

  lemma DroppedSinkOk(s: State)
    requires SinksOk(s) && RegistryOk(s) && Enabled(s, DropSink)
    ensures var s', k := Apply(s, DropSink), s.registry[0];
            && SinkOk(s', k) && s'.sinks == s.sinks[k := s'.sinks[k]]
            && s'.worker == s.worker && s'.stage == s.stage && s'.futures == s.futures && s'.registry == s.registry[1..]
  {
    var k := s.registry[0];
    assert k in s.registry && SinkOk(s, k);
    assert k !in s.registry[1..];
    ReleaseSink(s.sinks[k]);
  }

  lemma OtherSinkOk(s: State, s': State, k: SinkId, j: SinkId)
    requires j in s.sinks && j != k && SinkOk(s, j) && s.registry != [] && s.registry[0] == k
    requires j in s'.sinks && s'.sinks[j] == s.sinks[j]
    requires s'.worker == s.worker && s'.stage == s.stage && s'.futures == s.futures && s'.registry == s.registry[1..]
    ensures SinkOk(s', j)
  {
    assert s.registry == [k] + s.registry[1..];
    assert JobHolds(s', j) == JobHolds(s, j);
  }

  lemma JoinStep(s: State, l: Label)
    requires Inv(s) && Enabled(s, l)
    requires l.DtorJoin? || l.DtorDiscarded? || l.DtorEnd?
    ensures SinksOk(Apply(s, l)) && RegistryOk(Apply(s, l))
  {
    var s' := Apply(s, l);
    forall j | j in s'.sinks ensures SinkOk(s', j) {
      assert SinkOk(s, j);
      assert JobHolds(s', j) == JobHolds(s, j) && !Freeing(s', j) && !Freeing(s, j);
    }
  }

  lemma BreakStep(s: State)
    requires Inv(s) && Enabled(s, DtorBreak)
    ensures SinksOk(Apply(s, DtorBreak)) && RegistryOk(Apply(s, DtorBreak))
  {
    var s' := Apply(s, DtorBreak);
    forall j | j in s'.sinks ensures SinkOk(s', j) {
      assert SinkOk(s, j);
      assert JobHolds(s', j) == JobHolds(s, j);
      if Freeing(s', j) {
        assert JobHolds(s, j);
      }
    }
  }

  // An add job that is being destroyed is not doomed a second time.
  lemma DoomedOnce(s: State)
    requires JobsOk(s) && Discards(s, true)
    ensures var t := s.stage.doomed[0];
            t.Call? && t.job.AddSink? ==> t !in s.stage.doomed[1..] && t.job.sink in s.sinks
  {
    var d, h := s.stage.doomed, History(s);
    assert d[0] in s.discarded && d[0] in h;
    assert forall i | 0 <= i < |d| :: h[|h| - |d| + i] == d[i];
  }

  lemma FreeStep(s: State)
    requires Inv(s) && Enabled(s, DtorFree)
    ensures SinksOk(Apply(s, DtorFree)) && RegistryOk(Apply(s, DtorFree))
  {
    var s', t := Apply(s, DtorFree), s.stage.doomed[0];
    DoomedOnce(s);
    assert s.stage.doomed == [t] + s.stage.doomed[1..];
    if t.Call? && t.job.AddSink? {
      FreedSinkOk(s);
    }
    forall j | j in s'.sinks ensures SinkOk(s', j) {
      if t != Call(AddSink(j)) {
        assert SinkOk(s, j);
        FreeTouchesOne(s, j);
        UnfreedSinkOk(s, s', j);
      }
    }
  }

  lemma FreedSinkOk(s: State)
    requires Inv(s) && Enabled(s, DtorFree)
    requires var t := s.stage.doomed[0]; t.Call? && t.job.AddSink? && t !in s.stage.doomed[1..] && t.job.sink in s.sinks
    ensures var s', k := Apply(s, DtorFree), s.stage.doomed[0].job.sink;
            && SinkOk(s', k) && s'.sinks == s.sinks[k := s'.sinks[k]]
            && (s'.blockedOn.Some? ==> s'.blockedOn.value == k && !s'.sinks[k].life.Live?)
  {
    var k := s.stage.doomed[0].job.sink;
    assert SinkOk(s, k) && JobHolds(s, k) && Freeing(s, k);
    ReleaseSink(s.sinks[k]);
  }

  lemma FreeTouchesOne(s: State, j: SinkId)
    requires Enabled(s, DtorFree) && j in s.sinks && s.stage.doomed[0] != Call(AddSink(j))
    ensures var s' := Apply(s, DtorFree);
            && j in s'.sinks && s'.sinks[j] == s.sinks[j]
            && s'.worker == s.worker && s'.registry == s.registry && s'.futures == s.futures
  {
    hide Strong;
  }

  lemma UnfreedSinkOk(s: State, s': State, j: SinkId)
    requires j in s.sinks && j in s'.sinks && SinkOk(s, j) && s'.sinks[j] == s.sinks[j] && Discards(s, true)
    requires s'.worker == s.worker && s'.registry == s.registry && s'.futures == s.futures
    requires s'.stage == Discarding(s.stage.doomed[1..], false)
    requires s.stage.doomed[0] != Call(AddSink(j)) && s.stage.doomed == [s.stage.doomed[0]] + s.stage.doomed[1..]
    ensures SinkOk(s', j)
  {
    assert JobHolds(s', j) == JobHolds(s, j);
  }

  lemma StepKeepsInv(s: State, l: Label)
    requires Inv(s) && Enabled(s, l)
    ensures Inv(Apply(s, l))
  {
    hide Apply, Enabled, JobsOk, RegistryOk, SinksOk;
    JobsStep(s, l);
    match l {
      case SinkPop(_) => SinkStep(s, l);
      case SinkReturn(_) => SinkStep(s, l);
      case SinkReap(_) => SinkStep(s, l);
      case HandleLock(_, _) => HandleStep(s, l);
      case HandleSend(_, _) => HandleStep(s, l);
      case HandleReturn(_, _) => ReleaseStep(s, l);
      case AddSinkReturn(_) => ReleaseStep(s, l);
      case AddSinkCall(_) => NewSinkStep(s, l);
      case AddSinkRefused(_) => NewSinkStep(s, l);
      case WorkerSend => FanOutStep(s);
      case WorkerPop => WorkerPopStep(s);
      case WorkerAdded => WorkerAddedStep(s);
      case DropSink => DropStep(s);
      case DtorJoin => JoinStep(s, l);
      case DtorBreak => BreakStep(s);
      case DtorFree => FreeStep(s);
      case DtorDiscarded => JoinStep(s, l);
      case DtorEnd => JoinStep(s, l);
      case SaveCall(_) => SendStep(s, l);
      case FatalCall(_) => SendStep(s, l);
      case DtorClear => SendStep(s, l);
      case DtorReset => SendStep(s, l);
      case WorkerSaved => WorkerReturnStep(s, l);
      case WorkerDone => WorkerReturnStep(s, l);
      case WorkerCleared => WorkerReturnStep(s, l);
      case WorkerFlush => WorkerReturnStep(s, l);
      case WorkerExit => WorkerReturnStep(s, l);
    }
  }

  lemma {:induction false} ReachableInv(ls: seq<Label>, s: State)
    requires Run(ls) == Some(s)
    ensures Inv(s)
    ensures History(s) == JobsSent(ls)
    decreases |ls|
  {
    if ls == [] {
      InitInv();
    } else {
      var b := Run(ls[..|ls| - 1]).value;
      ReachableInv(ls[..|ls| - 1], b);
      StepKeepsInv(b, ls[|ls| - 1]);
      HistoryStep(b, ls[|ls| - 1]);
    }
  }

  // ----- What one step does to the queue of one sink

  // The task by which a queue has grown.
  function Grown(a: Active<SinkJob>, a': Active<SinkJob>): seq<SinkTask> {
    if |a'.queue| == |a.queue| + 1 then [a'.queue[|a.queue|]] else []
  }

  lemma ActiveChange(s: State, l: Label, k: SinkId)
    requires Enabled(s, l) && k in s.sinks && k in Apply(s, l).sinks
    ensures var a, a' := s.sinks[k].active, Apply(s, l).sinks[k].active;
            || (a' == a && (l.WorkerSend? ==> s.registry[s.progress.next] != k) && (l.HandleSend? ==> l.sink != k))
            || (l == SinkPop(k) && a' == Pop(a))
            || (l == SinkReturn(k) && a' == Finish(a))
            || (l.WorkerSend? && s.registry[s.progress.next] == k
                && a' == Push(a, Call(LogCall(if SaveInHand(s) then s.worker.hand.value.job.msg
                                              else FatalReport(s.worker.hand.value.job.msg)))))
            || (l.HandleSend? && l.sink == k && a' == Push(a, Call(HandleCall(l.call))))
            || (!l.WorkerSend? && !l.HandleSend? && a' == Push(a, Done))
  {
    hide Strong;
    if !TouchesSinks(l) {
      OthersKeepSinks(s, l);
    }
  }

  lemma SentGrows(s: State, l: Label, k: SinkId)
    requires Enabled(s, l) && k in s.sinks && k in Apply(s, l).sinks
    ensures var a, a' := s.sinks[k].active, Apply(s, l).sinks[k].active; Sent(a') == Sent(a) + Grown(a, a')
  {
    ActiveChange(s, l, k);
    var a, a' := s.sinks[k].active, Apply(s, l).sinks[k].active;
    if l == SinkPop(k) {
      PopKeepsSent(a);
    } else if l == SinkReturn(k) {
      FinishKeepsSent(a);
    } else if a' != a {
      PushAddsToSent(a, a'.queue[|a.queue|]);
    }
  }

  // ----- What ownership guarantees

  // The step uses members of the Sink object k: its queue, its bound call or the real sink.
  predicate Uses(s: State, l: Label, k: SinkId) {
    match l
    case WorkerSend => s.progress.FanOut? && s.progress.next < |s.registry| && s.registry[s.progress.next] == k
    case HandleSend(j, _) => j == k
    case SinkPop(j) => j == k
    case SinkReturn(j) => j == k
    case _ => false
  }

  // Nothing runs on a destroyed sink, whichever thread dropped the last reference; and whatever is
  // being sent goes to a sink whose destructor has not even begun.
  lemma NoUseAfterDestruction(ls: seq<Label>, s: State, l: Label, k: SinkId)
    requires Run(ls) == Some(s) && Enabled(s, l) && k in s.sinks && Uses(s, l, k)
    ensures !s.sinks[k].life.Dead?
    ensures l.WorkerSend? || l.HandleSend? ==> s.sinks[k].life.Live?
  {
    ReachableInv(ls, s);
    assert SinkOk(s, k);
  }

  // A sink thread that has left its run loop left nothing behind.
  lemma DoneMeansDrained(x: SinkState)
    requires SideOk(x) && x.active.done
    ensures x.active.hand.None? && x.active.queue == [] && x.active.executed == Sent(x.active)
  {
    var ts, n := Sent(x.active), |x.active.executed|;
    assert ts[n - 1] == x.active.executed[n - 1];
    assert ts[n - 1] in ts;
    assert forall t | t in ts[..|ts| - 1] :: t.Call?;
    assert forall i | 0 <= i < |ts| - 1 :: ts[..|ts| - 1][i] == ts[i] && ts[i] in ts[..|ts| - 1];
    assert n - 1 >= |ts| - 1;
  }

  // A sink is destroyed only after every job ever sent to it has been executed, Done last.
  lemma DestroyedSinkIsDrained(ls: seq<Label>, s: State, k: SinkId)
    requires Run(ls) == Some(s) && k in s.sinks && s.sinks[k].life.Dead?
    ensures var a := s.sinks[k].active;
            && a.hand.None? && a.queue == [] && a.executed == Sent(a)
            && EndsWithDone(a.executed)
  {
    ReachableInv(ls, s);
    assert SinkOk(s, k);
    DoneMeansDrained(s.sinks[k]);
  }

  // The destructor of a sink has begun exactly when nobody can reach the sink any more.
  lemma LivesExactlyWhileReferenced(ls: seq<Label>, s: State, k: SinkId)
    requires Run(ls) == Some(s) && k in s.sinks
    ensures s.sinks[k].life.Live? <==> k in s.registry || JobHolds(s, k) || ClientHolds(s, k)
  {
    ReachableInv(ls, s);
    assert SinkOk(s, k);
  }

  // While its future is unresolved, the reference inside an add job is not the last one: the caller of
  // addSink is still waiting and holds another. Once the promise of a discarded job is broken this
  // ends (PipelineWitnesses.DiscardedJobCanDestroyItsSink).
  lemma WaitingJobIsNotTheLastReference(ls: seq<Label>, s: State, k: SinkId)
    requires Run(ls) == Some(s) && k in s.sinks && JobHolds(s, k)
    ensures OfAdd(k) in s.futures
    ensures !Resolved(s.futures[OfAdd(k)]) ==> s.sinks[k].adder && s.sinks[k].life.Live?
    ensures Resolved(s.futures[OfAdd(k)]) <==> Freeing(s, k)
  {
    ReachableInv(ls, s);
    assert SinkOk(s, k);
  }
}
