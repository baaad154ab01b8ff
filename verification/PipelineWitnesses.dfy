// Four runs that show where the guarantees end: which order is not kept, why FatalIsTheLastMessage
// needs its premise, what happens to a message behind the destructor's clear job, and who can be left
// with the last reference to a sink.
module PipelineWitnesses {
  import opened Common
  import opened ActiveObject
  import opened Pipeline
  import opened PipelineSpec

  predicate Leads(s: State, l: Label, s': State) {
    Enabled(s, l) && Apply(s, l) == s'
  }

  lemma Extend(ls: seq<Label>, s: State, l: Label, s': State)
    requires Run(ls) == Some(s) && Leads(s, l, s')
    ensures Run(ls + [l]) == Some(s')
  {
    assert (ls + [l])[..|ls + [l]| - 1] == ls;
  }

  lemma PushOnIdle<J>(t: Task<J>)
    ensures Push(Fresh(), t) == Active([t], None, [], false)
  {
  }

  lemma PopFromOne<J>(t: Task<J>)
    ensures Pop(Active([t], None, [], false)) == Active([], Some(t), [], false)
    ensures Finish(Active([], Some(t), [], false)) == Active([], None, [t], t.Done?)
  {
    assert [t][1..] == [];
  }

  const Hello := Message(INFO, "hello", false)
  const Crash := Message(FATAL, "crash", false)
  const Adding := Call(AddSink(0))
  const AddedWorker: Active<WorkerJob> := Active([], None, [Adding], false)
  const IdleSink := SinkState(Fresh(), Live, false, {}, {})

  // One sink, number 0, registered; x is the rest of what is known about it.
  function WithSink(x: SinkState, w: Active<WorkerJob>, futures: map<FutId, FutState>): State {
    State(w, FanOut(0), [0], None, {}, map[0 := x], futures, [], Up, [], false)
  }

  const OneSink := WithSink(IdleSink, AddedWorker, map[OfAdd(0) := Value])

  lemma OneSinkIsReachable() returns (ls: seq<Label>)
    ensures Run(ls) == Some(OneSink)
  {
    var s1 := Init.(worker := Active([Adding], None, [], false), sinks := map[0 := NewSink], futures := map[OfAdd(0) := Pending]);
    var s2 := s1.(worker := Active([], Some(Adding), [], false), progress := FanOut(0));
    var s3 := OneSink.(sinks := map[0 := NewSink]);
    Extend([], Init, AddSinkCall(0), s1);
    ls := [] + [AddSinkCall(0)];
    Extend(ls, s1, WorkerPop, s2);
    ls := ls + [WorkerPop];
    Extend(ls, s2, WorkerAdded, s3);
    ls := ls + [WorkerAdded];
    Extend(ls, s3, AddSinkReturn(0), OneSink);
    ls := ls + [AddSinkReturn(0)];
  }

  // ----- A handle call overtakes a saved message

  const SavedWorker: Active<WorkerJob> := Active([Call(Save(Hello))], None, [Adding], false)
  const TheCall := Call(HandleCall(7))

  function CallAt(a: Active<SinkJob>, locked: set<CallId>, leaving: set<CallId>, f: FutState): State {
    WithSink(SinkState(a, Live, false, locked, leaving), SavedWorker, map[OfAdd(0) := Value, OfCall(0, 7) := f])
  }

  lemma CallIsLocked()
    ensures Leads(WithSink(IdleSink, SavedWorker, map[OfAdd(0) := Value]), HandleLock(0, 7), CallAt(Fresh(), {7}, {}, Unmade))
  {
    assert {} + {7} == {7};
  }

  lemma CallIsSent()
    ensures Leads(CallAt(Fresh(), {7}, {}, Unmade), HandleSend(0, 7),
                  CallAt(Active([TheCall], None, [], false), {}, {7}, Pending))
  {
    PushOnIdle(TheCall);
    assert {7} - {7} == {} && {} + {7} == {7};
  }

  lemma CallIsExecuted()
    ensures Leads(CallAt(Active([TheCall], None, [], false), {}, {7}, Pending), SinkPop(0),
                  CallAt(Active([], Some(TheCall), [], false), {}, {7}, Pending))
    ensures Leads(CallAt(Active([], Some(TheCall), [], false), {}, {7}, Pending), SinkReturn(0),
                  CallAt(Active([], None, [TheCall], false), {}, {7}, Value))
  {
    PopFromOne(TheCall);
  }

  // The merged order is only an interleaving: a handle call passes one queue and a saved message two,
  // so a call made after a save can be executed before the saved message has even left the worker.
  lemma HandleCallCanOvertakeSave() returns (pre: seq<Label>, ls: seq<Label>, s: State)
    ensures Run(pre) == Some(OneSink) && Run(ls) == Some(s)
    ensures ls == pre + [SaveCall(Hello)] + [HandleLock(0, 7)] + [HandleSend(0, 7)] + [SinkPop(0)] + [SinkReturn(0)]
    ensures s.worker.queue == [Call(Save(Hello))]
    ensures 0 in s.sinks && s.sinks[0].active.executed == [Call(HandleCall(7))]
  {
    pre := OneSinkIsReachable();
    var s1 := WithSink(IdleSink, SavedWorker, map[OfAdd(0) := Value]);
    Extend(pre, OneSink, SaveCall(Hello), s1);
    ls := pre + [SaveCall(Hello)];
    CallIsLocked();
    Extend(ls, s1, HandleLock(0, 7), CallAt(Fresh(), {7}, {}, Unmade));
    ls := ls + [HandleLock(0, 7)];
    CallIsSent();
    var s2 := CallAt(Active([TheCall], None, [], false), {}, {7}, Pending);
    Extend(ls, CallAt(Fresh(), {7}, {}, Unmade), HandleSend(0, 7), s2);
    ls := ls + [HandleSend(0, 7)];
    CallIsExecuted();
    var s3 := CallAt(Active([], Some(TheCall), [], false), {}, {7}, Pending);
    Extend(ls, s2, SinkPop(0), s3);
    ls := ls + [SinkPop(0)];
    s := CallAt(Active([], None, [TheCall], false), {}, {7}, Value);
    Extend(ls, s3, SinkReturn(0), s);
    ls := ls + [SinkReturn(0)];
  }

  // ----- A sink that is held misses the fatal message

  const FatalJob := Call(Fatal(Crash))
  const FatalTask := Call(LogCall(FatalReport(Crash)))

  function HeldAt(w: Active<WorkerJob>, a: Active<SinkJob>, p: Progress): State {
    WithSink(SinkState(a, Live, false, {7}, {}), w, map[OfAdd(0) := Value, OfCall(0, 7) := Unmade]).(progress := p)
  }

  const FatalHand: Active<WorkerJob> := Active([], Some(FatalJob), [Adding], false)
  const FatalGiven: Active<SinkJob> := Active([FatalTask], None, [], false)

  lemma FatalIsTaken()
    ensures Leads(OneSink, HandleLock(0, 7), HeldAt(AddedWorker, Fresh(), FanOut(0)))
    ensures Leads(HeldAt(AddedWorker, Fresh(), FanOut(0)), FatalCall(Crash),
                  HeldAt(Active([FatalJob], None, [Adding], false), Fresh(), FanOut(0)))
    ensures Leads(HeldAt(Active([FatalJob], None, [Adding], false), Fresh(), FanOut(0)), WorkerPop,
                  HeldAt(FatalHand, Fresh(), FanOut(0)))
  {
    assert {} + {7} == {7};
  }

  lemma FatalIsSent()
    ensures Leads(HeldAt(FatalHand, Fresh(), FanOut(0)), WorkerSend, HeldAt(FatalHand, FatalGiven, FanOut(1)))
    ensures Leads(HeldAt(FatalHand, FatalGiven, FanOut(1)), WorkerFlush, HeldAt(FatalHand, FatalGiven, Clearing))
  {
    PushOnIdle(FatalTask);
    var s, k := HeldAt(FatalHand, Fresh(), FanOut(0)), 0;
    assert s.registry[0] == k;
    assert s.sinks[k := s.sinks[k].(active := FatalGiven)] == map[0 := s.sinks[k].(active := FatalGiven)];
  }

  lemma FatalExits()
    ensures var s := HeldAt(FatalHand, FatalGiven, Clearing);
            && Leads(s, DropSink, s.(registry := [], outlived := {0}))
            && Leads(s.(registry := [], outlived := {0}), WorkerExit, s.(registry := [], outlived := {0}, exited := true))
  {
    var s := HeldAt(FatalHand, FatalGiven, Clearing);
    assert s.registry[1..] == [] && {} + {0} == {0};
    assert ClientHolds(s.(registry := []), 0);
  }

  // The premise of FatalIsTheLastMessage is needed: a handle call in flight keeps the sink alive, the
  // worker does not wait for it, and the process exits before that sink has executed anything.
  lemma HeldSinkCanMissTheFatalMessage() returns (ls: seq<Label>, s: State)
    ensures Run(ls) == Some(s) && s.exited && s.outlived == {0}
    ensures 0 in s.sinks && s.sinks[0].active.executed == []
    ensures RegistryAfter(s.worker.executed) == [0]
  {
    ls := OneSinkIsReachable();
    FatalIsTaken();
    var w := Active([FatalJob], None, [Adding], false);
    Extend(ls, OneSink, HandleLock(0, 7), HeldAt(AddedWorker, Fresh(), FanOut(0)));
    ls := ls + [HandleLock(0, 7)];
    Extend(ls, HeldAt(AddedWorker, Fresh(), FanOut(0)), FatalCall(Crash), HeldAt(w, Fresh(), FanOut(0)));
    ls := ls + [FatalCall(Crash)];
    Extend(ls, HeldAt(w, Fresh(), FanOut(0)), WorkerPop, HeldAt(FatalHand, Fresh(), FanOut(0)));
    ls := ls + [WorkerPop];
    FatalIsSent();
    Extend(ls, HeldAt(FatalHand, Fresh(), FanOut(0)), WorkerSend, HeldAt(FatalHand, FatalGiven, FanOut(1)));
    ls := ls + [WorkerSend];
    s := HeldAt(FatalHand, FatalGiven, Clearing);
    Extend(ls, HeldAt(FatalHand, FatalGiven, FanOut(1)), WorkerFlush, s);
    ls := ls + [WorkerFlush];
    FatalExits();
    Extend(ls, s, DropSink, s.(registry := [], outlived := {0}));
    ls := ls + [DropSink];
    s := s.(registry := [], outlived := {0});
    Extend(ls, s, WorkerExit, s.(exited := true));
    ls, s := ls + [WorkerExit], s.(exited := true);
    assert [Adding][..0] == [] && RegistryAfter([Adding]) == RegistryNext(RegistryAfter([Adding][..0]), Adding);
  }

  // ----- A message behind the clear job

  const Clear := Call(ClearSinks)
  const LateJob := Call(Save(Hello))

  // No sink at all, the destructor waiting for its clear job.
  function FlushingAt(w: Active<WorkerJob>, p: Progress, f: FutState, reported: seq<Message>): State {
    State(w, p, [], None, {}, map[], map[OfClear := f], reported, Flushing, [], false)
  }

  const Cleared := FlushingAt(Active([], None, [Clear], false), Clearing, Value, [])

  lemma ClearIsTaken()
    ensures Leads(Init, DtorClear, FlushingAt(Active([Clear], None, [], false), Clearing, Pending, []))
    ensures Leads(FlushingAt(Active([Clear], None, [], false), Clearing, Pending, []), WorkerPop,
                  FlushingAt(Active([], Some(Clear), [], false), Clearing, Pending, []))
  {
    PushOnIdle(Clear);
    PopFromOne(Clear);
  }

  lemma ClearIsDone()
    ensures Leads(FlushingAt(Active([], Some(Clear), [], false), Clearing, Pending, []), WorkerCleared, Cleared)
  {
    PopFromOne(Clear);
  }

  lemma LateJobRuns()
    ensures Leads(Cleared, SaveCall(Hello), FlushingAt(Active([LateJob], None, [Clear], false), Clearing, Value, []))
    ensures Leads(FlushingAt(Active([LateJob], None, [Clear], false), Clearing, Value, []), WorkerPop,
                  FlushingAt(Active([], Some(LateJob), [Clear], false), FanOut(0), Value, []))
    ensures Leads(FlushingAt(Active([], Some(LateJob), [Clear], false), FanOut(0), Value, []), WorkerSaved,
                  FlushingAt(Active([], None, [Clear, LateJob], false), FanOut(0), Value, [Hello]))
  {
    assert [LateJob][1..] == [];
  }

  // A message that arrives after the destructor's wait for its clear job is over is not ignored: as
  // long as it is queued before the stop request, it runs, and finds no sinks.
  lemma MessageBehindTheClearJobIsReported() returns (ls: seq<Label>, s: State)
    ensures ls == [] + [DtorClear] + [WorkerPop] + [WorkerCleared] + [SaveCall(Hello)] + [WorkerPop] + [WorkerSaved]
    ensures Run(ls[..3]) == Some(Cleared) && Resolved(Cleared.futures[OfClear])
    ensures Run(ls) == Some(s) && s.reported == [Hello]
  {
    hide Apply, Enabled;
    ls, s := ClearedIsReachable();
    var pre := ls;
    LateJobRuns();
    var s3 := FlushingAt(Active([LateJob], None, [Clear], false), Clearing, Value, []);
    var s4 := FlushingAt(Active([], Some(LateJob), [Clear], false), FanOut(0), Value, []);
    Extend(ls, Cleared, SaveCall(Hello), s3);
    ls := ls + [SaveCall(Hello)];
    Extend(ls, s3, WorkerPop, s4);
    ls := ls + [WorkerPop];
    s := FlushingAt(Active([], None, [Clear, LateJob], false), FanOut(0), Value, [Hello]);
    Extend(ls, s4, WorkerSaved, s);
    ls := ls + [WorkerSaved];
    assert ls[..3] == pre;
  }

  // ----- A discarded job holds the last reference

  const StoppedWorker: Active<WorkerJob> := Active([], None, [Clear, Done], true)

  // The worker has stopped with the add job of sink 0 behind the stop request.
  function DiscardingAt(stage: Stage, x: SinkState, f: FutState): State {
    State(StoppedWorker, FanOut(0), [], None, {}, map[0 := x], map[OfClear := Value, OfAdd(0) := f], [], stage, [Adding], false)
  }

  function StoppingAt(w: Active<WorkerJob>, p: Progress): State {
    State(w, p, [], None, {}, map[0 := NewSink], map[OfClear := Value, OfAdd(0) := Pending], [], Stopping, [], false)
  }

  const DoneQueued: Active<WorkerJob> := Active([Done], None, [Clear], false)
  const AddQueued: Active<WorkerJob> := Active([Done, Adding], None, [Clear], false)
  const DoneInHand: Active<WorkerJob> := Active([Adding], Some(Done), [Clear], false)

  lemma AddComesTooLate()
    ensures Leads(Cleared, DtorReset, Cleared.(worker := DoneQueued, stage := Stopping))
    ensures Leads(Cleared.(worker := DoneQueued, stage := Stopping), AddSinkCall(0), StoppingAt(AddQueued, Clearing))
  {
    assert [Done] + [Adding] == [Done, Adding];
  }

  lemma WorkerStops()
    ensures Leads(StoppingAt(AddQueued, Clearing), WorkerPop, StoppingAt(DoneInHand, FanOut(0)))
    ensures Leads(StoppingAt(DoneInHand, FanOut(0)), WorkerDone,
                  StoppingAt(Active([Adding], None, [Clear, Done], true), FanOut(0)))
    ensures Leads(StoppingAt(Active([Adding], None, [Clear, Done], true), FanOut(0)), DtorJoin,
                  DiscardingAt(Discarding([Adding], false), NewSink, Pending))
  {
    assert [Done, Adding][1..] == [Adding] && [Clear] + [Done] == [Clear, Done];
  }

  lemma CallerReturns()
    ensures Leads(DiscardingAt(Discarding([Adding], false), NewSink, Pending), DtorBreak,
                  DiscardingAt(Discarding([Adding], true), NewSink, Broken))
    ensures Leads(DiscardingAt(Discarding([Adding], true), NewSink, Broken), AddSinkReturn(0),
                  DiscardingAt(Discarding([Adding], true), IdleSink, Broken))
  {
    var s := DiscardingAt(Discarding([Adding], true), IdleSink, Broken);
    assert Adding in Doomed(s) && JobHolds(s, 0);
  }

  // A sink added behind the stop request: its promise is broken, the caller returns, and the job that
  // never ran is left with the last reference. Freeing it destroys the sink inside _bg.reset.
  lemma DiscardedJobCanDestroyItsSink() returns (ls: seq<Label>, s: State)
    ensures Run(ls) == Some(s) && Enabled(s, DtorFree)
    ensures 0 in s.sinks && s.sinks[0].life.Live? && !ClientHolds(s, 0) && 0 !in s.registry
    ensures var s' := Apply(s, DtorFree); 0 in s'.sinks && s'.sinks[0].life.Draining? && s'.blockedOn == Some(0)
  {
    hide Apply, Enabled;
    ls, s := ClearedIsReachable();
    AddComesTooLate();
    var s1 := Cleared.(worker := DoneQueued, stage := Stopping);
    Extend(ls, Cleared, DtorReset, s1);
    ls := ls + [DtorReset];
    Extend(ls, s1, AddSinkCall(0), StoppingAt(AddQueued, Clearing));
    ls := ls + [AddSinkCall(0)];
    WorkerStops();
    Extend(ls, StoppingAt(AddQueued, Clearing), WorkerPop, StoppingAt(DoneInHand, FanOut(0)));
    ls := ls + [WorkerPop];
    var s2 := StoppingAt(Active([Adding], None, [Clear, Done], true), FanOut(0));
    Extend(ls, StoppingAt(DoneInHand, FanOut(0)), WorkerDone, s2);
    ls := ls + [WorkerDone];
    var s3 := DiscardingAt(Discarding([Adding], false), NewSink, Pending);
    Extend(ls, s2, DtorJoin, s3);
    ls := ls + [DtorJoin];
    CallerReturns();
    var s4 := DiscardingAt(Discarding([Adding], true), NewSink, Broken);
    Extend(ls, s3, DtorBreak, s4);
    ls := ls + [DtorBreak];
    s := DiscardingAt(Discarding([Adding], true), IdleSink, Broken);
    Extend(ls, s4, AddSinkReturn(0), s);
    ls := ls + [AddSinkReturn(0)];
    LastReferenceGoes();
  }

  lemma LastReferenceGoes()
    ensures var s := DiscardingAt(Discarding([Adding], true), IdleSink, Broken);
            && Enabled(s, DtorFree)
            && var s' := Apply(s, DtorFree); 0 in s'.sinks && s'.sinks[0].life.Draining? && s'.blockedOn == Some(0)
  {
    var s := DiscardingAt(Discarding([Adding], true), IdleSink, Broken);
    assert s.stage.doomed[0] == Adding && s.stage.doomed[1..] == [];
    var rest := s.(stage := Discarding([], false), blockedOn := None);
    assert !Strong(rest, 0);
  }

  lemma ClearedIsReachable() returns (ls: seq<Label>, s: State)
    ensures Run(ls) == Some(s) && s == Cleared
    ensures ls == [] + [DtorClear] + [WorkerPop] + [WorkerCleared]
  {
    hide Apply, Enabled;
    ClearIsTaken();
    var s1 := FlushingAt(Active([Clear], None, [], false), Clearing, Pending, []);
    var s2 := FlushingAt(Active([], Some(Clear), [], false), Clearing, Pending, []);
    Extend([], Init, DtorClear, s1);
    ls := [] + [DtorClear];
    Extend(ls, s1, WorkerPop, s2);
    ls := ls + [WorkerPop];
    ClearIsDone();
    Extend(ls, s2, WorkerCleared, Cleared);
    ls, s := ls + [WorkerCleared], Cleared;
  }
}
