// The asynchronous logging pipeline as a labelled transition system: any number of client threads,
// one worker thread, one thread per sink, and the thread that destroys the LogWorker.
//
// A step is the smallest piece of code another thread can observe: one queue operation, one turn of
// a loop over the sinks, one change of a reference count. A run is a sequence of labels.
module Pipeline {
  import opened Common
  import opened ActiveObject

  type SinkId = nat
  type CallId = nat

  // A future is named after the task it belongs to: the add job of a sink, the one clear job of the
  // destructor, or a call through the handle of a sink.
  datatype FutId = OfAdd(sink: SinkId) | OfClear | OfCall(sink: SinkId, call: CallId)

  // The lambdas that reach LogWorkerImpl::_bg.
  datatype WorkerJob =
    | Save(msg: Message)
    | Fatal(msg: Message)
    | AddSink(sink: SinkId)
    | ClearSinks

  // The lambdas that reach Sink::_bg.
  datatype SinkJob = LogCall(msg: Message) | HandleCall(call: CallId)

  type WorkerTask = Task<WorkerJob>
  type SinkTask = Task<SinkJob>

  // Live: the Sink object exists. Draining: its last strong reference is gone and ~Sink is waiting
  // for the sink thread. Dead: ~Sink is over and the real sink has been destroyed.
  datatype Life = Live | Draining | Dead

  // adder   addSink's local shared_ptr, held until the add job's future is resolved
  // locked  handle calls that have promoted their weak_ptr and not yet enqueued the call
  // leaving handle calls that have enqueued the call and still hold the temporary shared_ptr
  datatype SinkState = SinkState(active: Active<SinkJob>, life: Life, adder: bool,
                                 locked: set<CallId>, leaving: set<CallId>)

  // Unmade: a handle call has promoted its pointer but has not created the task yet.
  // Failed: resolved at once with an exception (null worker, expired sink).
  // Broken: the queue that owned the task was destroyed before the task ran.
  datatype FutState = Unmade | Pending | Value | Failed | Broken

  // How far the job in hand has come: position in the loop over the sinks, or clearing them.
  datatype Progress = FanOut(next: nat) | Clearing

  // The destructor's progress. Up: not started. Flushing: waits for the clear job. Stopping: inside
  // _bg.reset, waiting for the worker thread. Discarding: still inside it, destroying what is left in
  // the queue, oldest first; broken says that the first doomed job has broken its promise and not yet
  // freed its lambda. Members: _bg is gone, _sinks is being destroyed. Finished: the LogWorker is gone.
  datatype Stage =
    | Up
    | Flushing
    | Stopping
    | Discarding(doomed: seq<WorkerTask>, broken: bool)
    | Members
    | Finished

  // blockedOn  the sink whose destructor the owner of the registry is inside of
  // outlived   sinks that a client thread still referenced when the registry let go of them
  // reported   messages the worker wrote to stderr for lack of sinks
  // discarded  jobs that were still queued when the worker's thread had ended
  // exited     bgFatal has ended the process
  datatype State = State(worker: Active<WorkerJob>, progress: Progress,
                         registry: seq<SinkId>, blockedOn: Option<SinkId>, outlived: set<SinkId>,
                         sinks: map<SinkId, SinkState>, futures: map<FutId, FutState>,
                         reported: seq<Message>, stage: Stage,
                         discarded: seq<WorkerTask>, exited: bool)

  const Init := State(Fresh(), Clearing, [], None, {}, map[], map[], [], Up, [], false)

  datatype Label =
    // client threads
    | SaveCall(msg: Message)
    | FatalCall(msg: Message)
    | AddSinkCall(sink: SinkId)
    | AddSinkRefused(sink: SinkId)
    | AddSinkReturn(sink: SinkId)
    | HandleLock(sink: SinkId, call: CallId)
    | HandleSend(sink: SinkId, call: CallId)
    | HandleReturn(sink: SinkId, call: CallId)
    // the worker thread
    | WorkerPop
    | WorkerSend
    | WorkerSaved
    | WorkerAdded
    | WorkerFlush
    | WorkerExit
    | WorkerDone
    // whoever owns the registry: the worker thread, or the destructor once the worker is gone
    | DropSink
    | WorkerCleared
    // a sink thread, and the thread inside ~Sink
    | SinkPop(sink: SinkId)
    | SinkReturn(sink: SinkId)
    | SinkReap(sink: SinkId)
    // the thread inside ~LogWorker
    | DtorClear
    | DtorReset
    | DtorJoin
    | DtorBreak
    | DtorFree
    | DtorDiscarded
    | DtorEnd

  // What bgFatal makes of the message before it goes to the sinks.
  function FatalReport(m: Message): Message {
    m.(closing := true)
  }

  // ----- Reference counting

  // The jobs that ~Active has yet to destroy.
  function Doomed(s: State): seq<WorkerTask> {
    if s.stage.Discarding? then s.stage.doomed else []
  }

  // The add job owns a copy of the shared_ptr: in the worker's queue, in its hand, or until it is freed.
  predicate JobHolds(s: State, k: SinkId)
    requires k in s.sinks
  {
    var job := Call(AddSink(k));
    job in s.worker.queue || s.worker.hand == Some(job) || job in Doomed(s)
  }

  // A strong reference held by a client thread.
  predicate ClientHolds(s: State, k: SinkId)
    requires k in s.sinks
  {
    s.sinks[k].adder || s.sinks[k].locked != {} || s.sinks[k].leaving != {}
  }

  // use_count() > 0
  predicate Strong(s: State, k: SinkId)
    requires k in s.sinks
  {
    k in s.registry || JobHolds(s, k) || ClientHolds(s, k)
  }

  // After a reference to k went away: if it was the last one, ~Sink begins, whose _bg.reset() sends
  // Done to the sink's own queue and waits.
  function Released(s: State, k: SinkId): (s': State)
    requires k in s.sinks
    ensures s'.(sinks := s.sinks) == s
    ensures k in s'.sinks && s'.sinks == s.sinks[k := s'.sinks[k]]
    ensures s'.sinks[k].locked == s.sinks[k].locked
  {
    if Strong(s, k) then s
    else s.(sinks := s.sinks[k := s.sinks[k].(life := Draining, active := Push(s.sinks[k].active, Done))])
  }

  // ----- Enabledness and effect of each step

  // The worker's Active object exists until its thread has been joined. A client that read _bg
  // before reset() nulled it may still push while the destructor is joining.
  predicate WorkerReachable(s: State) {
    s.stage.Up? || s.stage.Flushing? || s.stage.Stopping?
  }

  predicate HandIsCall(s: State) {
    s.worker.hand.Some? && s.worker.hand.value.Call?
  }

  predicate SaveInHand(s: State) {
    HandIsCall(s) && s.worker.hand.value.job.Save?
  }

  predicate FatalInHand(s: State) {
    HandIsCall(s) && s.worker.hand.value.job.Fatal?
  }

  predicate AddInHand(s: State) {
    HandIsCall(s) && s.worker.hand.value.job.AddSink?
  }

  predicate ClearInHand(s: State) {
    HandIsCall(s) && s.worker.hand.value.job.ClearSinks?
  }

  predicate AllSent(s: State) {
    s.progress.FanOut? && s.progress.next == |s.registry|
  }

  // The destroying thread is between jobs, or between the two halves of destroying the first one.
  predicate Discards(s: State, broken: bool) {
    s.stage.Discarding? && s.stage.doomed != [] && s.stage.broken == broken
  }

  // Some thread is destroying the registry's elements one after the other.
  predicate ClearingNow(s: State) {
    s.stage.Members? || (s.progress.Clearing? && (FatalInHand(s) || ClearInHand(s)))
  }

  // The sink destructor the clearing thread was inside of, if any, has returned.
  predicate Unblocked(s: State) {
    s.blockedOn.Some? ==> s.blockedOn.value in s.sinks && s.sinks[s.blockedOn.value].life.Dead?
  }

  predicate Resolved(f: FutState) {
    f.Value? || f.Failed? || f.Broken?
  }

  predicate Enabled(s: State, l: Label) {
    !s.exited &&
    match l
    case SaveCall(_) => WorkerReachable(s)
    case FatalCall(_) => WorkerReachable(s)
    case AddSinkCall(k) => WorkerReachable(s) && k !in s.sinks
    case AddSinkRefused(k) => !s.stage.Up? && !s.stage.Flushing? && k !in s.sinks
    case AddSinkReturn(k) =>
      k in s.sinks && s.sinks[k].adder && OfAdd(k) in s.futures && Resolved(s.futures[OfAdd(k)])
    case HandleLock(k, c) => k in s.sinks && !s.sinks[k].adder && OfCall(k, c) !in s.futures
    case HandleSend(k, c) => k in s.sinks && c in s.sinks[k].locked
    case HandleReturn(k, c) => k in s.sinks && c in s.sinks[k].leaving
    case WorkerPop => CanPop(s.worker)
    case WorkerSend =>
      (SaveInHand(s) || FatalInHand(s)) && s.progress.FanOut? && s.progress.next < |s.registry|
      && s.registry[s.progress.next] in s.sinks
    case WorkerSaved => SaveInHand(s) && AllSent(s)
    case WorkerAdded => AddInHand(s)
    case WorkerFlush => FatalInHand(s) && AllSent(s)
    case WorkerExit => FatalInHand(s) && s.progress.Clearing? && s.registry == [] && Unblocked(s)
    case WorkerDone => s.worker.hand == Some(Done)
    case DropSink => ClearingNow(s) && s.registry != [] && s.registry[0] in s.sinks && Unblocked(s)
    case WorkerCleared => ClearInHand(s) && s.progress.Clearing? && s.registry == [] && Unblocked(s)
    case SinkPop(k) => k in s.sinks && CanPop(s.sinks[k].active)
    case SinkReturn(k) => k in s.sinks && s.sinks[k].active.hand.Some?
    case SinkReap(k) => k in s.sinks && s.sinks[k].life.Draining? && s.sinks[k].active.done
    case DtorClear => s.stage.Up?
    case DtorReset => s.stage.Flushing? && OfClear in s.futures && Resolved(s.futures[OfClear])
    case DtorJoin => s.stage.Stopping? && s.worker.done
    case DtorBreak => Discards(s, false) && Unblocked(s)
    case DtorFree => Discards(s, true) && Unblocked(s)
    case DtorDiscarded => s.stage.Discarding? && s.stage.doomed == [] && Unblocked(s)
    case DtorEnd => s.stage.Members? && s.registry == [] && Unblocked(s)
  }

  // ~packaged_task, first half: the promise of a job that never ran is broken. Only the add and clear
  // jobs are packaged tasks.
  function Break(futures: map<FutId, FutState>, t: WorkerTask): map<FutId, FutState> {
    match t
    case Call(AddSink(k)) => futures[OfAdd(k) := Broken]
    case Call(ClearSinks) => futures[OfClear := Broken]
    case _ => futures
  }

  // Second half: its lambda goes away, and with it the job's copy of the shared_ptr. By then the caller
  // of addSink may have returned, so this can be the last reference.
  function Free(s: State): (s': State)
    requires Discards(s, true)
    ensures s'.(sinks := s.sinks, stage := s.stage, blockedOn := s.blockedOn) == s
    ensures s'.sinks.Keys == s.sinks.Keys && s'.stage == Discarding(s.stage.doomed[1..], false)
  {
    var t := s.stage.doomed[0];
    var rest := s.(stage := Discarding(s.stage.doomed[1..], false), blockedOn := None);
    if t.Call? && t.job.AddSink? && t.job.sink in s.sinks then
      var k := t.job.sink;
      var s' := Released(rest, k);
      if s'.sinks[k].life.Live? then s' else s'.(blockedOn := Some(k))
    else rest
  }

  function AfterSinkTask(futures: map<FutId, FutState>, k: SinkId, t: SinkTask): map<FutId, FutState> {
    if t.Call? && t.job.HandleCall? then futures[OfCall(k, t.job.call) := Value] else futures
  }

  // addSink has made the sink and holds it in a local shared_ptr.
  const NewSink := SinkState(Fresh(), Live, true, {}, {})

  function Send(s: State, j: WorkerJob): State {
    s.(worker := Push(s.worker, Call(j)))
  }

  function Apply(s: State, l: Label): State
    requires Enabled(s, l)
  {
    match l
    case SaveCall(m) => Send(s, Save(m))
    case FatalCall(m) => Send(s, Fatal(m))
    case AddSinkCall(k) =>
      Send(s.(sinks := s.sinks[k := NewSink], futures := s.futures[OfAdd(k) := Pending]), AddSink(k))
    // _bg is null by now: spawn_task resolves the future with an exception
    case AddSinkRefused(k) =>
      s.(sinks := s.sinks[k := NewSink], futures := s.futures[OfAdd(k) := Failed])
    case AddSinkReturn(k) =>
      Released(s.(sinks := s.sinks[k := s.sinks[k].(adder := false)]), k)
    // shared_ptr(weak_ptr) succeeds exactly when some strong reference exists
    case HandleLock(k, c) =>
      if Strong(s, k) then
        s.(sinks := s.sinks[k := s.sinks[k].(locked := s.sinks[k].locked + {c})], futures := s.futures[OfCall(k, c) := Unmade])
      else s.(futures := s.futures[OfCall(k, c) := Failed])
    case HandleSend(k, c) =>
      s.(sinks := s.sinks[k := s.sinks[k].(locked := s.sinks[k].locked - {c},
                                           leaving := s.sinks[k].leaving + {c},
                                           active := Push(s.sinks[k].active, Call(HandleCall(c))))],
         futures := s.futures[OfCall(k, c) := Pending])
    case HandleReturn(k, c) =>
      Released(s.(sinks := s.sinks[k := s.sinks[k].(leaving := s.sinks[k].leaving - {c})]), k)
    case WorkerPop =>
      var w := Pop(s.worker);
      s.(worker := w, blockedOn := None,
         progress := if w.hand.value.Call? && w.hand.value.job.ClearSinks? then Clearing else FanOut(0))
    case WorkerSend =>
      var k := s.registry[s.progress.next];
      var m := s.worker.hand.value.job.msg;
      var sent := if SaveInHand(s) then m else FatalReport(m);
      s.(sinks := s.sinks[k := s.sinks[k].(active := Push(s.sinks[k].active, Call(LogCall(sent))))],
         progress := FanOut(s.progress.next + 1))
    case WorkerSaved =>
      s.(worker := Finish(s.worker),
         reported := if s.registry == [] then s.reported + [s.worker.hand.value.job.msg] else s.reported)
    case WorkerAdded =>
      var k := s.worker.hand.value.job.sink;
      s.(worker := Finish(s.worker), registry := s.registry + [k], futures := s.futures[OfAdd(k) := Value])
    case WorkerFlush => s.(progress := Clearing)
    case WorkerExit => s.(exited := true)
    case WorkerDone => s.(worker := Finish(s.worker))
    case DropSink =>
      var k := s.registry[0];
      var s' := Released(s.(registry := s.registry[1..]), k);
      if s'.sinks[k].life.Live? then s'.(blockedOn := None, outlived := s.outlived + {k})
      else s'.(blockedOn := Some(k))
    case WorkerCleared =>
      s.(worker := Finish(s.worker), futures := s.futures[OfClear := Value])
    case SinkPop(k) => s.(sinks := s.sinks[k := s.sinks[k].(active := Pop(s.sinks[k].active))])
    case SinkReturn(k) =>
      s.(sinks := s.sinks[k := s.sinks[k].(active := Finish(s.sinks[k].active))],
         futures := AfterSinkTask(s.futures, k, s.sinks[k].active.hand.value))
    case SinkReap(k) => s.(sinks := s.sinks[k := s.sinks[k].(life := Dead)])
    case DtorClear => Send(s.(stage := Flushing, futures := s.futures[OfClear := Pending]), ClearSinks)
    case DtorReset => s.(worker := Push(s.worker, Done), stage := Stopping)
    // joined: the queue is destroyed with whatever is left in it, job by job
    case DtorJoin =>
      s.(stage := Discarding(s.worker.queue, false), blockedOn := None, discarded := s.worker.queue,
         worker := s.worker.(queue := []))
    case DtorBreak =>
      s.(stage := Discarding(s.stage.doomed, true), futures := Break(s.futures, s.stage.doomed[0]))
    case DtorFree => Free(s)
    case DtorDiscarded => s.(stage := Members, blockedOn := None)
    case DtorEnd => s.(stage := Finished)
  }

  // The state a fresh LogWorker reaches through ls; None when a step was not possible.
  function Run(ls: seq<Label>): Option<State>
    decreases |ls|
  {
    if ls == [] then Some(Init)
    else match Run(ls[..|ls| - 1])
      case None => None
      case Some(s) =>
        if Enabled(s, ls[|ls| - 1]) then Some(Apply(s, ls[|ls| - 1])) else None
  }

  // The jobs a run sends to the worker, in order: read off the labels alone.
  function JobsSent(ls: seq<Label>): seq<WorkerTask>
    decreases |ls|
  {
    if ls == [] then []
    else JobsSent(ls[..|ls| - 1]) + JobOf(ls[|ls| - 1])
  }

  function JobOf(l: Label): seq<WorkerTask> {
    match l
    case SaveCall(m) => [Call(Save(m))]
    case FatalCall(m) => [Call(Fatal(m))]
    case AddSinkCall(k) => [Call(AddSink(k))]
    case DtorClear => [Call(ClearSinks)]
    case DtorReset => [Done]
    case _ => []
  }
}
