// The futures of the pipeline: where each one's task is, and that each is resolved at most once.
module PipelineFutures {
  import opened Common
  import opened ActiveObject
  import opened Pipeline
  import opened PipelineOwnership

  // ----- What the queues say about a future

  // Has the task run, is it waiting, or was it destroyed with its queue?
  function Verdict<J(==)>(a: Active<J>, gone: seq<Task<J>>, t: Task<J>): FutState {
    if t in a.executed then Value
    else if t in InHand(a) || t in a.queue then Pending
    else if t in gone then Broken
    else Failed
  }

  // The discarded jobs whose promise ~Active has yet to break.
  function Unbroken(s: State): seq<WorkerTask> {
    if Discards(s, true) then Doomed(s)[1..] else Doomed(s)
  }

  function WorkerVerdict(s: State, t: WorkerTask): FutState {
    if t in Unbroken(s) then Pending else Verdict(s.worker, s.discarded, t)
  }

  function CallVerdict(x: SinkState, c: CallId): FutState {
    if c in x.locked then Unmade else Verdict(x.active, [], Call(HandleCall(c)))
  }

  ghost predicate AddFutures(s: State) {
    forall k :: AddFuture(s, k)
  }

  // The destructor sends one clear job, and waits for it before it stops the worker.
  ghost predicate ClearFuture(s: State) {
    if s.stage.Up? then OfClear !in s.futures && Call(ClearSinks) !in History(s)
    else
      && OfClear in s.futures && s.futures[OfClear] == WorkerVerdict(s, Call(ClearSinks))
      && (s.futures[OfClear].Pending? || s.futures[OfClear].Value?)
      && (!s.stage.Flushing? ==> s.futures[OfClear].Value?)
  }

  predicate SentOnce<J(==)>(ts: seq<J>, t: J) {
    forall i, j | 0 <= i < j < |ts| && ts[i] == t :: ts[j] != t
  }

  ghost predicate CallsOk(x: SinkState) {
    && (forall c | c in x.locked :: Call(HandleCall(c)) !in Sent(x.active))
    && (forall c :: SentOnce(Sent(x.active), Call(HandleCall(c))))
  }

  ghost predicate CallFutures(s: State) {
    && (forall k, c | OfCall(k, c) in s.futures :: k in s.sinks)
    && (forall k | k in s.sinks :: CallsOk(s.sinks[k]))
    && (forall k, c | k in s.sinks :: CallFuture(s, k, c))
  }

  ghost predicate FuturesInv(s: State) {
    && AddFutures(s) && ClearFuture(s) && CallFutures(s)
    && SentOnce(History(s), Call(ClearSinks))
  }

  // ----- How the verdict follows the queue

  lemma InSent<J>(a: Active<J>, gone: seq<Task<J>>, t: Task<J>)
    ensures t in Sent(a) + gone <==> t in a.executed || t in InHand(a) || t in a.queue || t in gone
  {
  }

  // A task that was sent once is in one place only.
  lemma OnePlace<J>(a: Active<J>, gone: seq<Task<J>>, t: Task<J>)
    requires SentOnce(Sent(a) + gone, t)
    ensures t in a.executed ==> t !in InHand(a) && t !in a.queue && t !in gone
    ensures t in InHand(a) ==> t !in a.queue
  {
    var h, n, m := Sent(a) + gone, |a.executed|, |InHand(a)|;
    assert forall i | 0 <= i < n :: h[i] == a.executed[i];
    assert forall i | 0 <= i < m :: h[n + i] == InHand(a)[i];
    assert forall i | 0 <= i < |a.queue| :: h[n + m + i] == a.queue[i];
    assert forall i | 0 <= i < |gone| :: h[n + m + |a.queue| + i] == gone[i];
  }

  lemma PushVerdict<J>(a: Active<J>, gone: seq<Task<J>>, u: Task<J>, t: Task<J>)
    requires t == u ==> t !in Sent(a)
    ensures Verdict(Push(a, u), gone, t) == if t == u then Pending else Verdict(a, gone, t)
  {
    InSent(a, [], t);
    assert Sent(a) + [] == Sent(a);
  }

  lemma PopVerdict<J>(a: Active<J>, gone: seq<Task<J>>, t: Task<J>)
    requires CanPop(a)
    ensures Verdict(Pop(a), gone, t) == Verdict(a, gone, t)
  {
    assert a.queue == [a.queue[0]] + a.queue[1..];
  }

  lemma FinishVerdict<J>(a: Active<J>, gone: seq<Task<J>>, t: Task<J>)
    requires a.hand.Some? && SentOnce(Sent(a) + gone, t)
    ensures Verdict(Finish(a), gone, t) == if t == a.hand.value then Value else Verdict(a, gone, t)
    ensures t == a.hand.value ==> Verdict(a, gone, t) == Pending
  {
    OnePlace(a, gone, t);
  }

  // ----- Jobs of the worker

  lemma VerdictStep(s: State, l: Label, t: WorkerTask)
    requires Enabled(s, l) && Valid(s.worker) && StageOk(s) && SentOnce(History(s), t)
    requires t in JobOf(l) ==> t !in History(s)
    ensures var v, v' := WorkerVerdict(s, t), WorkerVerdict(Apply(s, l), t);
            if Returning(l) && s.worker.hand.value == t then v' == Value && v == Pending
            else if Breaks(s, l, t) then v' == Broken && v == Pending
            else if t in JobOf(l) then v' == Pending
            else v' == v
  {
    hide Apply;
    OnePlace(s.worker, s.discarded, t);
    if l.DtorJoin? {
      JoinMoves(s);
      StageChange(s, l);
    } else if l.DtorBreak? || l.DtorFree? || l.DtorDiscarded? {
      DiscardVerdict(s, l, t);
    } else if !TouchesWorker(l) {
      OthersKeepWorker(s, l);
      OthersKeepDoomed(s, l);
    } else {
      OthersKeepDoomed(s, l);
      MoveVerdict(s, l, t);
    }
  }

  lemma MoveVerdict(s: State, l: Label, t: WorkerTask)
    requires Enabled(s, l) && Valid(s.worker) && StageOk(s) && SentOnce(History(s), t)
    requires TouchesWorker(l) && !l.DtorJoin? && Unbroken(s) == [] && Unbroken(Apply(s, l)) == []
    requires t in JobOf(l) ==> t !in History(s)
    ensures var v, v' := WorkerVerdict(s, t), WorkerVerdict(Apply(s, l), t);
            if Returning(l) && s.worker.hand.value == t then v' == Value && v == Pending
            else if t in JobOf(l) then v' == Pending
            else v' == v
  {
    hide Apply, Unbroken, Verdict;
    WorkerMoves(s, l);
    if l.WorkerPop? {
      PopVerdict(s.worker, s.discarded, t);
    } else if Returning(l) {
      FinishVerdict(s.worker, s.discarded, t);
    } else {
      InSent(s.worker, s.discarded, t);
      PushVerdict(s.worker, s.discarded, JobOf(l)[0], t);
    }
  }

  // ~Active breaks the promise of t, which has not run.
  predicate Breaks(s: State, l: Label, t: WorkerTask) {
    l.DtorBreak? && Discards(s, false) && s.stage.doomed[0] == t
  }

  lemma OthersKeepDoomed(s: State, l: Label)
    requires Enabled(s, l) && !l.DtorJoin? && !l.DtorBreak? && !l.DtorFree? && !l.DtorDiscarded?
    ensures Unbroken(Apply(s, l)) == Unbroken(s)
    ensures TouchesWorker(l) && StageOk(s) && Valid(s.worker) ==> s.discarded == [] && Unbroken(s) == []
  {
    StageChange(s, l);
  }

  lemma DiscardVerdict(s: State, l: Label, t: WorkerTask)
    requires Enabled(s, l) && Valid(s.worker) && StageOk(s) && SentOnce(History(s), t)
    requires l.DtorBreak? || l.DtorFree? || l.DtorDiscarded?
    ensures var v, v' := WorkerVerdict(s, t), WorkerVerdict(Apply(s, l), t);
            if Breaks(s, l, t) then v' == Broken && v == Pending else v' == v
  {
    hide Verdict;
    StageChange(s, l);
    OthersKeepWorker(s, l);
    if l.DtorBreak? {
      var d := s.stage.doomed;
      assert d == [d[0]] + d[1..];
      if d[0] == t {
        BrokenIsGone(s, t);
      }
    }
  }

  lemma BrokenIsGone(s: State, t: WorkerTask)
    requires Valid(s.worker) && StageOk(s) && SentOnce(History(s), t) && Discards(s, false) && s.stage.doomed[0] == t
    ensures t !in s.stage.doomed[1..] && Verdict(s.worker, s.discarded, t) == Broken
  {
    var d, h := s.stage.doomed, History(s);
    assert d[0] in s.discarded;
    OnePlace(s.worker, s.discarded, t);
    assert forall i | 0 <= i < |d| :: h[|h| - |d| + i] == d[i];
  }

  // The futures alone, after a step.
  function FuturesAfter(s: State, l: Label): map<FutId, FutState>
    requires Enabled(s, l)
  {
    match l
    case AddSinkCall(k) => s.futures[OfAdd(k) := Pending]
    case AddSinkRefused(k) => s.futures[OfAdd(k) := Failed]
    case HandleLock(k, c) => s.futures[OfCall(k, c) := if Strong(s, k) then Unmade else Failed]
    case HandleSend(k, c) => s.futures[OfCall(k, c) := Pending]
    case WorkerAdded => s.futures[OfAdd(s.worker.hand.value.job.sink) := Value]
    case WorkerCleared => s.futures[OfClear := Value]
    case SinkReturn(k) => AfterSinkTask(s.futures, k, s.sinks[k].active.hand.value)
    case DtorClear => s.futures[OfClear := Pending]
    case DtorBreak => Break(s.futures, s.stage.doomed[0])
    case _ => s.futures
  }

  lemma FuturesChange(s: State, l: Label)
    requires Enabled(s, l)
    ensures Apply(s, l).futures == FuturesAfter(s, l)
  {
    hide Strong, Unblocked, ClearingNow, WorkerReachable, Resolved, Break, AfterSinkTask;
  }

  // The only steps that assign the future of the add job of k.
  lemma AddFutureChange(s: State, l: Label, k: SinkId)
    requires Enabled(s, l)
    ensures var s', f := Apply(s, l), OfAdd(k);
            if l == AddSinkCall(k) then f in s'.futures && s'.futures[f] == Pending
            else if l == AddSinkRefused(k) then f in s'.futures && s'.futures[f] == Failed
            else if l.WorkerAdded? && s.worker.hand.value == Call(AddSink(k)) then f in s'.futures && s'.futures[f] == Value
            else if f in s.futures then f in s'.futures && s'.futures[f] ==
              if Breaks(s, l, Call(AddSink(k))) then Broken else s.futures[f]
            else Breaks(s, l, Call(AddSink(k))) || f !in s'.futures
  {
    hide Apply, Strong, Unblocked, ClearingNow, WorkerReachable, Resolved;
    FuturesChange(s, l);
  }

  ghost predicate AddFuture(s: State, k: SinkId) {
    if k in s.sinks then OfAdd(k) in s.futures && s.futures[OfAdd(k)] == WorkerVerdict(s, Call(AddSink(k)))
    else OfAdd(k) !in s.futures
  }

  lemma AddFutureStep(s: State, l: Label, k: SinkId)
    requires JobsOk(s) && Enabled(s, l) && AddFuture(s, k)
    ensures AddFuture(Apply(s, l), k)
  {
    hide Apply, Enabled, WorkerVerdict, JobsOk, Valid;
    AddJobFacts(s, l, k);
    VerdictStep(s, l, Call(AddSink(k)));
    AddFutureChange(s, l, k);
    SinksOnlyGrow(s, l);
  }

  lemma AddJobFacts(s: State, l: Label, k: SinkId)
    requires JobsOk(s) && Enabled(s, l)
    ensures Valid(s.worker) && StageOk(s) && SentOnce(History(s), Call(AddSink(k)))
    ensures Returning(l) && s.worker.hand == Some(Call(AddSink(k))) ==> l.WorkerAdded?
    ensures Returning(l) ==> s.worker.hand.Some?
    ensures Call(AddSink(k)) in JobOf(l) <==> l == AddSinkCall(k)
    ensures l == AddSinkCall(k) || l == AddSinkRefused(k) ==> k !in s.sinks
    ensures k !in s.sinks ==> Call(AddSink(k)) !in History(s) && WorkerVerdict(s, Call(AddSink(k))) == Failed
  {
    hide Strong, Unblocked, ClearingNow, Verdict;
    var t := Call(AddSink(k));
    UnbrokenIsDiscarded(s, t);
    if k !in s.sinks {
      InSent(s.worker, s.discarded, t);
      NotSentFails(s, t);
    }
  }

  lemma NotSentFails(s: State, t: WorkerTask)
    requires StageOk(s) && t !in History(s)
    ensures WorkerVerdict(s, t) == Failed
  {
    InSent(s.worker, s.discarded, t);
    UnbrokenIsDiscarded(s, t);
  }

  lemma ClearFutureChange(s: State, l: Label)
    requires Enabled(s, l)
    ensures var s', f := Apply(s, l), OfClear;
            if l.DtorClear? then f in s'.futures && s'.futures[f] == Pending
            else if l.WorkerCleared? then f in s'.futures && s'.futures[f] == Value
            else if f in s.futures then f in s'.futures && s'.futures[f] ==
              if Breaks(s, l, Call(ClearSinks)) then Broken else s.futures[f]
            else Breaks(s, l, Call(ClearSinks)) || f !in s'.futures
  {
    hide Apply, Strong, Unblocked, ClearingNow, WorkerReachable, Resolved;
    FuturesChange(s, l);
  }

  lemma StageChange(s: State, l: Label)
    requires Enabled(s, l)
    ensures Apply(s, l).stage ==
            if l.DtorClear? then Flushing else if l.DtorReset? then Stopping
            else if l.DtorJoin? then Discarding(s.worker.queue, false)
            else if l.DtorBreak? && s.stage.Discarding? then Discarding(s.stage.doomed, true)
            else if l.DtorFree? && Discards(s, true) then Discarding(s.stage.doomed[1..], false)
            else if l.DtorDiscarded? then Members else if l.DtorEnd? then Finished else s.stage
    ensures l.DtorClear? ==> s.stage.Up?
    ensures l.DtorReset? ==> s.stage.Flushing? && OfClear in s.futures && Resolved(s.futures[OfClear])
    ensures l.DtorJoin? ==> s.stage.Stopping?
    ensures l.DtorBreak? ==> Discards(s, false)
    ensures l.DtorFree? ==> Discards(s, true)
    ensures l.DtorDiscarded? ==> s.stage.Discarding? && s.stage.doomed == []
    ensures l.DtorEnd? ==> s.stage.Members?
  {
    hide Released, WorkerReachable, Strong, Free, Unblocked, ClearingNow, Break, JobOf, AllSent;
  }

  lemma ClearJobFacts(s: State, l: Label)
    requires Enabled(s, l)
    ensures Returning(l) ==> s.worker.hand.Some?
    ensures Returning(l) && s.worker.hand == Some(Call(ClearSinks)) <==> l.WorkerCleared?
    ensures Call(ClearSinks) in JobOf(l) <==> l.DtorClear?
  {
    hide Strong, Unblocked, ClearingNow, WorkerReachable;
  }

  lemma ClearFutureStep(s: State, l: Label)
    requires JobsOk(s) && Enabled(s, l) && ClearFuture(s) && SentOnce(History(s), Call(ClearSinks))
    ensures ClearFuture(Apply(s, l))
  {
    hide Apply, Enabled, WorkerVerdict;
    StageChange(s, l);
    ClearJobFacts(s, l);
    VerdictStep(s, l, Call(ClearSinks));
    ClearFutureChange(s, l);
    HistoryStep(s, l);
    assert l.DtorClear? ==> Call(ClearSinks) !in History(s);
  }

  lemma ClearSentOnce(s: State, l: Label)
    requires JobsOk(s) && Enabled(s, l) && ClearFuture(s) && SentOnce(History(s), Call(ClearSinks))
    ensures SentOnce(History(Apply(s, l)), Call(ClearSinks))
  {
    hide Apply, Enabled;
    StageChange(s, l);
    ClearJobFacts(s, l);
    HistoryStep(s, l);
    assert |JobOf(l)| <= 1;
  }

  // ----- Calls through a handle

  ghost predicate CallFuture(s: State, k: SinkId, c: CallId)
    requires k in s.sinks
  {
    if OfCall(k, c) in s.futures then s.futures[OfCall(k, c)] == CallVerdict(s.sinks[k], c)
    else c !in s.sinks[k].locked && Call(HandleCall(c)) !in Sent(s.sinks[k].active)
  }

  lemma CallFutureChange(s: State, l: Label, k: SinkId, c: CallId)
    requires Enabled(s, l) && k in s.sinks
    ensures k in Apply(s, l).sinks
    ensures var s', f := Apply(s, l), OfCall(k, c);
            if l == HandleLock(k, c) then f in s'.futures && s'.futures[f] == (if Strong(s, k) then Unmade else Failed)
            else if l == HandleSend(k, c) then f in s'.futures && s'.futures[f] == Pending
            else if l == SinkReturn(k) && s.sinks[k].active.hand == Some(Call(HandleCall(c))) then
              f in s'.futures && s'.futures[f] == Value
            else if f in s.futures then f in s'.futures && s'.futures[f] == s.futures[f]
            else f !in s'.futures
  {
    hide Apply, Strong, Unblocked, ClearingNow, WorkerReachable, Resolved;
    SinksOnlyGrow(s, l);
    FuturesChange(s, l);
  }

  lemma LockedChange(s: State, l: Label, k: SinkId)
    requires Enabled(s, l) && k in s.sinks
    ensures k in Apply(s, l).sinks
    ensures Apply(s, l).sinks[k].locked ==
            if l.HandleLock? && l.sink == k && Strong(s, k) then s.sinks[k].locked + {l.call}
            else if l.HandleSend? && l.sink == k then s.sinks[k].locked - {l.call}
            else s.sinks[k].locked
  {
    hide Released, JobHolds, ClientHolds;
    if !TouchesSinks(l) {
      OthersKeepSinks(s, l);
    }
  }

  lemma CallFutureStep(s: State, l: Label, k: SinkId, c: CallId)
    requires Enabled(s, l) && k in s.sinks && CallFuture(s, k, c) && CallsOk(s.sinks[k])
    ensures k in Apply(s, l).sinks && CallFuture(Apply(s, l), k, c)
  {
    CallFutureChange(s, l, k, c);
    LockedChange(s, l, k);
    ActiveChange(s, l, k);
    SentGrows(s, l, k);
    var a, t := s.sinks[k].active, Call(HandleCall(c));
    assert Sent(a) + [] == Sent(a);
    InSent(a, [], t);
    OnePlace(a, [], t);
    if l == SinkPop(k) {
      PopVerdict(a, [], t);
    } else if l == SinkReturn(k) {
      FinishVerdict(a, [], t);
    } else if Apply(s, l).sinks[k].active != a {
      var u := Apply(s, l).sinks[k].active.queue[|a.queue|];
      PushVerdict(a, [], u, t);
    }
  }

  lemma SentOnceGrows<J>(ts: seq<Task<J>>, us: seq<Task<J>>, t: Task<J>)
    requires SentOnce(ts, t) && |us| <= 1 && (t in us ==> t !in ts)
    ensures SentOnce(ts + us, t)
  {
  }

  lemma CallsOkStep(s: State, l: Label, k: SinkId)
    requires Enabled(s, l) && k in s.sinks && CallsOk(s.sinks[k])
    requires forall c :: CallFuture(s, k, c)
    ensures k in Apply(s, l).sinks && CallsOk(Apply(s, l).sinks[k])
  {
    LockedChange(s, l, k);
    ActiveChange(s, l, k);
    SentGrows(s, l, k);
    var x, x' := s.sinks[k], Apply(s, l).sinks[k];
    var us := Grown(x.active, x'.active);
    forall c ensures SentOnce(Sent(x'.active), Call(HandleCall(c))) {
      SentOnceGrows(Sent(x.active), us, Call(HandleCall(c)));
    }
    forall c | c in x'.locked ensures Call(HandleCall(c)) !in Sent(x'.active) {
      if l == HandleLock(k, c) {
        assert CallFuture(s, k, c);
      }
    }
  }

  lemma CallFuturesStep(s: State, l: Label)
    requires Enabled(s, l) && CallFutures(s)
    ensures CallFutures(Apply(s, l))
  {
    SinksOnlyGrow(s, l);
    var s' := Apply(s, l);
    forall k | k in s'.sinks ensures CallsOk(s'.sinks[k]) {
      if k in s.sinks {
        CallsOkStep(s, l, k);
      }
    }
    forall k, c | k in s'.sinks ensures CallFuture(s', k, c) {
      if k in s.sinks {
        CallFutureStep(s, l, k, c);
      } else {
        NewSinkHasNoCalls(s, l, c);
      }
    }
    forall k, c | OfCall(k, c) in s'.futures ensures k in s'.sinks {
      CallsBelongToSinks(s, l, k, c);
    }
  }

  lemma NewSinkHasNoCalls(s: State, l: Label, c: CallId)
    requires Enabled(s, l) && (l.AddSinkCall? || l.AddSinkRefused?) && OfCall(l.sink, c) !in s.futures
    ensures CallFuture(Apply(s, l), l.sink, c)
  {
  }

  lemma CallsBelongToSinks(s: State, l: Label, k: SinkId, c: CallId)
    requires Enabled(s, l) && OfCall(k, c) in Apply(s, l).futures
    ensures OfCall(k, c) in s.futures || k in s.sinks
  {
    hide Strong, Released, Free, Unblocked, ClearingNow;
    if !TouchesFutures(l) {
      OthersKeepFutures(s, l);
    }
  }

  // ----- Every run

  lemma FuturesStep(s: State, l: Label)
    requires Inv(s) && FuturesInv(s) && Enabled(s, l)
    ensures FuturesInv(Apply(s, l))
  {
    hide Apply, Enabled;
    forall k ensures AddFuture(Apply(s, l), k) {
      AddFutureStep(s, l, k);
    }
    ClearFutureStep(s, l);
    ClearSentOnce(s, l);
    CallFuturesStep(s, l);
  }

  lemma {:induction false} ReachableFutures(ls: seq<Label>, s: State)
    requires Run(ls) == Some(s)
    ensures Inv(s) && FuturesInv(s)
    decreases |ls|
  {
    ReachableInv(ls, s);
    if ls != [] {
      var b := Run(ls[..|ls| - 1]).value;
      ReachableFutures(ls[..|ls| - 1], b);
      FuturesStep(b, ls[|ls| - 1]);
    }
  }

  lemma AddIsFinal(s: State, l: Label, k: SinkId)
    requires JobsOk(s) && AddFuture(s, k) && Enabled(s, l) && OfAdd(k) in s.futures && Resolved(s.futures[OfAdd(k)])
    ensures OfAdd(k) in Apply(s, l).futures && Apply(s, l).futures[OfAdd(k)] == s.futures[OfAdd(k)]
  {
    AddFutureChange(s, l, k);
    VerdictStep(s, l, Call(AddSink(k)));
  }

  lemma ClearIsFinal(s: State, l: Label)
    requires JobsOk(s) && ClearFuture(s) && SentOnce(History(s), Call(ClearSinks)) && Enabled(s, l)
    requires OfClear in s.futures && Resolved(s.futures[OfClear])
    ensures OfClear in Apply(s, l).futures && Apply(s, l).futures[OfClear] == s.futures[OfClear]
  {
    StageChange(s, l);
    ClearJobFacts(s, l);
    ClearFutureChange(s, l);
    VerdictStep(s, l, Call(ClearSinks));
  }

  lemma CallIsFinal(s: State, l: Label, k: SinkId, c: CallId)
    requires k in s.sinks && CallFuture(s, k, c) && CallsOk(s.sinks[k]) && Enabled(s, l)
    requires OfCall(k, c) in s.futures && Resolved(s.futures[OfCall(k, c)])
    ensures OfCall(k, c) in Apply(s, l).futures && Apply(s, l).futures[OfCall(k, c)] == s.futures[OfCall(k, c)]
  {
    hide Apply;
    CallFutureChange(s, l, k, c);
    var a := s.sinks[k].active;
    assert Sent(a) + [] == Sent(a);
    OnePlace(a, [], Call(HandleCall(c)));
  }

  // No step assigns a future that has already been resolved.
  lemma ResolvedIsFinal(s: State, l: Label, f: FutId)
    requires Inv(s) && FuturesInv(s) && Enabled(s, l) && f in s.futures && Resolved(s.futures[f])
    ensures f in Apply(s, l).futures && Apply(s, l).futures[f] == s.futures[f]
  {
    hide Apply, Enabled, Resolved, JobsOk, RegistryOk, SinksOk;
    match f
    case OfAdd(k) => AddIsFinal(s, l, k);
    case OfClear => ClearIsFinal(s, l);
    case OfCall(k, c) => CallIsFinal(s, l, k, c);
  }

  // Over every run, a future that has been resolved keeps its result whatever happens next.
  lemma {:induction false} ResolvedAtMostOnce(ls: seq<Label>, more: seq<Label>, s: State, s': State, f: FutId)
    requires Run(ls) == Some(s) && Run(ls + more) == Some(s')
    requires f in s.futures && Resolved(s.futures[f])
    ensures f in s'.futures && s'.futures[f] == s.futures[f]
    decreases |more|
  {
    hide Enabled, Apply;
    if more == [] {
      assert ls + more == ls;
    } else {
      var n := |more| - 1;
      assert (ls + more)[..|ls + more| - 1] == ls + more[..n] && (ls + more)[|ls + more| - 1] == more[n];
      var b := Run(ls + more[..n]).value;
      ResolvedAtMostOnce(ls, more[..n], s, b, f);
      ReachableFutures(ls + more[..n], b);
      ResolvedIsFinal(b, more[n], f);
    }
  }

  // A call through a handle is never lost with its queue: its future has a value exactly when the call
  // has been executed by the sink, an error exactly when no task was made because the sink had
  // expired, and is open exactly while the caller or the sink's queue or hand still owns the task.
  lemma CallFutureIsWhereItsTaskIs(ls: seq<Label>, s: State, k: SinkId, c: CallId)
    requires Run(ls) == Some(s) && OfCall(k, c) in s.futures
    ensures k in s.sinks
    ensures var x, f, t := s.sinks[k], s.futures[OfCall(k, c)], Call(HandleCall(c));
            && !f.Broken?
            && (f.Value? <==> t in x.active.executed)
            && (f.Pending? <==> t in InHand(x.active) || t in x.active.queue)
            && (f.Unmade? <==> c in x.locked)
            && (f.Failed? <==> c !in x.locked && t !in Sent(x.active))
            && SentOnce(Sent(x.active), t)
  {
    ReachableFutures(ls, s);
    assert CallFuture(s, k, c) && CallsOk(s.sinks[k]);
    var a, t := s.sinks[k].active, Call(HandleCall(c));
    assert Sent(a) + [] == Sent(a);
    InSent(a, [], t);
    OnePlace(a, [], t);
  }

  // The future addSink waits for: a value once the sink is registered, broken from the moment ~Active
  // destroys the job that never ran, an error when the worker was gone before the job could be sent.
  lemma AddFutureIsWhereItsJobIs(ls: seq<Label>, s: State, k: SinkId)
    requires Run(ls) == Some(s) && k in s.sinks
    ensures OfAdd(k) in s.futures
    ensures var f, t := s.futures[OfAdd(k)], Call(AddSink(k));
            && (f.Value? <==> t in s.worker.executed)
            && (f.Pending? <==> t in InHand(s.worker) || t in s.worker.queue || t in Unbroken(s))
            && (f.Broken? <==> t in s.discarded && t !in Unbroken(s))
            && (f.Failed? <==> t !in JobsSent(ls))
  {
    ReachableFutures(ls, s);
    ReachableInv(ls, s);
    assert AddFuture(s, k);
    OnePlace(s.worker, s.discarded, Call(AddSink(k)));
    InSent(s.worker, s.discarded, Call(AddSink(k)));
    UnbrokenIsDiscarded(s, Call(AddSink(k)));
    if Call(AddSink(k)) in s.discarded {
      DiscardedElsewhere(s, Call(AddSink(k)));
    }
  }

  lemma UnbrokenIsDiscarded(s: State, t: WorkerTask)
    requires StageOk(s)
    ensures t in Unbroken(s) ==> t in s.discarded
  {
  }

  lemma DiscardedElsewhere(s: State, t: WorkerTask)
    requires StageOk(s) && Valid(s.worker) && t in s.discarded
    ensures s.worker.queue == [] && s.worker.hand.None?
  {
  }

  // When a sink has been destroyed, no caller is left waiting: every call either ran or was refused.
  lemma DestroyedSinkLeavesNoOpenCall(ls: seq<Label>, s: State, k: SinkId, c: CallId)
    requires Run(ls) == Some(s) && OfCall(k, c) in s.futures && k in s.sinks && s.sinks[k].life.Dead?
    ensures s.futures[OfCall(k, c)].Value? || s.futures[OfCall(k, c)].Failed?
  {
    CallFutureIsWhereItsTaskIs(ls, s, k, c);
    DestroyedSinkIsDrained(ls, s, k);
    LivesExactlyWhileReferenced(ls, s, k);
  }
}
