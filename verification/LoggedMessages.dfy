// From the log call to the sink: the global logger of g3log.cpp and the pipelines of all workers together.
module LoggedMessages {
  import opened Common
  import opened ActiveObject
  import opened Pipeline
  import opened PipelineSpec
  import opened PipelineOwnership
  import opened PipelineDelivery
  import GL = GlobalLogger
  import PipelineFutures
  import PipelineProgress
  import PipelineShutdown
  import PipelineTheorems
  import DefaultLoggers

  // The jobs of save and fatal among the worker's jobs; the others come from addSink and the destructor.
  function Handed(ts: seq<WorkerTask>): seq<WorkerJob> {
    if ts == [] then []
    else (if IsMessage(ts[0]) then [ts[0].job] else []) + Handed(ts[1..])
  }

  predicate IsMessage(t: WorkerTask) {
    t.Call? && (t.job.Save? || t.job.Fatal?)
  }

  // The messages as a sink receives them.
  function Texts(jobs: seq<WorkerJob>): seq<Message> {
    if jobs == [] then [] else TextOf(jobs[0]) + Texts(jobs[1..])
  }

  function TextOf(j: WorkerJob): seq<Message> {
    match j
    case Save(m) => [m]
    case Fatal(m) => [FatalReport(m)]
    case _ => []
  }

  lemma {:induction false} HandedConcat(a: seq<WorkerTask>, b: seq<WorkerTask>)
    ensures Handed(a + b) == Handed(a) + Handed(b)
    decreases |a|
  {
    if a == [] {
      assert a + b == b;
    } else {
      assert (a + b)[0] == a[0] && (a + b)[1..] == a[1..] + b;
      HandedConcat(a[1..], b);
      Regroup(if IsMessage(a[0]) then [a[0].job] else [], Handed(a[1..]), Handed(b));
    }
  }

  lemma Regroup(x: seq<WorkerJob>, y: seq<WorkerJob>, z: seq<WorkerJob>)
    ensures x + (y + z) == x + y + z
  {
  }

  lemma {:induction false} MessagesAreTexts(ts: seq<WorkerTask>)
    ensures Messages(ts) == Texts(Handed(ts))
    decreases |ts|
  {
    if ts != [] {
      MessagesAreTexts(ts[1..]);
      var rest := Handed(ts[1..]);
      if IsMessage(ts[0]) {
        assert ([ts[0].job] + rest)[1..] == rest;
      } else {
        assert [] + rest == rest;
      }
    }
  }

  // The part of the jobs handed over that falls between the positions i and j of the history.
  lemma HandedPart(ts: seq<WorkerTask>, i: nat, j: nat)
    requires i <= j <= |ts|
    ensures |Handed(ts[..i])| + |Handed(ts[i..j])| <= |Handed(ts)|
    ensures Handed(ts)[|Handed(ts[..i])|..|Handed(ts[..i])| + |Handed(ts[i..j])|] == Handed(ts[i..j])
  {
    hide Handed;
    assert ts == ts[..i] + (ts[i..j] + ts[j..]);
    HandedConcat(ts[..i], ts[i..j] + ts[j..]);
    HandedConcat(ts[i..j], ts[j..]);
  }

  // ----- The program and the pipelines of its workers, together

  // Does: a call of g3log.cpp. Raises: a fatal message gets to the end of fatalCall, which
  // FatalDefault.InnermostFatalIsSent identifies. Quits: a worker takes a fatal job, which begins by
  // shutting logging down. Moves: any other step in the pipeline of one worker.
  datatype Step =
    | Does(op: GL.Op)
    | Raises(msg: Message)
    | Quits(worker: GL.WorkerId)
    | Moves(worker: GL.WorkerId, step: Label)

  // What the step is for the pipeline of worker w: LogWorker::save, LogWorker::fatal or ~LogWorker.
  function LabelsOf(g: GL.Globals, st: Step, w: GL.WorkerId): seq<Label> {
    match st
    case Does(op) => LabelsOfCall(g, op, w)
    case Raises(m) => if g.logger == Some(w) then [FatalCall(m)] else []
    case Quits(v) => if v == w then [WorkerPop] else []
    case Moves(v, l) => if v == w then [l] else []
  }

  function LabelsOfCall(g: GL.Globals, op: GL.Op, w: GL.WorkerId): seq<Label> {
    match op
    case Log(m) => if g.logger == Some(w) then [SaveCall(m)] else []
    case Initialize(v) =>
      if g.logger.None? && v == Some(w) && !g.firstSaved && g.first.Some? then [SaveCall(g.first.value)] else []
    case Destroy(v, on) => if v == w then [DtorClear] else if on && g.logger == Some(w) then [SaveCall(GL.NotActive)] else []
    case _ => []
  }

  // A fatal message without a logger ends the process in the handler's other branch.
  function Next(g: GL.Globals, st: Step): GL.Globals {
    match st
    case Does(op) => GL.After(g, op)
    case Raises(m) => if g.logger.Some? then GL.Give(g, g.logger.value, Fatal(m)) else g.(exited := true)
    case Quits(_) => GL.After(g, GL.ShutDown)
    case Moves(_, _) => g
  }

  function GlobalsAfter(sts: seq<Step>): GL.Globals
    decreases |sts|
  {
    if sts == [] then GL.AtStart else Next(GlobalsAfter(sts[..|sts| - 1]), sts[|sts| - 1])
  }

  // The run of worker w's pipeline.
  function Trace(sts: seq<Step>, w: GL.WorkerId): seq<Label>
    decreases |sts|
  {
    if sts == [] then []
    else Trace(sts[..|sts| - 1], w) + LabelsOf(GlobalsAfter(sts[..|sts| - 1]), sts[|sts| - 1], w)
  }

  predicate EndedProcess(ls: seq<Label>) {
    Run(ls).Some? && Run(ls).value.exited
  }

  // Calls of g3log.cpp are the only ones that log through the global pointer and destroy workers.
  predicate Internal(l: Label) {
    !l.SaveCall? && !l.FatalCall? && !l.DtorClear?
  }

  // The next job of the worker is a fatal one.
  predicate FatalIsNext(ls: seq<Label>) {
    Run(ls).Some? && (var q := Run(ls).value.worker.queue; q != [] && q[0].Call? && q[0].job.Fatal?)
  }

  // Whether the pipelines accept what a call sends them is not asked here: it is proved below.
  predicate Possible(before: seq<Step>, st: Step) {
    var g := GlobalsAfter(before);
    && !g.exited && (forall w | w in g.given :: !EndedProcess(Trace(before, w)))
    && match st
       case Does(op) => GL.Legal(g, op)
       case Raises(_) => true
       case Quits(w) => w in g.given && FatalIsNext(Trace(before, w)) && Run(Trace(before, w) + [WorkerPop]).Some?
       case Moves(w, l) =>
         && w in g.given && Internal(l) && !(l.WorkerPop? && FatalIsNext(Trace(before, w)))
         && Run(Trace(before, w) + [l]).Some?
  }

  predicate Legal(sts: seq<Step>)
    decreases |sts|
  {
    sts == [] || (Legal(sts[..|sts| - 1]) && Possible(sts[..|sts| - 1], sts[|sts| - 1]))
  }

  // ----- What the pipelines are sent is what was logged

  function HandedBy(l: Label): seq<WorkerJob> {
    match l
    case SaveCall(m) => [Save(m)]
    case FatalCall(m) => [Fatal(m)]
    case _ => []
  }

  lemma HandedSnoc(ls: seq<Label>, l: Label)
    ensures Handed(JobsSent(ls + [l])) == Handed(JobsSent(ls)) + HandedBy(l)
  {
    hide Handed;
    assert (ls + [l])[..|ls|] == ls;
    HandedConcat(JobsSent(ls), JobOf(l));
    HandedOne(l);
  }

  lemma HandedOne(l: Label)
    ensures Handed(JobOf(l)) == HandedBy(l)
  {
    if JobOf(l) != [] {
      assert JobOf(l)[1..] == [];
    }
  }

  // The pipeline of w keeps up with the globals: every step so far was possible in it, its destructor has
  // begun exactly when w is not alive any more, and what it was handed is what g3log.cpp has given to w.
  ghost predicate Follows(g: GL.Globals, ls: seq<Label>, w: GL.WorkerId) {
    && Run(ls).Some?
    && (w in g.given ==> (w in g.alive <==> Run(ls).value.stage.Up?))
    && (w !in g.given ==> ls == [])
    && Handed(JobsSent(ls)) == GL.GivenTo(g, w)
  }

  lemma {:induction false} LegalKeepsAlive(sts: seq<Step>)
    requires Legal(sts)
    ensures GL.ActiveIsAlive(GlobalsAfter(sts))
    decreases |sts|
  {
    hide GL.ActiveIsAlive, GL.After;
    if sts == [] {
      GL.StartIsAlive();
    } else {
      var n := |sts| - 1;
      LegalKeepsAlive(sts[..n]);
      match sts[n]
      case Does(op) => GL.StepKeepsAlive(GlobalsAfter(sts[..n]), op);
      case Raises(m) => RaiseKeepsAlive(GlobalsAfter(sts[..n]), sts[n]);
      case Quits(_) => GL.StepKeepsAlive(GlobalsAfter(sts[..n]), GL.ShutDown);
      case Moves(_, _) =>
    }
  }

  lemma RaiseKeepsAlive(g: GL.Globals, st: Step)
    requires GL.ActiveIsAlive(g) && st.Raises?
    ensures GL.ActiveIsAlive(Next(g, st))
  {
  }

  // The globals give w exactly what the labels hand to it, which is one message at most.
  lemma GivenStep(g: GL.Globals, st: Step, w: GL.WorkerId)
    requires GL.ActiveIsAlive(g) && (st.Does? ==> GL.Legal(g, st.op)) && (st.Moves? ==> Internal(st.step))
    ensures var g', ls := Next(g, st), LabelsOf(g, st, w);
            && |ls| <= 1
            && GL.GivenTo(g', w) == GL.GivenTo(g, w) + (if ls == [] then [] else HandedBy(ls[0]))
            && (w !in g.given && st.Does? ==> ls == [])
            && (ls != [] && !st.Moves? && !st.Quits? ==> w in g.alive && w in g.given)
  {
    hide GL.Early, GL.AfterInitialize, GL.AfterShutDownFor;
    if st.Does? && st.op.Initialize? {
      InitializeGives(g, st.op.worker, w);
    } else if st.Does? && st.op.Destroy? {
      DestroyGives(g, st.op.w, st.op.warningOn, w);
    }
  }

  // Only Create makes a worker, and only Destroy ends one.
  lemma AliveStep(g: GL.Globals, st: Step, w: GL.WorkerId)
    requires GL.ActiveIsAlive(g) && (st.Does? ==> GL.Legal(g, st.op)) && (st.Moves? ==> Internal(st.step))
    ensures var g', ls := Next(g, st), LabelsOf(g, st, w);
            && (w in g'.alive ==> (w in g.alive && DtorClear !in ls) || (w !in g.given && ls == [] && !st.Moves? && !st.Quits?))
            && (w in g'.given && w !in g'.alive ==> w in g.given && (w !in g.alive || DtorClear in ls))
            && (w !in g'.given ==> w !in g.given)
  {
    hide GL.Early, GL.GivenTo, GL.AfterInitialize, GL.AfterShutDownFor;
    if st.Does? && st.op.Initialize? {
      InitializeGives(g, st.op.worker, w);
    } else if st.Does? && st.op.Destroy? {
      DestroyGives(g, st.op.w, st.op.warningOn, w);
    }
  }

  lemma InitializeGives(g: GL.Globals, v: Option<GL.WorkerId>, w: GL.WorkerId)
    requires GL.ActiveIsAlive(g) && GL.Legal(g, GL.Initialize(v))
    ensures var g', ls := GL.AfterInitialize(g, v), LabelsOfCall(g, GL.Initialize(v), w);
            && GL.GivenTo(g', w) == GL.GivenTo(g, w) + (if ls == [] then [] else HandedBy(ls[0]))
            && g'.alive == g.alive && (w in g.given <==> w in g'.given) && (ls != [] ==> w in g.alive && w in g.given)
  {
  }

  lemma DestroyGives(g: GL.Globals, v: GL.WorkerId, on: bool, w: GL.WorkerId)
    requires GL.ActiveIsAlive(g) && GL.Legal(g, GL.Destroy(v, on))
    ensures var g', ls := GL.AfterShutDownFor(g, Some(v), on), LabelsOfCall(g, GL.Destroy(v, on), w);
            && GL.GivenTo(g', w) == GL.GivenTo(g, w) + (if ls == [] then [] else HandedBy(ls[0]))
            && g'.alive == g.alive && (w in g.given <==> w in g'.given) && (ls != [] ==> w in g.alive && w in g.given)
  {
  }

  lemma CallIsEnabled(s: State, l: Label)
    requires s.stage.Up? && !s.exited && (l.SaveCall? || l.FatalCall? || l.DtorClear?)
    ensures Enabled(s, l)
  {
  }

  lemma StaysUp(s: State, l: Label)
    requires Enabled(s, l) && s.stage.Up? && !l.DtorClear?
    ensures Apply(s, l).stage.Up?
  {
    hide Apply;
    PipelineFutures.StageChange(s, l);
  }

  lemma StaysDown(s: State, l: Label)
    requires Enabled(s, l) && (l.DtorClear? || !s.stage.Up?)
    ensures !Apply(s, l).stage.Up?
  {
    hide Apply;
    PipelineFutures.StageChange(s, l);
  }

  lemma FollowsStep(before: seq<Step>, st: Step, w: GL.WorkerId)
    requires Legal(before) && Possible(before, st) && Follows(GlobalsAfter(before), Trace(before, w), w)
    ensures var g := GlobalsAfter(before); Follows(Next(g, st), Trace(before, w) + LabelsOf(g, st, w), w)
  {
    hide Handed, JobsSent, Apply, Enabled, LabelsOf, Next, Legal, GL.ActiveIsAlive;
    var g, ls := GlobalsAfter(before), Trace(before, w);
    LegalKeepsAlive(before);
    GivenStep(g, st, w);
    AliveStep(g, st, w);
    var more := LabelsOf(g, st, w);
    if more == [] {
      assert ls + more == ls;
    } else {
      var l := more[0];
      assert more == [l] && (ls + [l])[..|ls|] == ls;
      HandedSnoc(ls, l);
      OneLabel(g, st, w, l);
      if !st.Moves? && !st.Quits? {
        CallIsEnabled(Run(ls).value, l);
      }
      assert Enabled(Run(ls).value, l);
      if w in g.alive && !l.DtorClear? {
        StaysUp(Run(ls).value, l);
      } else {
        StaysDown(Run(ls).value, l);
      }
    }
  }

  lemma OneLabel(g: GL.Globals, st: Step, w: GL.WorkerId, l: Label)
    requires LabelsOf(g, st, w) == [l]
    ensures if st.Moves? then st == Moves(w, l)
            else if st.Quits? then st == Quits(w) && l == WorkerPop
            else l.SaveCall? || l.FatalCall? || l.DtorClear?
    ensures DtorClear in LabelsOf(g, st, w) <==> l.DtorClear?
  {
  }

  // Over every legal run of program and pipelines, every call is possible in the pipelines it concerns,
  // and the jobs that save and fatal have sent to a worker are those given to it by g3log.cpp.
  lemma {:induction false} EveryCallReachesItsPipeline(sts: seq<Step>, w: GL.WorkerId)
    requires Legal(sts)
    ensures Follows(GlobalsAfter(sts), Trace(sts, w), w)
    decreases |sts|
  {
    hide Follows, LabelsOf, Next, Possible;
    if sts == [] {
      FollowsAtStart(w);
    } else {
      var n := |sts| - 1;
      EveryCallReachesItsPipeline(sts[..n], w);
      FollowsStep(sts[..n], sts[n], w);
    }
  }

  lemma FollowsAtStart(w: GL.WorkerId)
    ensures Follows(GL.AtStart, [], w)
  {
  }

  // ----- What a program logs, read off its own steps

  function Ops(sts: seq<Step>): seq<GL.Op>
    decreases |sts|
  {
    if sts == [] then []
    else Ops(sts[..|sts| - 1]) + OpOf(sts[|sts| - 1])
  }

  function OpOf(st: Step): seq<GL.Op> {
    match st
    case Does(op) => [op]
    case Quits(_) => [GL.ShutDown]
    case _ => []
  }

  // Each message goes to whichever worker is active when it is logged or raised.
  function DirectlyTo(active: Option<GL.WorkerId>, st: Step, w: GL.WorkerId): seq<WorkerJob> {
    match st
    case Does(op) => GL.DirectOf(active, op, w)
    case Raises(m) => if active == Some(w) then [Fatal(m)] else []
    case _ => []
  }

  function Directly(active: Option<GL.WorkerId>, sts: seq<Step>, w: GL.WorkerId): seq<WorkerJob>
    decreases |sts|
  {
    if sts == [] then []
    else
      var before := sts[..|sts| - 1];
      Directly(active, before, w) + DirectlyTo(GL.ActiveAfter(active, Ops(before)), sts[|sts| - 1], w)
  }

  // What a program logs through the global pointer to worker w, in order, when its first initialization
  // is with worker v: the early message if there was one, then everything while w was the active worker.
  function Logged(pre: seq<Step>, v: GL.WorkerId, post: seq<Step>, w: GL.WorkerId): seq<WorkerJob> {
    var early := GL.FirstLog(Ops(pre));
    (if w == v && early.Some? then [Save(GL.Early(early.value))] else []) + Directly(Some(v), post, w)
  }

  lemma {:induction false} LegalPrefix(sts: seq<Step>, more: seq<Step>)
    requires Legal(sts + more)
    ensures Legal(sts)
    decreases |more|
  {
    if more == [] {
      assert sts + more == sts;
    } else {
      assert (sts + more)[..|sts + more| - 1] == sts + more[..|more| - 1];
      LegalPrefix(sts, more[..|more| - 1]);
    }
  }

  lemma {:induction false} BeforeFirst(pre: seq<Step>)
    requires Legal(pre) && !GlobalsAfter(pre).exited && GL.NoInitialize(Ops(pre))
    ensures GL.Quiet(GlobalsAfter(pre))
    ensures var g, early := GlobalsAfter(pre), GL.FirstLog(Ops(pre));
            && (g.firstSet <==> early.Some?)
            && g.first == if early.Some? then Some(GL.Early(early.value)) else None
    decreases |pre|
  {
    hide GL.Early, GL.Legal, GL.FirstLog, GL.Quiet, GL.NoInitialize, Next, Legal, Possible, OpOf;
    if pre == [] {
      NothingYet();
    } else {
      var n := |pre| - 1;
      LegalLast(pre);
      SplitOps(pre);
      BeforeFirst(pre[..n]);
      QuietNext(GlobalsAfter(pre[..n]), pre[n], Ops(pre[..n]));
    }
  }

  lemma SplitOps(sts: seq<Step>)
    requires sts != [] && GL.NoInitialize(Ops(sts))
    ensures GL.NoInitialize(Ops(sts[..|sts| - 1])) && forall op | op in OpOf(sts[|sts| - 1]) :: !op.Initialize?
  {
    hide OpOf;
    assert forall op | op in Ops(sts[..|sts| - 1]) :: op in Ops(sts);
    assert forall op | op in OpOf(sts[|sts| - 1]) :: op in Ops(sts);
  }

  // One step while nobody has initialized; a fatal message would end the process.
  lemma QuietNext(g: GL.Globals, st: Step, ops: seq<GL.Op>)
    requires GL.Quiet(g) && !Next(g, st).exited && forall op | op in OpOf(st) :: GL.Legal(g, op) && !op.Initialize?
    requires g.firstSet <==> GL.FirstLog(ops).Some?
    requires g.first == if GL.FirstLog(ops).Some? then Some(GL.Early(GL.FirstLog(ops).value)) else None
    ensures var h, early := Next(g, st), GL.FirstLog(ops + OpOf(st));
            && GL.Quiet(h) && (h.firstSet <==> early.Some?)
            && h.first == (if early.Some? then Some(GL.Early(early.value)) else None)
  {
    hide GL.Early, GL.After, GL.Legal, GL.FirstLog;
    if OpOf(st) == [] {
      assert ops + [] == ops;
    } else {
      var op := OpOf(st)[0];
      assert OpOf(st) == [op] && op in OpOf(st);
      GL.FirstLogSnoc(ops, op);
      GL.QuietStep(g, op);
    }
  }

  lemma NothingYet()
    ensures GL.FirstLog([]) == None && GL.Quiet(GL.AtStart)
  {
  }

  lemma {:induction false} AfterFirst(base: seq<Step>, post: seq<Step>, w: GL.WorkerId)
    requires Legal(base + post) && GlobalsAfter(base).firstSaved
    ensures var g, h := GlobalsAfter(base), GlobalsAfter(base + post);
            && h.firstSaved && h.logger == GL.ActiveAfter(g.logger, Ops(post))
            && GL.GivenTo(h, w) == GL.GivenTo(g, w) + Directly(g.logger, post, w)
    decreases |post|
  {
    hide GL.After, GL.Legal, GL.ActiveIsAlive, GL.ActiveNext, GL.GivenTo, Next, DirectlyTo, Legal, Possible, Ops;
    if post == [] {
      assert base + post == base && Ops(post) == [] by { NoOps(); }
    } else {
      var n := |post| - 1;
      assert (base + post)[..|base + post| - 1] == base + post[..n] && (base + post)[|base + post| - 1] == post[n];
      LegalLast(base + post);
      AfterFirst(base, post[..n], w);
      LegalKeepsAlive(base + post[..n]);
      DirectlyStep(GlobalsAfter(base + post[..n]), post[n], w);
      ActiveSnoc(GlobalsAfter(base).logger, post);
    }
  }

  lemma NoOps()
    ensures Ops([]) == []
  {
  }

  lemma LegalLast(sts: seq<Step>)
    requires sts != [] && Legal(sts)
    ensures var before, st := sts[..|sts| - 1], sts[|sts| - 1];
            Legal(before) && !GlobalsAfter(before).exited && forall op | op in OpOf(st) :: GL.Legal(GlobalsAfter(before), op)
  {
  }

  lemma ActiveSnoc(active: Option<GL.WorkerId>, sts: seq<Step>)
    requires sts != []
    ensures var before, st := GL.ActiveAfter(active, Ops(sts[..|sts| - 1])), sts[|sts| - 1];
            GL.ActiveAfter(active, Ops(sts)) == if OpOf(st) != [] then GL.ActiveNext(before, OpOf(st)[0]) else before
  {
    hide GL.ActiveNext;
    var n := |sts| - 1;
    if OpOf(sts[n]) != [] {
      assert Ops(sts)[..|Ops(sts)| - 1] == Ops(sts[..n]);
    } else {
      assert Ops(sts) == Ops(sts[..n]);
    }
  }

  lemma DirectlyStep(g: GL.Globals, st: Step, w: GL.WorkerId)
    requires (forall op | op in OpOf(st) :: GL.Legal(g, op)) && g.firstSaved && GL.ActiveIsAlive(g)
    ensures var h := Next(g, st);
            && h.firstSaved && h.logger == (if OpOf(st) != [] then GL.ActiveNext(g.logger, OpOf(st)[0]) else g.logger)
            && GL.GivenTo(h, w) == GL.GivenTo(g, w) + DirectlyTo(g.logger, st, w)
  {
    hide GL.After, GL.Legal, GL.ActiveIsAlive;
    if OpOf(st) != [] {
      assert OpOf(st)[0] in OpOf(st);
      GL.DirectStep(g, OpOf(st)[0], w);
    }
  }

  lemma GivenIsLogged(pre: seq<Step>, v: GL.WorkerId, post: seq<Step>, w: GL.WorkerId)
    requires GL.NoInitialize(Ops(pre)) && Legal(pre + [Does(GL.Initialize(Some(v)))] + post)
    ensures GL.GivenTo(GlobalsAfter(pre + [Does(GL.Initialize(Some(v)))] + post), w) == Logged(pre, v, post, w)
  {
    hide GL.Early, GL.FirstLog, GL.NoInitialize, Directly, Ops;
    var st := Does(GL.Initialize(Some(v)));
    var base := pre + [st];
    assert base[..|base| - 1] == pre;
    LegalPrefix(base, post);
    var g := GlobalsAfter(pre);
    BeforeFirst(pre);
    LegalKeepsAlive(pre);
    assert GL.GivenTo(g, w) == [] && GL.GivenTo(g, v) == [];
    AfterFirst(base, post, w);
  }

  // ----- From the log call to the sink

  // Job a of the history adds sink k, and the stretch of jobs that k then receives ends at position end.
  ghost predicate StretchOf(jobs: seq<WorkerTask>, a: nat, k: SinkId, end: nat) {
    && a < |jobs| && Adds(jobs[a], k) && (forall t | t in jobs[..a] :: Runs(t))
    && end == a + 1 + StretchEnd(jobs[a + 1..])
  }

  // In every quiet state of a worker's pipeline each of its sinks has executed exactly a contiguous
  // stretch of what the program logged to that worker: from the first message logged after the sink was
  // added to the last one before it was removed, none lost, doubled or reordered on the way from the
  // log call.
  lemma SinkExecutesWhatWasLogged(pre: seq<Step>, v: GL.WorkerId, post: seq<Step>, w: GL.WorkerId,
                                  s: State, k: SinkId, a: nat, end: nat)
    requires var sts := pre + [Does(GL.Initialize(Some(v)))] + post;
             && GL.NoInitialize(Ops(pre)) && Legal(sts)
             && Run(Trace(sts, w)) == Some(s) && PipelineProgress.Quiet(s) && k in s.sinks
             && StretchOf(JobsSent(Trace(sts, w)), a, k, end)
    ensures var jobs := JobsSent(Trace(pre + [Does(GL.Initialize(Some(v)))] + post, w));
            && a < end <= |jobs|
            && var from, to := |Handed(jobs[..a + 1])|, |Handed(jobs[..end])|;
               && from <= to <= |Logged(pre, v, post, w)|
               && LogMessages(s.sinks[k].active.executed) == Texts(Logged(pre, v, post, w)[from..to])
  {
    hide JobsSent, Handed, Texts, Slice, LogMessages, Logged, Ops, GL.GivenTo, GL.NoInitialize, Run, Legal, GlobalsAfter,
         Trace, StretchOf, PipelineProgress.Quiet;
    var sts := pre + [Does(GL.Initialize(Some(v)))] + post;
    EveryCallReachesItsPipeline(sts, w);
    GivenIsLogged(pre, v, post, w);
    PipelineProgress.QuietMeansDelivered(Trace(sts, w), s, k);
    DefaultLoggers.JobsAddedOnce(Trace(sts, w), s);
    SliceIsTexts(JobsSent(Trace(sts, w)), a, k, end);
  }

  // And when a fatal message has ended the process: each sink that was registered then and that no
  // client held has executed what was logged from its add job on up to and including that message.
  lemma FatalExitExecutesWhatWasLogged(pre: seq<Step>, v: GL.WorkerId, post: seq<Step>, w: GL.WorkerId,
                                       s: State, k: SinkId, a: nat)
    requires var sts := pre + [Does(GL.Initialize(Some(v)))] + post;
             && GL.NoInitialize(Ops(pre)) && Legal(sts)
             && Run(Trace(sts, w)) == Some(s) && s.exited
    requires k in RegistryAfter(s.worker.executed) && k !in s.outlived
    requires a < |s.worker.executed| && Adds(s.worker.executed[a], k)
    ensures FatalInHand(s) && k in s.sinks
    ensures var got, m := LogMessages(s.sinks[k].active.executed), s.worker.hand.value.job.msg;
            got != [] && got[|got| - 1] == Message(m.level, m.text, true)
    ensures var from, to := |Handed(s.worker.executed[..a + 1])|, |Handed(s.worker.executed)| + 1;
            && from < to <= |Logged(pre, v, post, w)|
            && Logged(pre, v, post, w)[to - 1] == s.worker.hand.value.job
            && LogMessages(s.sinks[k].active.executed) == Texts(Logged(pre, v, post, w)[from..to])
  {
    hide JobsSent, Handed, Texts, Slice, LogMessages, Logged, Ops, GL.GivenTo, GL.NoInitialize, Run, Legal, GlobalsAfter,
         Trace, RegistryAfter;
    var sts := pre + [Does(GL.Initialize(Some(v)))] + post;
    var ls, e := Trace(sts, w), s.worker.executed;
    EveryCallReachesItsPipeline(sts, w);
    GivenIsLogged(pre, v, post, w);
    PipelineShutdown.FatalIsTheLastMessage(ls, s, k);
    assert FatalReport(s.worker.hand.value.job.msg).closing;
    PipelineShutdown.FatalIsTheLastJob(ls, s);
    DefaultLoggers.JobsAddedOnce(ls, s);
    assert JobsSent(ls) == e + [s.worker.hand.value] + s.worker.queue;
    FatalStretch(JobsSent(ls), e, s.worker.hand.value, a, k);
  }

  // Until the fatal job t, which comes after the jobs e, sink k stays registered.
  lemma FatalStretch(jobs: seq<WorkerTask>, e: seq<WorkerTask>, t: WorkerTask, a: nat, k: SinkId)
    requires e + [t] <= jobs && t.Call? && t.job.Fatal? && (forall u | u in e :: Runs(u))
    requires forall i, j | 0 <= i < j < |jobs| && jobs[i].Call? && jobs[i].job.AddSink? :: jobs[i] != jobs[j]
    requires a < |e| && Adds(e[a], k) && k in RegistryAfter(e)
    ensures var from, to := |Handed(e[..a + 1])|, |Handed(e)| + 1;
            && from < to <= |Handed(jobs)| && Handed(jobs)[to - 1] == t.job
            && Slice(Absent, e, k) + [FatalReport(t.job.msg)] == Texts(Handed(jobs)[from..to])
  {
    hide Handed, Texts, Slice, RegistryAfter, StandingAfter;
    var upto := e + [t];
    assert jobs == upto + jobs[|upto|..];
    assert forall i | 0 <= i < |upto| :: upto[i] == jobs[i];
    StretchThrough(upto, a, k);
    SliceIsTexts(upto, a, k, |upto|);
    PresentIffRegistered(e, k);
    SliceSnoc(Absent, e, t, k);
    HandedConcat(upto, jobs[|upto|..]);
    HandedConcat(e, [t]);
    HandedFatal(t);
    assert upto[..a + 1] == e[..a + 1] && upto[..|upto|] == upto;
    assert e == e[..a + 1] + e[a + 1..];
    HandedConcat(e[..a + 1], e[a + 1..]);
    var from, to := |Handed(e[..a + 1])|, |Handed(e)| + 1;
    assert Handed(upto) == Handed(e) + [t.job];
    assert Handed(jobs)[..to] == Handed(upto);
    assert Handed(jobs)[from..to] == Handed(upto)[from..to];
    assert Slice(Absent, upto, k) == Slice(Absent, e, k) + [FatalReport(t.job.msg)];
  }

  lemma HandedFatal(t: WorkerTask)
    requires t.Call? && t.job.Fatal?
    ensures Handed([t]) == [t.job]
  {
    assert [t][1..] == [];
  }

  lemma StretchThrough(upto: seq<WorkerTask>, a: nat, k: SinkId)
    requires upto != [] && upto[|upto| - 1].Call? && upto[|upto| - 1].job.Fatal?
    requires var e := upto[..|upto| - 1]; (forall u | u in e :: Runs(u)) && a < |e| && Adds(e[a], k) && k in RegistryAfter(e)
    requires forall i, j | 0 <= i < j < |upto| && upto[i].Call? && upto[i].job.AddSink? :: upto[i] != upto[j]
    ensures StretchOf(upto, a, k, |upto|)
  {
    hide RegistryAfter;
    var e, rest := upto[..|upto| - 1], upto[a + 1..];
    AddedOnlyThere(upto, a, k);
    assert forall i | 0 <= i < |e| :: e[i] == upto[i];
    RegisteredSince(e, a, k);
    assert forall i | 0 <= i < |rest| - 1 :: rest[i] == e[a + 1 + i];
    assert forall u | u in upto[..a] :: u in e;
    assert RemovalAt(rest) == |rest| - 1;
  }

  // A sink that is registered after the jobs ts, of which job a added it, was not removed since.
  lemma {:induction false} RegisteredSince(ts: seq<WorkerTask>, a: nat, k: SinkId)
    requires (forall t | t in ts :: Runs(t)) && k in RegistryAfter(ts) && a < |ts|
    requires forall i | 0 <= i < |ts| && Adds(ts[i], k) :: i == a
    ensures forall i | a < i < |ts| :: !Removes(ts[i])
    decreases |ts|
  {
    var n := |ts| - 1;
    if a < n {
      assert ts[n] in ts && !Adds(ts[n], k);
      RegisteredSince(ts[..n], a, k);
      assert forall i | a < i < n :: ts[i] == ts[..n][i];
    }
  }

  lemma SliceIsTexts(jobs: seq<WorkerTask>, a: nat, k: SinkId, end: nat)
    requires StretchOf(jobs, a, k, end)
    requires forall i, j | 0 <= i < j < |jobs| && jobs[i].Call? && jobs[i].job.AddSink? :: jobs[i] != jobs[j]
    ensures a < end <= |jobs|
    ensures var from, to := |Handed(jobs[..a + 1])|, |Handed(jobs[..end])|;
            from <= to <= |Handed(jobs)| && Slice(Absent, jobs, k) == Texts(Handed(jobs)[from..to])
  {
    hide Handed, Texts, Slice, Messages, StandingAfter;
    AddedOnlyThere(jobs, a, k);
    SliceIsContiguous(jobs, a, k);
    assert jobs[a + 1..][..StretchEnd(jobs[a + 1..])] == jobs[a + 1..end];
    MessagesAreTexts(jobs[a + 1..end]);
    HandedPart(jobs, a + 1, end);
    assert jobs[..end] == jobs[..a + 1] + jobs[a + 1..end];
    HandedConcat(jobs[..a + 1], jobs[a + 1..end]);
  }

  lemma AddedOnlyThere(jobs: seq<WorkerTask>, a: nat, k: SinkId)
    requires a < |jobs| && Adds(jobs[a], k)
    requires forall i, j | 0 <= i < j < |jobs| && jobs[i].Call? && jobs[i].job.AddSink? :: jobs[i] != jobs[j]
    ensures forall i | 0 <= i < |jobs| && Adds(jobs[i], k) :: i == a
  {
    forall i | 0 <= i < |jobs| && Adds(jobs[i], k) ensures i == a {
      assert jobs[i] == jobs[a];
    }
  }
}
