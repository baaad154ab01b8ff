// A fatal message in production: the default handler hands the report to the worker and never returns.
// Which of the nested fatal messages is reported, and how each call ends.
module FatalDefault {
  import opened Common
  import opened Pipeline
  import opened GlobalLogger
  import opened FatalHook
  import CH = CrashHandler

  // ----- The chain of hooks, read off their bodies

  // What happens outside the bodies: the actions that signals meet, and the dump of an abort.
  datatype Setting = Setting(bodies: Bodies, table: CH.Table, dump: string)

  function SettingOf(bodies: Bodies, p: Process): Setting {
    Setting(bodies, p.table, p.dump)
  }

  // A hook body's first fatal message or crash, and the hook that is armed by then.
  datatype Raised = Raised(hook: Hook, event: Action)

  function FirstFatal(h: Hook, acts: seq<Action>): (r: Option<Raised>)
    ensures r.Some? ==> r.value.event.Crash? || (r.value.event.Say? && WasFatal(r.value.event.msg.level))
    decreases |acts|
  {
    if acts == [] then None
    else match acts[0]
      case Arm(h') => FirstFatal(h', acts[1..])
      case Crash(_, _, _) => Some(Raised(h, acts[0]))
      case Say(m, _) => if WasFatal(m.level) then Some(Raised(h, acts[0])) else FirstFatal(h, acts[1..])
  }

  // The hook that is armed when a body without fatal messages is over.
  function LastArmed(h: Hook, acts: seq<Action>): Hook
    decreases |acts|
  {
    if acts == [] then h else LastArmed(if acts[0].Arm? then acts[0].hook else h, acts[1..])
  }

  // Sends: the chain ends in a message whose hook raises no other fatal message. Killed: in a signal
  // that g3log does not handle. Sleeps: in a signal behind an earlier one. Endless: it has more than
  // fuel hooks. left is the hook that stays armed, passed whether a signal has been let past by then.
  datatype End =
    | Sends(msg: Message, trace: string, left: Hook, passed: bool)
    | Killed
    | Sleeps(left: Hook)
    | Endless

  // A fatal message runs the hook that is armed; that hook's first fatal message or crash runs the hook
  // armed by then; and so on. The empty hook aborts, with nothing armed.
  function ChainEnd(c: Setting, passed: bool, h: Hook, m: Message, trace: string, fuel: nat): End
    decreases fuel, 0, 0
  {
    match h
    case Unset =>
      if !Owned(c.table, CH.SIGABRT) then Killed
      else if passed then Sleeps(Nothing)
      else Sends(ABORTED, c.dump, Nothing, true)
    case Nothing => Sends(m, trace, Nothing, passed)
    case Custom(id) =>
      if fuel == 0 then Endless
      else
        var r := FirstFatal(Nothing, c.bodies(id));
        if r.None? then Sends(m, trace, LastArmed(Nothing, c.bodies(id)), passed)
        else EventEnd(c, passed, r.value, fuel - 1)
  }

  function EventEnd(c: Setting, passed: bool, r: Raised, fuel: nat): End
    requires !r.event.Arm?
    decreases fuel, 1, 0
  {
    match r.event
    case Say(m, t) => ChainEnd(c, passed, r.hook, m, t, fuel)
    case Crash(k, text, t) => SignalEnd(c, passed, r.hook, k, text, t, fuel)
  }

  function SignalEnd(c: Setting, passed: bool, h: Hook, k: CH.Signal, text: string, trace: string, fuel: nat): End
    decreases fuel, 0, 1
  {
    if !Owned(c.table, k) then Killed
    else if passed then Sleeps(h)
    else ChainEnd(c, true, h, SignalMessage(text), trace, fuel)
  }

  // The hook is empty, so that the call aborts, or raises a fatal message or a signal of its own.
  predicate RaisesFatal(bodies: Bodies, h: Hook) {
    h.Unset? || (h.Custom? && FirstFatal(Nothing, bodies(h.id)).Some?)
  }

  function OutcomeOf(logger: Option<WorkerId>, end: End): Outcome {
    match end
    case Killed => Terminated
    case Sleeps(_) => Asleep
    case Endless => OutOfFuel
    case Sends(_, _, _, _) => if logger.Some? then Blocked else Exited
  }

  // The stack trace that the process remembers once a message with this trace has begun.
  function FirstTrace(p: Process, trace: string): string {
    if p.g.firstTrace.Some? then p.g.firstTrace.value else trace
  }

  // The one report of the call; noted says whether the recursive crash note is on it.
  function ReportOf(p: Process, trace: string, end: End, noted: bool): Report
    requires end.Sends?
  {
    Report(end.msg, end.trace, if noted then Some(FirstTrace(p, trace)) else None)
  }

  // The call has ended as the chain says: with one report, which is the last job of the active worker,
  // or with none.
  ghost predicate EndsAs(p: Process, e: Ended, end: End, trace: string, noted: bool) {
    && e.outcome == OutcomeOf(p.g.logger, end)
    && e.p.g.logger == p.g.logger && e.p.table == p.table && e.p.dump == p.dump && e.p.installed == p.installed
    && e.p.finished == p.finished + (if end.Sends? then [ReportOf(p, trace, end, noted)] else [])
    && (e.outcome.Blocked? ==> LastGiven(e.p.g, ReportOf(p, trace, end, noted)))
    && (end.Sends? ==> e.p.g.hook == end.left && e.p.passed == end.passed)
    && (end.Sleeps? ==> e.p.g.hook == end.left && e.p.passed)
  }

  predicate LastGiven(g: Globals, r: Report) {
    g.logger.Some? &&
    (var jobs := GivenTo(g, g.logger.value); jobs != [] && jobs[|jobs| - 1] == Fatal(Written(r)))
  }

  // A hook body that got by without a fatal message has only logged and armed.
  ghost predicate Passed(p: Process, e: Ended, left: Hook) {
    && e.outcome.Returned? && e.p.finished == p.finished && e.p.g.hook == left
    && e.p.g.logger == p.g.logger && e.p.g.counter == p.g.counter && e.p.g.firstTrace == p.g.firstTrace
    && e.p.table == p.table && e.p.dump == p.dump && e.p.installed == p.installed && e.p.passed == p.passed
  }

  // Process q has come from p without a report.
  ghost predicate Carries(p: Process, q: Process) {
    && q.finished == p.finished && q.g.logger == p.g.logger
    && q.table == p.table && q.dump == p.dump && q.installed == p.installed
  }

  lemma FinishEnds(p: Process, q: Process, m: Message, trace: string, reported: string, noted: bool)
    requires Carries(p, q) && q.g.firstTrace == Some(FirstTrace(p, trace)) && (noted <==> q.g.counter > 1)
    ensures EndsAs(p, Finish(Default, q, m, reported), Sends(m, reported, q.g.hook, q.passed), trace, noted)
  {
    hide Written, LastGiven;
    FinishGives(q, m, reported);
  }

  lemma FinishGives(q: Process, m: Message, reported: string)
    ensures var e := Finish(Default, q, m, reported);
            && |e.p.finished| == |q.finished| + 1
            && (q.g.logger.Some? ==> LastGiven(e.p.g, e.p.finished[|q.finished|]))
  {
    hide Written;
  }

  lemma AbortEnds(p: Process, m: Message, trace: string, c: Setting, fuel: nat)
    requires p.g.hook == Unset && c.table == p.table && c.dump == p.dump
    ensures EndsAs(p, Aborted(Default, Begin(p, trace)), ChainEnd(c, p.passed, p.g.hook, m, trace, fuel), trace, true)
  {
    hide Written, Finish, LastGiven;
    var p1 := Begin(p, trace);
    var q := Begin(p1.(passed := true), p1.dump);
    FinishEnds(p, q, ABORTED, trace, p.dump, true);
  }

  lemma {:induction false} SaveEnds(bodies: Bodies, fuel: nat, p: Process, m: Message, trace: string)
    requires WasFatal(m.level)
    ensures EndsAs(p, SaveMessage(bodies, Default, fuel, p, m, trace),
                   ChainEnd(SettingOf(bodies, p), p.passed, p.g.hook, m, trace, fuel), trace,
                   p.g.counter > 0 || RaisesFatal(bodies, p.g.hook))
    decreases fuel, 0, 0
  {
    hide Finish, Written, FirstFatal, LastGiven, EventEnd, Aborted;
    var p1 := Begin(p, trace);
    if p.g.hook.Nothing? {
      FinishEnds(p, p1, m, trace, trace, p.g.counter > 0);
    } else if p.g.hook.Unset? {
      AbortEnds(p, m, trace, SettingOf(bodies, p), fuel);
    } else if fuel > 0 {
      var id := p.g.hook.id;
      var p2 := p1.(ran := p1.ran + [id]);
      HookEnds(bodies, fuel - 1, p2, bodies(id));
      if FirstFatal(Nothing, bodies(id)).None? {
        var q := RunHook(bodies, Default, fuel - 1, p2, bodies(id)).p;
        FinishEnds(p, q, m, trace, trace, p.g.counter > 0);
      }
    }
  }

  lemma {:induction false} SignalEnds(bodies: Bodies, fuel: nat, p: Process, k: CH.Signal, text: string, trace: string)
    ensures EndsAs(p, Signalled(bodies, Default, fuel, p, k, text, trace),
                   SignalEnd(SettingOf(bodies, p), p.passed, p.g.hook, k, text, trace, fuel), trace,
                   p.g.counter > 0 || RaisesFatal(bodies, p.g.hook))
    decreases fuel, 0, 1
  {
    hide SaveMessage, ChainEnd, LastGiven, RaisesFatal;
    SignalledIs(bodies, Default, fuel, p, k, text, trace);
    if Reports(p, k) {
      SaveEnds(bodies, fuel, p.(passed := true), SignalMessage(text), trace);
    }
  }

  lemma {:induction false} HookEnds(bodies: Bodies, fuel: nat, p: Process, acts: seq<Action>)
    requires p.g.counter >= 1 && p.g.firstTrace.Some?
    ensures var e, r := RunHook(bodies, Default, fuel, p, acts), FirstFatal(p.g.hook, acts);
            if r.None? then Passed(p, e, LastArmed(p.g.hook, acts))
            else EndsAs(p, e, EventEnd(SettingOf(bodies, p), p.passed, r.value, fuel), [], true)
    decreases fuel, |acts|, 1
  {
    hide SaveMessage, Do, Signalled, Early, ChainEnd, SignalEnd, LastGiven, Written;
    if acts != [] {
      DoIs(bodies, Default, fuel, p, acts);
      if acts[0].Crash? {
        SignalEnds(bodies, fuel, p, acts[0].k, acts[0].text, acts[0].trace);
      } else if acts[0].Say? && WasFatal(acts[0].msg.level) {
        SaveEnds(bodies, fuel, p, acts[0].msg, acts[0].trace);
      } else {
        var e := Do(bodies, Default, fuel, p, acts);
        if acts[0].Say? {
          HarmlessMessage(bodies, fuel, p, acts[0].msg, acts[0].trace);
        }
        assert LastArmed(p.g.hook, acts) == LastArmed(e.p.g.hook, acts[1..]);
        assert Passed(p, e, e.p.g.hook) && FirstFatal(p.g.hook, acts) == FirstFatal(e.p.g.hook, acts[1..]);
        HookEnds(bodies, fuel, e.p, acts[1..]);
      }
    }
  }

  lemma HarmlessMessage(bodies: Bodies, fuel: nat, p: Process, m: Message, trace: string)
    requires !WasFatal(m.level)
    ensures Passed(p, SaveMessage(bodies, Default, fuel, p, m, trace), p.g.hook)
  {
    hide Early;
  }

  // ----- How a fatal message ends

  // With the default handler a fatal message never returns, and the chain of hooks decides how it ends:
  // a signal that g3log does not handle ends the process, one behind an earlier signal puts the thread
  // to sleep, an endless chain outruns every bound, and otherwise the thread is blocked when there is a
  // logger and the process exits when there is none.
  lemma DefaultEndsExactly(bodies: Bodies, fuel: nat, p: Process, m: Message, trace: string)
    requires WasFatal(m.level)
    ensures var outcome, end := SaveMessage(bodies, Default, fuel, p, m, trace).outcome,
                                ChainEnd(SettingOf(bodies, p), p.passed, p.g.hook, m, trace, fuel);
            && (outcome.Terminated? <==> end.Killed?)
            && (outcome.Asleep? <==> end.Sleeps?)
            && (outcome.OutOfFuel? <==> end.Endless?)
            && (outcome.Blocked? <==> end.Sends? && p.g.logger.Some?)
            && (outcome.Exited? <==> end.Sends? && p.g.logger.None?)
            && !outcome.Returned?
  {
    hide SaveMessage, ChainEnd;
    SaveEnds(bodies, fuel, p, m, trace);
  }

  // The empty hook: the message itself is never reported. Without g3log's handler for SIGABRT the process
  // ends; with it, the abort is reported in its stead, with the recursive crash note, unless a signal
  // came before.
  lemma EmptyHookExactly(bodies: Bodies, fuel: nat, p: Process, m: Message, trace: string)
    requires WasFatal(m.level) && p.g.hook == Unset
    ensures var e := SaveMessage(bodies, Default, fuel, p, m, trace);
            && (e.outcome.Terminated? <==> !Owned(p.table, CH.SIGABRT))
            && (e.outcome.Asleep? <==> Owned(p.table, CH.SIGABRT) && p.passed)
            && (e.outcome.Blocked? <==> Reports(p, CH.SIGABRT) && p.g.logger.Some?)
            && (e.outcome.Exited? <==> Reports(p, CH.SIGABRT) && p.g.logger.None?)
            && e.p.finished == p.finished +
               (if Reports(p, CH.SIGABRT) then [Report(ABORTED, p.dump, Some(FirstTrace(p, trace)))] else [])
  {
    hide SaveMessage, LastGiven;
    SaveEnds(bodies, fuel, p, m, trace);
  }

  // The message that is reported is the innermost one: the outer message, and every other one on the
  // way, is never finished, since its thread is blocked in the hook or dead in the abort. The report is
  // the last job that the active worker gets, and the only fatal one of the call.
  lemma InnermostFatalIsSent(bodies: Bodies, fuel: nat, p: Process, m: Message, trace: string)
    requires WasFatal(m.level)
    ensures var e, end := SaveMessage(bodies, Default, fuel, p, m, trace),
                          ChainEnd(SettingOf(bodies, p), p.passed, p.g.hook, m, trace, fuel);
            && (!end.Sends? ==> e.p.finished == p.finished)
            && (end.Sends? ==>
                  && |e.p.finished| == |p.finished| + 1 && p.finished <= e.p.finished
                  && e.p.finished[|p.finished|].msg == end.msg && e.p.finished[|p.finished|].trace == end.trace
                  && (p.g.logger.Some? ==>
                        && LastGiven(e.p.g, e.p.finished[|p.finished|])
                        && Fatals(GivenTo(e.p.g, p.g.logger.value)) == Fatals(GivenTo(p.g, p.g.logger.value)) + 1))
            && (end.Sends? && !RaisesFatal(bodies, p.g.hook) ==> end.msg == m && end.trace == trace)
  {
    hide SaveMessage, Fatals, Written, EventEnd;
    SaveEnds(bodies, fuel, p, m, trace);
    if p.g.logger.Some? {
      OneFatalIsSent(bodies, fuel, p, m, trace, p.g.logger.value);
    }
  }

  // The report carries the recursive crash note exactly when a fatal message was counted since the last
  // initialization or the hook of this one raised another, or aborted; the note is the first trace of
  // the process.
  lemma NoteOnTheSentReport(bodies: Bodies, fuel: nat, p: Process, m: Message, trace: string)
    requires WasFatal(m.level) && ChainEnd(SettingOf(bodies, p), p.passed, p.g.hook, m, trace, fuel).Sends?
    ensures var e := SaveMessage(bodies, Default, fuel, p, m, trace);
            && |e.p.finished| > 0
            && var r := e.p.finished[|e.p.finished| - 1];
            && (r.note.Some? <==> p.g.counter > 0 || RaisesFatal(bodies, p.g.hook))
            && (r.note.Some? ==> r.note.value == FirstTrace(p, trace))
  {
    hide SaveMessage, ChainEnd;
    SaveEnds(bodies, fuel, p, m, trace);
  }

  // The fatal jobs among those given to a worker.
  // What the worker is handed when the call blocks: the message at the end of the chain, its text
  // followed by its own stack trace, and that by the first trace of the process if and only if a fatal
  // message was counted before or the hook raised another, or aborted.
  lemma SentTextExactly(bodies: Bodies, fuel: nat, p: Process, m: Message, trace: string) returns (x: Message)
    requires WasFatal(m.level) && SaveMessage(bodies, Default, fuel, p, m, trace).outcome.Blocked?
    ensures var e, end := SaveMessage(bodies, Default, fuel, p, m, trace),
                          ChainEnd(SettingOf(bodies, p), p.passed, p.g.hook, m, trace, fuel);
            && end.Sends? && p.g.logger.Some?
            && (var jobs := GivenTo(e.p.g, p.g.logger.value); jobs != [] && jobs[|jobs| - 1] == Fatal(x))
            && x.level == end.msg.level && x.closing == end.msg.closing
            && x.text == end.msg.text + end.trace +
                         (if p.g.counter == 0 && !RaisesFatal(bodies, p.g.hook) then []
                          else if p.g.firstTrace.Some? then p.g.firstTrace.value else trace)
  {
    hide SaveMessage, ChainEnd;
    SaveEnds(bodies, fuel, p, m, trace);
    var e := SaveMessage(bodies, Default, fuel, p, m, trace);
    x := Written(e.p.finished[|e.p.finished| - 1]);
  }

  // A signal that reaches the process while nothing is armed: it ends the process exactly when the action
  // the system has for it is not g3log's, it puts its thread to sleep exactly when a signal came before, and
  // otherwise it is reported as fatal, with its text and its stack trace.
  lemma SignalExactly(bodies: Bodies, fuel: nat, p: Process, k: CH.Signal, text: string, trace: string)
    requires p.g.hook == Nothing
    ensures var e, own := Signalled(bodies, Default, fuel, p, k, text, trace), k in p.table.os && p.table.os[k] == CH.Own;
            && (e.outcome.Terminated? <==> !own)
            && (e.outcome.Asleep? <==> own && p.passed)
            && (e.outcome.Blocked? <==> own && !p.passed && p.g.logger.Some?)
            && (e.outcome.Exited? <==> own && !p.passed && p.g.logger.None?)
            && (own && !p.passed ==> e.p.passed)
            && (own && !p.passed && p.g.logger.Some? && p.g.counter == 0 ==>
                  var jobs := GivenTo(e.p.g, p.g.logger.value);
                  jobs != [] && jobs[|jobs| - 1] == Fatal(Message(Level(2001, "FATAL_SIGNAL"), text + trace, false)))
  {
    assert (text + trace) + [] == text + trace;
  }

  function Fatals(jobs: seq<WorkerJob>): nat {
    if jobs == [] then 0 else Fatals(jobs[..|jobs| - 1]) + if jobs[|jobs| - 1].Fatal? then 1 else 0
  }

  lemma FatalsSnoc(jobs: seq<WorkerJob>, j: WorkerJob)
    ensures Fatals(jobs + [j]) == Fatals(jobs) + if j.Fatal? then 1 else 0
  {
    assert (jobs + [j])[..|jobs|] == jobs;
  }

  lemma {:induction false} OneFatalIsSent(bodies: Bodies, fuel: nat, p: Process, m: Message,
        trace: string, w: WorkerId)
    ensures var e := SaveMessage(bodies, Default, fuel, p, m, trace);
            && (WasFatal(m.level) ==> !e.outcome.Returned?)
            && Fatals(GivenTo(e.p.g, w)) ==
               Fatals(GivenTo(p.g, w)) + (if e.outcome.Blocked? && p.g.logger == Some(w) then 1 else 0)
            && e.p.g.logger == p.g.logger
            && |e.p.finished| == |p.finished| + (if e.outcome.Blocked? || e.outcome.Exited? then 1 else 0)
            && (e.outcome.Blocked? ==> p.g.logger.Some?)
    decreases fuel, 0
  {
    hide Early, Written, Fatals, Finish, Aborted, Give, GivenTo;
    if !WasFatal(m.level) {
      PushSendsNoFatal(p.g, m, w);
    } else {
      var p1 := Begin(p, trace);
      SameGiven(p, p1, w);
      if p.g.hook.Nothing? {
        FinishSends(p1, m, trace, w);
      } else if p.g.hook.Unset? {
        AbortSends(p1, w);
      } else if p.g.hook.Custom? && fuel > 0 {
        var id := p.g.hook.id;
        var p2 := p1.(ran := p1.ran + [id]);
        SameGiven(p, p2, w);
        OneFatalOfHook(bodies, fuel - 1, p2, bodies(id), w);
        FinishSends(RunHook(bodies, Default, fuel - 1, p2, bodies(id)).p, m, trace, w);
      }
    }
  }

  lemma PushSendsNoFatal(g: Globals, m: Message, w: WorkerId)
    ensures Fatals(GivenTo(AfterPush(g, m), w)) == Fatals(GivenTo(g, w)) && AfterPush(g, m).logger == g.logger
  {
    hide Fatals, Early;
    FatalsSnoc(GivenTo(g, w), Save(m));
  }

  lemma SameGiven(p: Process, q: Process, w: WorkerId)
    requires q.g.given == p.g.given
    ensures GivenTo(q.g, w) == GivenTo(p.g, w)
  {
  }

  lemma AbortSends(p: Process, w: WorkerId)
    ensures var e := Aborted(Default, p);
            && !e.outcome.Returned? && e.p.g.logger == p.g.logger && (e.outcome.Blocked? ==> p.g.logger.Some?)
            && Fatals(GivenTo(e.p.g, w)) ==
               Fatals(GivenTo(p.g, w)) + (if e.outcome.Blocked? && p.g.logger == Some(w) then 1 else 0)
            && |e.p.finished| == |p.finished| + (if e.outcome.Blocked? || e.outcome.Exited? then 1 else 0)
  {
    hide Finish, Fatals;
    FinishSends(Begin(p.(passed := true), p.dump), ABORTED, p.dump, w);
  }

  lemma FinishSends(p: Process, m: Message, trace: string, w: WorkerId)
    ensures var e := Finish(Default, p, m, trace);
            && e.outcome == (if p.g.logger.Some? then Blocked else Exited)
            && Fatals(GivenTo(e.p.g, w)) == Fatals(GivenTo(p.g, w)) + (if p.g.logger == Some(w) then 1 else 0)
            && e.p.g.logger == p.g.logger
            && |e.p.finished| == |p.finished| + 1
  {
    hide Written, Fatals;
    var r := Report(m, trace, if p.g.counter > 1 then p.g.firstTrace else None);
    FatalsSnoc(GivenTo(p.g, w), Fatal(Written(r)));
  }

  lemma {:induction false} OneFatalOfHook(bodies: Bodies, fuel: nat, p: Process, acts: seq<Action>, w: WorkerId)
    ensures var e := RunHook(bodies, Default, fuel, p, acts);
            && Fatals(GivenTo(e.p.g, w)) ==
               Fatals(GivenTo(p.g, w)) + (if e.outcome.Blocked? && p.g.logger == Some(w) then 1 else 0)
            && e.p.g.logger == p.g.logger
            && |e.p.finished| == |p.finished| + (if e.outcome.Blocked? || e.outcome.Exited? then 1 else 0)
            && (e.outcome.Blocked? ==> p.g.logger.Some?)
    decreases fuel, |acts|
  {
    hide SaveMessage, Do, Signalled, Fatals;
    if acts != [] {
      DoIs(bodies, Default, fuel, p, acts);
      if acts[0].Say? {
        OneFatalIsSent(bodies, fuel, p, acts[0].msg, acts[0].trace, w);
      } else if acts[0].Crash? {
        SignalledIs(bodies, Default, fuel, p, acts[0].k, acts[0].text, acts[0].trace);
        OneFatalIsSent(bodies, fuel, p.(passed := true), SignalMessage(acts[0].text), acts[0].trace, w);
      }
      var e := Do(bodies, Default, fuel, p, acts);
      if e.outcome.Returned? {
        OneFatalOfHook(bodies, fuel, e.p, acts[1..], w);
      }
    }
  }

  // ----- Whole runs of a process, read off what happened to it

  // The hook that is armed, the signal actions, and the two one-shot flags that concern signals.
  datatype Outline = Outline(hook: Hook, table: CH.Table, installed: bool, passed: bool)

  function OutlineOf(p: Process): Outline {
    Outline(p.g.hook, p.table, p.installed, p.passed)
  }

  function OutlineAfter(bodies: Bodies, fuel: nat, original: map<CH.Signal, CH.Action>, dump: string,
                        ops: seq<ProcessOp>): Outline
    decreases |ops|
  {
    if ops == [] then Outline(Unset, CH.AtStart(original), false, false)
    else OutlineNext(bodies, fuel, dump, OutlineAfter(bodies, fuel, original, dump, ops[..|ops| - 1]), ops[|ops| - 1])
  }

  function OutlineNext(bodies: Bodies, fuel: nat, dump: string, o: Outline, op: ProcessOp): Outline {
    var c := Setting(bodies, o.table, dump);
    match op
    case Call(call) => CallNext(o, call)
    case Signals(change) => o.(table := CH.Step(o.table, change))
    case Logs(m, t) => if WasFatal(m.level) then EndNext(o, ChainEnd(c, o.passed, o.hook, m, t, fuel)) else o
    case Arrives(k, text, t) => EndNext(o, SignalEnd(c, o.passed, o.hook, k, text, t, fuel))
  }

  function CallNext(o: Outline, call: Op): Outline {
    if call.Initialize? then
      o.(hook := Nothing, table := if o.installed then o.table else CH.Installed(o.table), installed := true)
    else if call.SetHook? then o.(hook := call.hook)
    else o
  }

  function EndNext(o: Outline, end: End): Outline {
    match end
    case Sends(_, _, left, passed) => o.(hook := left, passed := passed)
    case Sleeps(left) => o.(hook := left, passed := true)
    case _ => o
  }

  lemma OutlineStep(bodies: Bodies, fuel: nat, p: Process, op: ProcessOp, q: Process)
    requires ProcessStep(bodies, Default, fuel, p, op) == Some(q) && !q.g.exited
    ensures !p.g.exited && q.dump == p.dump && OutlineOf(q) == OutlineNext(bodies, fuel, p.dump, OutlineOf(p), op)
  {
    hide Early, ChainEnd, SignalEnd, SaveMessage, Signalled, CH.Step, CH.Installed, LastGiven;
    match op
    case Logs(m, t) =>
      if WasFatal(m.level) {
        SaveEnds(bodies, fuel, p, m, t);
      } else {
        HarmlessMessage(bodies, fuel, p, m, t);
      }
    case Arrives(k, text, t) => SignalEnds(bodies, fuel, p, k, text, t);
    case Call(call) => CallOutline(p, call);
    case Signals(_) =>
  }

  lemma CallOutline(p: Process, call: Op)
    requires Legal(p.g, call) && !After(p.g, call).exited
    ensures OutlineOf(AfterCall(p, call)) == CallNext(OutlineOf(p), call)
  {
    hide Early, CH.Installed;
  }

  // Over every run of a process with the default handler that has not exited: hook, signal actions and
  // flags are those read off what happened, fatal messages and signals included.
  lemma {:induction false} OutlineIsReadOff(bodies: Bodies, fuel: nat, original: map<CH.Signal, CH.Action>, dump: string,
        ops: seq<ProcessOp>, p: Process)
    requires ProcessFrom(bodies, Default, fuel, Start(original, dump), ops) == Some(p) && !p.g.exited
    ensures p.dump == dump && OutlineOf(p) == OutlineAfter(bodies, fuel, original, dump, ops)
    decreases |ops|
  {
    hide ProcessStep, OutlineNext, CH.Step;
    if ops != [] {
      var n := |ops| - 1;
      var b := ProcessFrom(bodies, Default, fuel, Start(original, dump), ops[..n]).value;
      OutlineStep(bodies, fuel, b, ops[n], p);
      OutlineIsReadOff(bodies, fuel, original, dump, ops[..n], b);
    }
  }

  // How a fatal message ends in any run of a process, read off what happened before: it ends the process
  // exactly when the chain from the armed hook ends in a signal that g3log does not handle, and a report
  // is made exactly when the chain ends in a message.
  lemma UnreportedExactly(bodies: Bodies, fuel: nat, original: map<CH.Signal, CH.Action>, dump: string,
                          ops: seq<ProcessOp>, p: Process, m: Message, trace: string)
    requires ProcessFrom(bodies, Default, fuel, Start(original, dump), ops) == Some(p) && !p.g.exited && WasFatal(m.level)
    ensures var e, o := SaveMessage(bodies, Default, fuel, p, m, trace), OutlineAfter(bodies, fuel, original, dump, ops);
            var end := ChainEnd(Setting(bodies, o.table, dump), o.passed, o.hook, m, trace, fuel);
            && (e.outcome.Terminated? <==> end.Killed?)
            && (e.p.finished != p.finished <==> end.Sends?)
            && (e.outcome.Asleep? <==> end.Sleeps?)
  {
    hide SaveMessage, ChainEnd, OutlineAfter, ProcessFrom;
    OutlineIsReadOff(bodies, fuel, original, dump, ops, p);
    SaveEnds(bodies, fuel, p, m, trace);
  }

  // After a fatal message the process goes on, with other threads, exactly when its own thread sleeps: the
  // chain ends behind an earlier signal, or in a message that a worker has been handed.
  lemma ProcessGoesOnExactly(bodies: Bodies, fuel: nat, p: Process, m: Message, trace: string)
    requires WasFatal(m.level) && !p.g.exited
    ensures var end := ChainEnd(SettingOf(bodies, p), p.passed, p.g.hook, m, trace, fuel);
            ProcessStep(bodies, Default, fuel, p, Logs(m, trace)).Some? <==>
            end.Sleeps? || (end.Sends? && p.g.logger.Some?)
  {
    hide SaveMessage, ChainEnd;
    SaveEnds(bodies, fuel, p, m, trace);
  }

  // ----- When the hook is the empty function, and when g3log handles SIGABRT

  predicate ArmsSomething(op: ProcessOp) {
    op.Call? && (op.op.Initialize? || (op.op.SetHook? && op.op.hook != Unset))
  }

  predicate IsFatal(op: ProcessOp) {
    op.Arrives? || (op.Logs? && WasFatal(op.msg.level))
  }

  ghost predicate AllUndone(ops: seq<ProcessOp>) {
    forall i | 0 <= i < |ops| && ArmsSomething(ops[i]) :: UndoneAfter(ops, i)
  }

  ghost predicate UndoneAfter(ops: seq<ProcessOp>, i: nat) {
    exists j | i < j < |ops| :: ops[j] == Call(SetHook(Unset))
  }

  lemma UndoneNext(ops: seq<ProcessOp>)
    requires ops != []
    ensures var n := |ops| - 1;
            AllUndone(ops) <==>
            ops[n] == Call(SetHook(Unset)) || (!ArmsSomething(ops[n]) && AllUndone(ops[..n]))
  {
    var n := |ops| - 1;
    var b := ops[..n];
    if ops[n] == Call(SetHook(Unset)) {
      assert forall i | 0 <= i < n :: UndoneAfter(ops, i);
    } else {
      assert !UndoneAfter(ops, n);
      forall i | 0 <= i < n ensures UndoneAfter(ops, i) <==> UndoneAfter(b, i) {
        SameUndone(ops, i);
      }
      assert forall i | 0 <= i < n :: b[i] == ops[i];
    }
  }

  lemma SameUndone(ops: seq<ProcessOp>, i: nat)
    requires i < |ops| - 1 && ops[|ops| - 1] != Call(SetHook(Unset))
    ensures UndoneAfter(ops, i) <==> UndoneAfter(ops[..|ops| - 1], i)
  {
    var b := ops[..|ops| - 1];
    if UndoneAfter(ops, i) {
      var j :| i < j < |ops| && ops[j] == Call(SetHook(Unset));
      assert b[j] == ops[j];
    }
  }

  // As long as no fatal message and no signal has come, the hook is empty exactly when every
  // initialization and every hook that was set has been followed by setting the empty function.
  lemma {:induction false} EmptyExactly(bodies: Bodies, fuel: nat, original: map<CH.Signal, CH.Action>, dump: string,
        ops: seq<ProcessOp>)
    requires forall op | op in ops :: !IsFatal(op)
    ensures OutlineAfter(bodies, fuel, original, dump, ops).hook == Unset <==> AllUndone(ops)
    decreases |ops|
  {
    hide ChainEnd, SignalEnd, CH.Step, CH.Installed, CH.AtStart;
    if ops != [] {
      var n := |ops| - 1;
      var b := ops[..n];
      assert ops[n] in ops && forall op | op in b :: op in ops;
      EmptyExactly(bodies, fuel, original, dump, b);
      UndoneNext(ops);
    }
  }

  predicate Initializes(op: ProcessOp) {
    op.Call? && op.op.Initialize?
  }

  // A program that leaves the signals alone has SIGABRT handled by g3log exactly from its first
  // initialization on, provided that there is such a signal.
  lemma {:induction false} AbortIsOwnedExactly(bodies: Bodies, fuel: nat, original: map<CH.Signal, CH.Action>, dump: string,
        ops: seq<ProcessOp>)
    requires CH.Own !in original.Values && forall op | op in ops :: !op.Signals?
    ensures var o := OutlineAfter(bodies, fuel, original, dump, ops);
            && o.table == (if o.installed then CH.Installed(CH.AtStart(original)) else CH.AtStart(original))
            && (o.installed <==> exists op | op in ops :: Initializes(op))
            && (Owned(o.table, CH.SIGABRT) <==> CH.SIGABRT in original && exists op | op in ops :: Initializes(op))
    decreases |ops|
  {
    hide ChainEnd, SignalEnd, CH.Installed, CH.AtStart;
    InstalledOwnsAbort(original);
    if ops != [] {
      var n := |ops| - 1;
      var b := ops[..n];
      assert ops[n] in ops && (forall op | op in b :: op in ops) && forall op | op in ops :: op in b || op == ops[n];
      AbortIsOwnedExactly(bodies, fuel, original, dump, b);
    }
  }

  lemma InstalledOwnsAbort(original: map<CH.Signal, CH.Action>)
    requires CH.Own !in original.Values
    ensures !Owned(CH.AtStart(original), CH.SIGABRT)
    ensures Owned(CH.Installed(CH.AtStart(original)), CH.SIGABRT) <==> CH.SIGABRT in original
  {
    assert CH.SIGABRT in CH.DEFAULT_SIGNALS by {
      assert CH.DEFAULT_SIGNALS[1] == CH.SIGABRT;
    }
    if CH.SIGABRT in original {
      assert original[CH.SIGABRT] in original.Values;
    }
  }

  // A fatal message before the first initialization, in a program that sets no hook and leaves the
  // signals alone: the process ends and nothing is reported.
  lemma UninitializedFatalTerminates(bodies: Bodies, fuel: nat, original: map<CH.Signal, CH.Action>, dump: string,
                                     ops: seq<ProcessOp>, p: Process, m: Message, trace: string)
    requires ProcessFrom(bodies, Default, fuel, Start(original, dump), ops) == Some(p) && !p.g.exited && WasFatal(m.level)
    requires CH.Own !in original.Values
    requires forall op | op in ops :: !op.Signals? && !ArmsSomething(op) && !IsFatal(op)
    ensures var e := SaveMessage(bodies, Default, fuel, p, m, trace); e.outcome == Terminated && e.p.finished == p.finished
  {
    hide SaveMessage, ProcessFrom, OutlineAfter;
    OutlineIsReadOff(bodies, fuel, original, dump, ops, p);
    EmptyExactly(bodies, fuel, original, dump, ops);
    AbortIsOwnedExactly(bodies, fuel, original, dump, ops);
    assert forall i | 0 <= i < |ops| :: ops[i] in ops;
    assert forall op | op in ops :: Initializes(op) ==> ArmsSomething(op);
    EmptyHookExactly(bodies, fuel, p, m, trace);
  }

  // Emptying the hook of an initialized logger does not silence a fatal message: the abort is reported
  // to the worker, with the recursive crash note.
  lemma EmptiedHookIsReported(bodies: Bodies, fuel: nat, original: map<CH.Signal, CH.Action>, dump: string,
                              p: Process, m: Message, trace: string)
    requires CH.Own !in original.Values && CH.SIGABRT in original && WasFatal(m.level)
    requires ProcessFrom(bodies, Default, fuel, Start(original, dump),
                         [Call(Create(0)), Call(Initialize(Some(0))), Call(SetHook(Unset))]) == Some(p) && !p.g.exited
    ensures var e := SaveMessage(bodies, Default, fuel, p, m, trace);
            && e.outcome == Blocked
            && e.p.finished == p.finished +
               [Report(Message(Level(2001, "FATAL_SIGNAL"), "SIGABRT", false), dump, Some(FirstTrace(p, trace)))]
  {
    hide SaveMessage, ProcessFrom, OutlineAfter;
    var ops := [Call(Create(0)), Call(Initialize(Some(0))), Call(SetHook(Unset))];
    OutlineIsReadOff(bodies, fuel, original, dump, ops, p);
    assert ops[2] == Call(SetHook(Unset)) && UndoneAfter(ops, 1);
    EmptyExactly(bodies, fuel, original, dump, ops);
    assert Initializes(ops[1]) && ops[1] in ops;
    AbortIsOwnedExactly(bodies, fuel, original, dump, ops);
    NoSignalYet(bodies, fuel, original, dump, ops);
    LoggerAfterThree(bodies, fuel, original, dump, p);
    EmptyHookExactly(bodies, fuel, p, m, trace);
  }

  lemma {:induction false} NoSignalYet(bodies: Bodies, fuel: nat, original: map<CH.Signal, CH.Action>, dump: string,
        ops: seq<ProcessOp>)
    requires forall op | op in ops :: !IsFatal(op)
    ensures !OutlineAfter(bodies, fuel, original, dump, ops).passed
    decreases |ops|
  {
    hide ChainEnd, SignalEnd, CH.Step, CH.Installed, CH.AtStart;
    if ops != [] {
      var n := |ops| - 1;
      assert ops[n] in ops && forall op | op in ops[..n] :: op in ops;
      NoSignalYet(bodies, fuel, original, dump, ops[..n]);
    }
  }

  lemma LoggerAfterThree(bodies: Bodies, fuel: nat, original: map<CH.Signal, CH.Action>, dump: string, p: Process)
    requires ProcessFrom(bodies, Default, fuel, Start(original, dump),
                         [Call(Create(0)), Call(Initialize(Some(0))), Call(SetHook(Unset))]) == Some(p)
    ensures p.g.logger == Some(0)
  {
    hide CH.Installed, CH.AtStart, Early;
    var ops := [Call(Create(0)), Call(Initialize(Some(0))), Call(SetHook(Unset))];
    assert ops[..2] == [ops[0], ops[1]] && ops[..2][..1] == [ops[0]] && ops[..2][..1][..0] == [];
    var p2 := ProcessFrom(bodies, Default, fuel, Start(original, dump), [ops[0], ops[1]]).value;
    var p1 := ProcessFrom(bodies, Default, fuel, Start(original, dump), [ops[0]]).value;
    assert p1.g.logger.None?;
    assert p2.g.logger == Some(0);
  }
}
