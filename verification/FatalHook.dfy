// saveMessage in g3log.cpp: a fatal message runs the pre-fatal hook, and the hook is user code that may
// log, log fatally (which runs saveMessage again), crash (which runs g3log's signal handler, and with it
// saveMessage) or arm another hook.
module FatalHook {
  import opened Common
  import opened Pipeline
  import opened GlobalLogger
  import CH = CrashHandler

  // What the body of a hook does, step by step. Crash: the thread runs into signal k.
  datatype Action = Say(msg: Message, trace: string) | Crash(k: CH.Signal, text: string, trace: string) | Arm(hook: Hook)

  type Bodies = nat -> seq<Action>

  // What fatalCall leads to: the default handler hands the message to the worker and blocks its
  // thread for good, the handler of a unit test records the message and returns.
  datatype Handler = Default | Mock

  // Blocked: the thread sleeps until the worker ends the process. Exited: the default signal handler
  // ended it. Terminated: a signal that g3log does not handle, or the end of abort, ended it. Asleep:
  // the thread sleeps for ever in signalHandler, behind an earlier signal. OutOfFuel: more nested hooks
  // than allowed.
  datatype Outcome = Returned | Blocked | Exited | Terminated | Asleep | OutOfFuel

  // A fatal message as fatalCall gets it: with its own stack trace and, when the recursive crash
  // counter is above one, a note with the first stack trace.
  datatype Report = Report(msg: Message, trace: string, note: Option<string>)

  // table      the signal actions
  // installed  g_initialize_flag has been used up
  // passed     a signal has got past shouldDoExit, the only one that ever does
  // dump       what backtrace will give when that signal comes from abort
  // begun      the stack traces of all fatal messages, in the order in which they were raised
  // ran        the hooks that were run
  // finished   the reports that reached fatalCall
  datatype Process = Process(g: Globals, table: CH.Table, installed: bool, passed: bool, dump: string,
                             begun: seq<string>, ran: seq<nat>, finished: seq<Report>)

  function Start(original: map<CH.Signal, CH.Action>, dump: string): Process {
    Process(AtStart, CH.AtStart(original), false, false, dump, [], [], [])
  }

  datatype Ended = Ended(p: Process, outcome: Outcome)

  // The wording around the note is not modelled.
  function Written(r: Report): Message {
    r.msg.(text := r.msg.text + r.trace + if r.note.Some? then r.note.value else [])
  }

  // Takes the hook, disarms it, counts, and remembers the trace if it is the first of the process.
  function Begin(p: Process, trace: string): Process {
    var first := if p.g.firstTrace.None? then Some(trace) else p.g.firstTrace;
    p.(g := p.g.(hook := Nothing, counter := p.g.counter + 1, firstTrace := first), begun := p.begun + [trace])
  }

  // The hook has returned: the report is completed and goes to fatalCall.
  function Finish(handler: Handler, p: Process, m: Message, trace: string): Ended {
    var r := Report(m, trace, if p.g.counter > 1 then p.g.firstTrace else None);
    var p' := p.(finished := p.finished + [r]);
    if handler.Mock? then Ended(p', Returned)
    else if p.g.logger.None? then Ended(p', Exited)
    else Ended(p'.(g := Give(p.g, p.g.logger.value, Fatal(Written(r)))), Blocked)
  }

  // internal::FATAL_SIGNAL
  const FATAL_SIGNAL := Level(2001, "FATAL_SIGNAL")

  // What signalHandler logs; its wording is not modelled.
  function SignalMessage(text: string): Message {
    Message(FATAL_SIGNAL, text, false)
  }

  const ABORTED := SignalMessage("SIGABRT")

  predicate Owned(t: CH.Table, k: CH.Signal) {
    k in t.os && t.os[k].Own?
  }

  // The empty hook throws out of a destructor: std::terminate, abort, SIGABRT. When g3log handles that
  // signal, and it is the first one, the same thread logs a second fatal message, whose hook is the
  // disarmed one; if fatalCall returns from it, abort ends the process all the same.
  function Aborted(handler: Handler, p: Process): Ended {
    if !Owned(p.table, CH.SIGABRT) then Ended(p, Terminated)
    else if p.passed then Ended(p, Asleep)
    else
      var e := Finish(handler, Begin(p.(passed := true), p.dump), ABORTED, p.dump);
      if e.outcome.Returned? then Ended(e.p, Terminated) else e
  }

  // saveMessage; fuel bounds how deeply hooks may nest.
  function SaveMessage(bodies: Bodies, handler: Handler, fuel: nat, p: Process, m: Message, trace: string): Ended
    decreases fuel, 0, 0
  {
    if !WasFatal(m.level) then Ended(p.(g := AfterPush(p.g, m)), Returned)
    else
      var p1 := Begin(p, trace);
      match p.g.hook
      case Unset => Aborted(handler, p1)
      case Nothing => Finish(handler, p1, m, trace)
      case Custom(id) =>
        if fuel == 0 then Ended(p1, OutOfFuel)
        else
          var e := RunHook(bodies, handler, fuel - 1, p1.(ran := p1.ran + [id]), bodies(id));
          if e.outcome.Returned? then Finish(handler, e.p, m, trace) else e
  }

  // The signal gets past shouldDoExit and is reported.
  predicate Reports(p: Process, k: CH.Signal) {
    Owned(p.table, k) && !p.passed
  }

  // signalHandler, for a signal that arrives on this thread.
  function Signalled(bodies: Bodies, handler: Handler, fuel: nat, p: Process, k: CH.Signal, text: string, trace: string): Ended
    decreases fuel, 0, 1
  {
    if !Owned(p.table, k) then Ended(p, Terminated)
    else if p.passed then Ended(p, Asleep)
    else SaveMessage(bodies, handler, fuel, p.(passed := true), SignalMessage(text), trace)
  }

  function RunHook(bodies: Bodies, handler: Handler, fuel: nat, p: Process, acts: seq<Action>): Ended
    decreases fuel, |acts|, 1
  {
    if acts == [] then Ended(p, Returned)
    else
      var e := Do(bodies, handler, fuel, p, acts);
      if e.outcome.Returned? then RunHook(bodies, handler, fuel, e.p, acts[1..]) else e
  }

  function Do(bodies: Bodies, handler: Handler, fuel: nat, p: Process, acts: seq<Action>): Ended
    requires acts != []
    decreases fuel, |acts|, 0
  {
    match acts[0]
    case Say(m, t) => SaveMessage(bodies, handler, fuel, p, m, t)
    case Crash(k, text, t) => Signalled(bodies, handler, fuel, p, k, text, t)
    case Arm(h) => Ended(p.(g := p.g.(hook := h)), Returned)
  }

  // ----- The methods, over the globals as fields

  class FatalLogger {
    var p: Process
    const bodies: Bodies
    const handler: Handler

    constructor (bodies: Bodies, handler: Handler, original: map<CH.Signal, CH.Action>, dump: string)
      ensures p == Start(original, dump) && this.bodies == bodies && this.handler == handler
    {
      this.bodies := bodies;
      this.handler := handler;
      p := Start(original, dump);
    }

    method Save(fuel: nat, m: Message, trace: string) returns (outcome: Outcome)
      modifies this
      ensures Ended(p, outcome) == SaveMessage(bodies, handler, fuel, old(p), m, trace)
      decreases fuel, 0, 0
    {
      if !WasFatal(m.level) {
        p := p.(g := AfterPush(p.g, m));
        return Returned;
      }
      var hook := p.g.hook;
      p := p.(g := p.g.(hook := Nothing), begun := p.begun + [trace]);
      p := p.(g := p.g.(counter := p.g.counter + 1));
      if p.g.firstTrace.None? {
        p := p.(g := p.g.(firstTrace := Some(trace)));
      }
      if hook.Unset? {
        outcome := Abort();
        return;
      }
      if hook.Custom? {
        if fuel == 0 {
          return OutOfFuel;
        }
        p := p.(ran := p.ran + [hook.id]);
        outcome := Hooked(fuel - 1, bodies(hook.id));
        if !outcome.Returned? {
          return;
        }
      }
      outcome := FatalCall(m, trace);
    }

    method Abort() returns (outcome: Outcome)
      modifies this
      ensures Ended(p, outcome) == Aborted(handler, old(p))
    {
      if !Owned(p.table, CH.SIGABRT) {
        return Terminated;
      }
      if p.passed {
        return Asleep;
      }
      p := Begin(p.(passed := true), p.dump);
      outcome := FatalCall(ABORTED, p.dump);
      if outcome.Returned? {
        return Terminated;
      }
    }

    method SignalHandler(fuel: nat, k: CH.Signal, text: string, trace: string) returns (outcome: Outcome)
      modifies this
      ensures Ended(p, outcome) == Signalled(bodies, handler, fuel, old(p), k, text, trace)
      decreases fuel, 0, 1
    {
      if !Owned(p.table, k) {
        return Terminated;
      }
      if p.passed {
        return Asleep;
      }
      p := p.(passed := true);
      outcome := Save(fuel, SignalMessage(text), trace);
    }

    method Hooked(fuel: nat, acts: seq<Action>) returns (outcome: Outcome)
      modifies this
      ensures Ended(p, outcome) == RunHook(bodies, handler, fuel, old(p), acts)
      decreases fuel, |acts|, 1
    {
      if acts == [] {
        return Returned;
      }
      match acts[0]
      case Say(m, t) =>
        outcome := Save(fuel, m, t);
        if outcome.Returned? {
          outcome := Hooked(fuel, acts[1..]);
        }
      case Crash(k, text, t) =>
        outcome := SignalHandler(fuel, k, text, t);
        if outcome.Returned? {
          outcome := Hooked(fuel, acts[1..]);
        }
      case Arm(h) =>
        p := p.(g := p.g.(hook := h));
        outcome := Hooked(fuel, acts[1..]);
    }

    method FatalCall(m: Message, trace: string) returns (outcome: Outcome)
      modifies this
      ensures Ended(p, outcome) == Finish(handler, old(p), m, trace)
    {
      var r := Report(m, trace, None);
      if p.g.counter > 1 {
        r := r.(note := p.g.firstTrace);
      }
      p := p.(finished := p.finished + [r]);
      if handler.Mock? {
        return Returned;
      }
      if p.g.logger.None? {
        return Exited;
      }
      p := p.(g := Give(p.g, p.g.logger.value, Fatal(Written(r))));
      return Blocked;
    }
  }

  // One action of a hook body, unfolded.
  lemma DoIs(bodies: Bodies, handler: Handler, fuel: nat, p: Process, acts: seq<Action>)
    requires acts != []
    ensures var e, a := Do(bodies, handler, fuel, p, acts), acts[0];
            && (a.Say? ==> e == SaveMessage(bodies, handler, fuel, p, a.msg, a.trace))
            && (a.Crash? ==> e == Signalled(bodies, handler, fuel, p, a.k, a.text, a.trace))
            && (a.Arm? ==> e == Ended(p.(g := p.g.(hook := a.hook)), Returned))
            && RunHook(bodies, handler, fuel, p, acts) ==
               (if e.outcome.Returned? then RunHook(bodies, handler, fuel, e.p, acts[1..]) else e)
  {
  }

  lemma SignalledIs(bodies: Bodies, handler: Handler, fuel: nat, p: Process, k: CH.Signal, text: string, trace: string)
    ensures var e := Signalled(bodies, handler, fuel, p, k, text, trace);
            if Reports(p, k) then e == SaveMessage(bodies, handler, fuel, p.(passed := true), SignalMessage(text), trace)
            else e == Ended(p, if Owned(p.table, k) then Asleep else Terminated)
  {
  }

  // ----- Which messages are fatal

  // Fatal messages have begun, none is forgotten.
  lemma {:induction false} BegunOnlyGrows(bodies: Bodies, handler: Handler, fuel: nat, p: Process, m: Message, trace: string)
    ensures var e := SaveMessage(bodies, handler, fuel, p, m, trace);
            p.begun <= e.p.begun && (WasFatal(m.level) ==> p.begun + [trace] <= e.p.begun)
    decreases fuel, 0
  {
    hide Finish, Early;
    if WasFatal(m.level) {
      var p1 := Begin(p, trace);
      FinishKeepsBegun(handler, p1, m, trace);
      FinishKeepsBegun(handler, Begin(p1.(passed := true), p1.dump), ABORTED, p1.dump);
      if p.g.hook.Custom? && fuel > 0 {
        var id := p.g.hook.id;
        var p2 := p1.(ran := p1.ran + [id]);
        HookBegunOnlyGrows(bodies, handler, fuel - 1, p2, bodies(id));
        FinishKeepsBegun(handler, RunHook(bodies, handler, fuel - 1, p2, bodies(id)).p, m, trace);
      }
    }
  }

  lemma FinishKeepsBegun(handler: Handler, p: Process, m: Message, trace: string)
    ensures Finish(handler, p, m, trace).p.begun == p.begun
  {
    hide Written;
  }

  lemma {:induction false} HookBegunOnlyGrows(bodies: Bodies, handler: Handler, fuel: nat, p: Process, acts: seq<Action>)
    ensures p.begun <= RunHook(bodies, handler, fuel, p, acts).p.begun
    decreases fuel, |acts|
  {
    hide SaveMessage, Do, Signalled;
    if acts != [] {
      DoIs(bodies, handler, fuel, p, acts);
      if acts[0].Say? {
        BegunOnlyGrows(bodies, handler, fuel, p, acts[0].msg, acts[0].trace);
      } else if acts[0].Crash? {
        SignalledIs(bodies, handler, fuel, p, acts[0].k, acts[0].text, acts[0].trace);
        BegunOnlyGrows(bodies, handler, fuel, p.(passed := true), SignalMessage(acts[0].text), acts[0].trace);
      }
      HookBegunOnlyGrows(bodies, handler, fuel, Do(bodies, handler, fuel, p, acts).p, acts[1..]);
    }
  }

  // Levels from FATAL's number on are fatal: such a message begins, under either handler, and with the
  // default one it never returns. Below, the message is handed to the active worker, or to the keeping of
  // the first early message, and nothing else happens.
  lemma FatalFromThousandOn(bodies: Bodies, handler: Handler, fuel: nat, p: Process, m: Message, trace: string)
    ensures FATAL.value == 1000
    ensures var e := SaveMessage(bodies, handler, fuel, p, m, trace);
            && (m.level.value >= 1000 ==> p.begun + [trace] <= e.p.begun)
            && (m.level.value < 1000 ==>
                  && e.outcome.Returned? && e.p == p.(g := e.p.g)
                  && forall w: WorkerId ::
                       GivenTo(e.p.g, w) == GivenTo(p.g, w) + (if p.g.logger == Some(w) then [Save(m)] else []))
            && (handler.Default? ==> (e.outcome.Returned? <==> m.level.value < 1000))
  {
    hide RunHook, Written, Early;
    BegunOnlyGrows(bodies, handler, fuel, p, m, trace);
  }

  // ----- The bound on nesting

  // With enough fuel, more fuel changes nothing: the result is that of the unbounded code.
  lemma {:induction false} FuelDoesNotMatter(bodies: Bodies, handler: Handler, fuel: nat, more: nat,
        p: Process, m: Message, trace: string)
    requires fuel <= more && !SaveMessage(bodies, handler, fuel, p, m, trace).outcome.OutOfFuel?
    ensures SaveMessage(bodies, handler, more, p, m, trace) == SaveMessage(bodies, handler, fuel, p, m, trace)
    decreases fuel, 0
  {
    hide AfterPush, Finish;
    if WasFatal(m.level) && p.g.hook.Custom? {
      var id := p.g.hook.id;
      FuelDoesNotMatterInHook(bodies, handler, fuel - 1, more - 1, Begin(p, trace).(ran := p.ran + [id]), bodies(id));
    }
  }

  lemma {:induction false} FuelDoesNotMatterInHook(bodies: Bodies, handler: Handler, fuel: nat, more: nat,
        p: Process, acts: seq<Action>)
    requires fuel <= more && !RunHook(bodies, handler, fuel, p, acts).outcome.OutOfFuel?
    ensures RunHook(bodies, handler, more, p, acts) == RunHook(bodies, handler, fuel, p, acts)
    decreases fuel, |acts|
  {
    hide AfterPush, Finish;
    if acts != [] {
      DoIs(bodies, handler, more, p, acts);
      DoIs(bodies, handler, fuel, p, acts);
      if acts[0].Crash? {
        SignalledIs(bodies, handler, fuel, p, acts[0].k, acts[0].text, acts[0].trace);
        SignalledIs(bodies, handler, more, p, acts[0].k, acts[0].text, acts[0].trace);
      }
      if acts[0].Say? {
        FuelDoesNotMatter(bodies, handler, fuel, more, p, acts[0].msg, acts[0].trace);
      } else if acts[0].Crash? && Reports(p, acts[0].k) {
        FuelDoesNotMatter(bodies, handler, fuel, more, p.(passed := true), SignalMessage(acts[0].text), acts[0].trace);
      }
      var e := Do(bodies, handler, fuel, p, acts);
      if e.outcome.Returned? {
        FuelDoesNotMatterInHook(bodies, handler, fuel, more, e.p, acts[1..]);
      }
    }
  }

  // ----- Termination

  function Depth(rank: nat -> nat, h: Hook): nat {
    if h.Custom? then rank(h.id) + 1 else 0
  }

  // A hook arms only hooks of smaller rank.
  ghost predicate Ranked(bodies: Bodies, rank: nat -> nat) {
    forall id: nat, i | 0 <= i < |bodies(id)| && bodies(id)[i].Arm? :: Depth(rank, bodies(id)[i].hook) <= rank(id)
  }

  // Disarming bounds the recursion: when hooks can only arm hooks of smaller rank, every fatal
  // message ends, however many fatal messages its hook raises.
  lemma {:induction false} RankedHooksTerminate(bodies: Bodies, handler: Handler, rank: nat -> nat, fuel: nat,
        p: Process, m: Message, trace: string)
    requires Ranked(bodies, rank) && Depth(rank, p.g.hook) <= fuel
    ensures var e := SaveMessage(bodies, handler, fuel, p, m, trace);
            !e.outcome.OutOfFuel? && Depth(rank, e.p.g.hook) <= fuel
    decreases fuel, 0
  {
    if WasFatal(m.level) && p.g.hook.Custom? {
      var id := p.g.hook.id;
      RankedBodiesTerminate(bodies, handler, rank, fuel - 1, Begin(p, trace).(ran := p.ran + [id]), bodies(id));
    }
  }

  lemma {:induction false} RankedBodiesTerminate(bodies: Bodies, handler: Handler, rank: nat -> nat, fuel: nat,
        p: Process, acts: seq<Action>)
    requires Ranked(bodies, rank) && Depth(rank, p.g.hook) <= fuel
    requires forall i | 0 <= i < |acts| && acts[i].Arm? :: Depth(rank, acts[i].hook) <= fuel
    ensures var e := RunHook(bodies, handler, fuel, p, acts);
            !e.outcome.OutOfFuel? && Depth(rank, e.p.g.hook) <= fuel
    decreases fuel, |acts|
  {
    if acts != [] {
      DoIs(bodies, handler, fuel, p, acts);
      if acts[0].Crash? {
        SignalledIs(bodies, handler, fuel, p, acts[0].k, acts[0].text, acts[0].trace);
      }
      if acts[0].Say? {
        RankedHooksTerminate(bodies, handler, rank, fuel, p, acts[0].msg, acts[0].trace);
      } else if acts[0].Crash? && Reports(p, acts[0].k) {
        RankedHooksTerminate(bodies, handler, rank, fuel, p.(passed := true), SignalMessage(acts[0].text), acts[0].trace);
      }
      RankedBodiesTerminate(bodies, handler, rank, fuel, Do(bodies, handler, fuel, p, acts).p, acts[1..]);
    }
  }

  // Without such a rank it need not end: a hook that arms itself and then raises a fatal message
  // outruns every bound.
  lemma {:induction false} SelfArmingHookNeverEnds(bodies: Bodies, handler: Handler, fuel: nat, p: Process,
        m: Message, trace: string, id: nat, m': Message, t': string)
    requires WasFatal(m.level) && WasFatal(m'.level) && p.g.hook == Custom(id)
    requires [Arm(Custom(id)), Say(m', t')] <= bodies(id)
    ensures SaveMessage(bodies, handler, fuel, p, m, trace).outcome == OutOfFuel
    decreases fuel
  {
    if fuel > 0 {
      var acts := bodies(id);
      var p1 := Begin(p, trace).(ran := p.ran + [id]);
      var e := Do(bodies, handler, fuel - 1, p1, acts);
      assert acts[0] == [Arm(Custom(id)), Say(m', t')][0] && acts[1..][0] == [Arm(Custom(id)), Say(m', t')][1];
      SelfArmingHookNeverEnds(bodies, handler, fuel - 1, e.p, m', t', id, m', t');
      assert Do(bodies, handler, fuel - 1, e.p, acts[1..]).outcome == OutOfFuel;
      assert RunHook(bodies, handler, fuel - 1, e.p, acts[1..]).outcome == OutOfFuel;
      assert RunHook(bodies, handler, fuel - 1, p1, acts) == RunHook(bodies, handler, fuel - 1, e.p, acts[1..]);
    }
  }

  // ----- How often a hook runs

  ghost predicate ArmsNothing(bodies: Bodies) {
    forall id: nat, i | 0 <= i < |bodies(id)| :: !bodies(id)[i].Arm?
  }

  // A hook that is armed once and never again runs once, no matter how many fatal messages it raises
  // and how the message ends.
  lemma {:induction false} HookRunsOnce(bodies: Bodies, handler: Handler, fuel: nat, p: Process, m: Message,
        trace: string)
    requires ArmsNothing(bodies) && WasFatal(m.level) && fuel >= 1
    ensures var e := SaveMessage(bodies, handler, fuel, p, m, trace);
            && e.p.ran == p.ran + (if p.g.hook.Custom? then [p.g.hook.id] else [])
            && e.p.g.hook == Nothing
  {
    if p.g.hook.Custom? {
      var id := p.g.hook.id;
      DisarmedHookStaysSo(bodies, handler, fuel - 1, Begin(p, trace).(ran := p.ran + [id]), bodies(id));
    }
  }

  lemma DisarmedMessageStaysSo(bodies: Bodies, handler: Handler, fuel: nat, p: Process, m: Message, trace: string)
    requires p.g.hook == Nothing
    ensures var e := SaveMessage(bodies, handler, fuel, p, m, trace);
            e.p.ran == p.ran && e.p.g.hook == Nothing
  {
    hide Written, Early;
  }

  lemma {:induction false} DisarmedHookStaysSo(bodies: Bodies, handler: Handler, fuel: nat, p: Process,
        acts: seq<Action>)
    requires p.g.hook == Nothing && forall i | 0 <= i < |acts| :: !acts[i].Arm?
    ensures var e := RunHook(bodies, handler, fuel, p, acts);
            e.p.ran == p.ran && e.p.g.hook == Nothing
    decreases |acts|
  {
    hide SaveMessage, Do, Signalled;
    if acts != [] {
      DoIs(bodies, handler, fuel, p, acts);
      if acts[0].Say? {
        DisarmedMessageStaysSo(bodies, handler, fuel, p, acts[0].msg, acts[0].trace);
      } else {
        SignalledIs(bodies, handler, fuel, p, acts[0].k, acts[0].text, acts[0].trace);
        DisarmedMessageStaysSo(bodies, handler, fuel, p.(passed := true), SignalMessage(acts[0].text), acts[0].trace);
      }
      DisarmedHookStaysSo(bodies, handler, fuel, Do(bodies, handler, fuel, p, acts).p, acts[1..]);
    }
  }

  // ----- The recursive crash note

  ghost predicate Extends(e: Process, p: Process) {
    p.finished <= e.finished && p.begun <= e.begun
  }

  // Under a handler that returns, every fatal message that was begun is finished, inner ones first,
  // and the counter counts them.
  lemma {:induction false} EveryReportIsFinished(bodies: Bodies, fuel: nat, p: Process, m: Message, trace: string)
    requires var e := SaveMessage(bodies, Mock, fuel, p, m, trace); e.outcome.Returned?
    ensures var e := SaveMessage(bodies, Mock, fuel, p, m, trace);
            && Extends(e.p, p)
            && e.p.g.counter - p.g.counter == |e.p.finished| - |p.finished| == |e.p.begun| - |p.begun|
            && (WasFatal(m.level) ==> |e.p.finished| > |p.finished|)
            && e.p.g.firstTrace == if WasFatal(m.level) && p.g.firstTrace.None? then Some(trace) else p.g.firstTrace
    decreases fuel, 0
  {
    hide Early;
    if WasFatal(m.level) && p.g.hook.Custom? {
      var id := p.g.hook.id;
      EveryHookReportIsFinished(bodies, fuel - 1, Begin(p, trace).(ran := p.ran + [id]), bodies(id));
    }
  }

  lemma {:induction false} EveryHookReportIsFinished(bodies: Bodies, fuel: nat, p: Process, acts: seq<Action>)
    requires var e := RunHook(bodies, Mock, fuel, p, acts); e.outcome.Returned?
    ensures var e := RunHook(bodies, Mock, fuel, p, acts);
            && Extends(e.p, p)
            && e.p.g.counter - p.g.counter == |e.p.finished| - |p.finished| == |e.p.begun| - |p.begun|
            && (p.g.firstTrace.Some? ==> e.p.g.firstTrace == p.g.firstTrace)
    decreases fuel, |acts|
  {
    if acts != [] {
      DoIs(bodies, Mock, fuel, p, acts);
      if acts[0].Crash? {
        SignalledIs(bodies, Mock, fuel, p, acts[0].k, acts[0].text, acts[0].trace);
      }
      if acts[0].Say? {
        EveryReportIsFinished(bodies, fuel, p, acts[0].msg, acts[0].trace);
      } else if acts[0].Crash? {
        EveryReportIsFinished(bodies, fuel, p.(passed := true), SignalMessage(acts[0].text), acts[0].trace);
      }
      EveryHookReportIsFinished(bodies, fuel, Do(bodies, Mock, fuel, p, acts).p, acts[1..]);
    }
  }

  // The report of a message comes after those its hook raised. It carries the note exactly when some
  // fatal message was already counted since the last initialization, or its own hook raised one: so a
  // later, unrelated fatal message is called a recursive crash as well.
  lemma NoteMeansNotTheFirst(bodies: Bodies, fuel: nat, p: Process, m: Message, trace: string)
    requires WasFatal(m.level)
    requires var e := SaveMessage(bodies, Mock, fuel, p, m, trace); e.outcome.Returned?
    ensures var e := SaveMessage(bodies, Mock, fuel, p, m, trace);
            var n := |e.p.finished| - 1;
            && n >= |p.finished|
            && e.p.finished[n].msg == m && e.p.finished[n].trace == trace
            && (e.p.finished[n].note.Some? <==> p.g.counter > 0 || n > |p.finished|)
            && (e.p.finished[n].note.Some? ==>
                  e.p.finished[n].note == Some(if p.g.firstTrace.Some? then p.g.firstTrace.value else trace))
  {
    EveryReportIsFinished(bodies, fuel, p, m, trace);
  }

  // ----- Whole runs of a process

  // What happens to a process: calls of the logging functions and of those for signals, messages, and
  // signals. Other threads go on after one has gone to sleep; nothing goes on after the process has ended.
  datatype ProcessOp =
    | Call(op: Op)
    | Signals(change: CH.Op)
    | Logs(msg: Message, trace: string)
    | Arrives(k: CH.Signal, text: string, trace: string)

  ghost function ProcessFrom(bodies: Bodies, handler: Handler, fuel: nat, start: Process, ops: seq<ProcessOp>): Option<Process>
    decreases |ops|
  {
    if ops == [] then Some(start)
    else match ProcessFrom(bodies, handler, fuel, start, ops[..|ops| - 1])
      case None => None
      case Some(p) => ProcessStep(bodies, handler, fuel, p, ops[|ops| - 1])
  }

  function ProcessStep(bodies: Bodies, handler: Handler, fuel: nat, p: Process, op: ProcessOp): Option<Process> {
    if p.g.exited then None
    else match op
      case Call(o) => if Legal(p.g, o) then Some(AfterCall(p, o)) else None
      case Signals(change) => Some(p.(table := CH.Step(p.table, change)))
      case Logs(m, t) => GoesOn(SaveMessage(bodies, handler, fuel, p, m, t))
      case Arrives(k, text, t) => GoesOn(Signalled(bodies, handler, fuel, p, k, text, t))
  }

  function GoesOn(e: Ended): Option<Process> {
    if e.outcome.Returned? || e.outcome.Blocked? || e.outcome.Asleep? then Some(e.p) else None
  }

  // The first initializeLogging installs the signal handlers.
  function AfterCall(p: Process, o: Op): Process {
    var p' := p.(g := After(p.g, o));
    if o.Initialize? && !p.installed then p'.(table := CH.Installed(p.table), installed := true) else p'
  }

  function FirstOf(traces: seq<string>): Option<string> {
    if traces == [] then None else Some(traces[0])
  }

  // The remembered trace is that of the first fatal message of the process, and every note shows it.
  predicate NotesShow(p: Process) {
    && p.g.firstTrace == FirstOf(p.begun)
    && forall i | 0 <= i < |p.finished| :: p.finished[i].note.Some? ==> p.finished[i].note == FirstOf(p.begun)
  }

  lemma FinishKeepsNotes(handler: Handler, p: Process, m: Message, trace: string)
    requires NotesShow(p)
    ensures NotesShow(Finish(handler, p, m, trace).p)
  {
    hide Written;
  }

  lemma {:induction false} MessageKeepsNotes(bodies: Bodies, handler: Handler, fuel: nat, p: Process,
        m: Message, trace: string)
    requires NotesShow(p)
    ensures NotesShow(SaveMessage(bodies, handler, fuel, p, m, trace).p)
    decreases fuel, 0
  {
    hide Finish, Early;
    if WasFatal(m.level) {
      var p1 := Begin(p, trace);
      assert NotesShow(p1);
      if p.g.hook.Nothing? {
        FinishKeepsNotes(handler, p1, m, trace);
      } else if p.g.hook.Unset? {
        var p2 := Begin(p1.(passed := true), p1.dump);
        assert NotesShow(p2);
        FinishKeepsNotes(handler, p2, ABORTED, p1.dump);
      } else if p.g.hook.Custom? && fuel > 0 {
        var id := p.g.hook.id;
        var p2 := p1.(ran := p1.ran + [id]);
        HookKeepsNotes(bodies, handler, fuel - 1, p2, bodies(id));
        FinishKeepsNotes(handler, RunHook(bodies, handler, fuel - 1, p2, bodies(id)).p, m, trace);
      }
    }
  }

  lemma {:induction false} HookKeepsNotes(bodies: Bodies, handler: Handler, fuel: nat, p: Process, acts: seq<Action>)
    requires NotesShow(p)
    ensures NotesShow(RunHook(bodies, handler, fuel, p, acts).p)
    decreases fuel, |acts|
  {
    if acts != [] {
      DoIs(bodies, handler, fuel, p, acts);
      if acts[0].Crash? {
        SignalledIs(bodies, handler, fuel, p, acts[0].k, acts[0].text, acts[0].trace);
      }
      if acts[0].Say? {
        MessageKeepsNotes(bodies, handler, fuel, p, acts[0].msg, acts[0].trace);
      } else if acts[0].Crash? {
        MessageKeepsNotes(bodies, handler, fuel, p.(passed := true), SignalMessage(acts[0].text), acts[0].trace);
      }
      HookKeepsNotes(bodies, handler, fuel, Do(bodies, handler, fuel, p, acts).p, acts[1..]);
    }
  }

  lemma CallKeepsTrace(g: Globals, op: Op)
    requires Legal(g, op)
    ensures After(g, op).firstTrace == g.firstTrace
  {
    hide Early;
  }

  // Over every run of a process, through any number of initializations: every report with a note
  // shows the stack trace of the very first fatal message.
  lemma {:induction false} EveryNoteShowsTheFirstTrace(bodies: Bodies, handler: Handler, fuel: nat,
        original: map<CH.Signal, CH.Action>, dump: string, ops: seq<ProcessOp>, p: Process)
    requires ProcessFrom(bodies, handler, fuel, Start(original, dump), ops) == Some(p)
    ensures NotesShow(p)
    decreases |ops|
  {
    hide SaveMessage, After, Legal, CH.Step, CH.Installed;
    if ops != [] {
      var q := ProcessFrom(bodies, handler, fuel, Start(original, dump), ops[..|ops| - 1]).value;
      EveryNoteShowsTheFirstTrace(bodies, handler, fuel, original, dump, ops[..|ops| - 1], q);
      var op := ops[|ops| - 1];
      match op
      case Logs(m, t) => MessageKeepsNotes(bodies, handler, fuel, q, m, t);
      case Arrives(k, text, t) => MessageKeepsNotes(bodies, handler, fuel, q.(passed := true), SignalMessage(text), t);
      case Call(o) => CallKeepsTrace(q.g, o);
      case Signals(_) =>
    }
  }
}
