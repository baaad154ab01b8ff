// A fatal message under a handler that returns, as in unit tests: a hook goes on after each fatal message
// it raises, so that the whole of its body counts. When such a message ends.
module FatalMock {
  import opened Common
  import opened Pipeline
  import opened GlobalLogger
  import opened FatalHook
  import CH = CrashHandler

  // Leaves: the call returns with this hook armed, and passed says whether a signal has been let past.
  // Stops: the process ends. Sleeps: in a signal behind an earlier one. Runaway: nested too deeply.
  datatype After = Leaves(hook: Hook, passed: bool) | Stops | Sleeps | Runaway

  // What a fatal message does that finds hook h armed, read off the hook bodies alone.
  function HookAfter(bodies: Bodies, table: CH.Table, h: Hook, passed: bool, fuel: nat): After
    decreases fuel, 0, 0
  {
    match h
    case Unset => if Owned(table, CH.SIGABRT) && passed then Sleeps else Stops
    case Nothing => Leaves(Nothing, passed)
    case Custom(id) => if fuel == 0 then Runaway else BodyAfter(bodies, table, Nothing, passed, bodies(id), fuel - 1)
  }

  // What is left after the actions of a body that starts with hook h armed.
  function BodyAfter(bodies: Bodies, table: CH.Table, h: Hook, passed: bool, acts: seq<Action>, fuel: nat): After
    decreases fuel, |acts|, 1
  {
    if acts == [] then Leaves(h, passed)
    else
      var a := ActionAfter(bodies, table, h, passed, acts, fuel);
      if a.Leaves? then BodyAfter(bodies, table, a.hook, a.passed, acts[1..], fuel) else a
  }

  function ActionAfter(bodies: Bodies, table: CH.Table, h: Hook, passed: bool, acts: seq<Action>, fuel: nat): After
    requires acts != []
    decreases fuel, |acts|, 0
  {
    match acts[0]
    case Arm(h') => Leaves(h', passed)
    case Say(m, _) => if WasFatal(m.level) then HookAfter(bodies, table, h, passed, fuel) else Leaves(h, passed)
    case Crash(k, _, _) =>
      if !Owned(table, k) then Stops else if passed then Sleeps else HookAfter(bodies, table, h, true, fuel)
  }

  // A call has ended as the bodies say.
  ghost predicate EndsAs(p: Process, e: Ended, a: After) {
    && (e.outcome.Returned? <==> a.Leaves?)
    && (e.outcome.Terminated? <==> a.Stops?)
    && (e.outcome.Asleep? <==> a.Sleeps?)
    && (e.outcome.OutOfFuel? <==> a.Runaway?)
    && (a.Leaves? ==> e.p.g.hook == a.hook && e.p.passed == a.passed && e.p.table == p.table)
  }

  // Under a handler that returns, a fatal message ends exactly as its hooks' bodies say: it returns, with
  // this hook left armed, or ends the process, or sleeps, or, for every bound, runs away.
  lemma {:induction false} MockEndsExactly(bodies: Bodies, fuel: nat, p: Process, m: Message, trace: string)
    requires WasFatal(m.level)
    ensures EndsAs(p, SaveMessage(bodies, Mock, fuel, p, m, trace), HookAfter(bodies, p.table, p.g.hook, p.passed, fuel))
    decreases fuel, 0
  {
    hide Written, BodyAfter;
    if p.g.hook.Custom? && fuel > 0 {
      var id := p.g.hook.id;
      BodyEndsExactly(bodies, fuel - 1, Begin(p, trace).(ran := p.ran + [id]), bodies(id));
    }
  }

  lemma {:induction false} BodyEndsExactly(bodies: Bodies, fuel: nat, p: Process, acts: seq<Action>)
    ensures EndsAs(p, RunHook(bodies, Mock, fuel, p, acts), BodyAfter(bodies, p.table, p.g.hook, p.passed, acts, fuel))
    decreases fuel, |acts|
  {
    hide SaveMessage, Do, Signalled, HookAfter;
    if acts != [] {
      DoIs(bodies, Mock, fuel, p, acts);
      ActionEndsExactly(bodies, fuel, p, acts);
      var e := Do(bodies, Mock, fuel, p, acts);
      if e.outcome.Returned? {
        BodyEndsExactly(bodies, fuel, e.p, acts[1..]);
      }
    }
  }

  lemma {:induction false} ActionEndsExactly(bodies: Bodies, fuel: nat, p: Process, acts: seq<Action>)
    requires acts != []
    ensures EndsAs(p, Do(bodies, Mock, fuel, p, acts), ActionAfter(bodies, p.table, p.g.hook, p.passed, acts, fuel))
    decreases fuel, |acts|, 0
  {
    hide SaveMessage, Do, Signalled, RunHook, HookAfter;
    DoIs(bodies, Mock, fuel, p, acts);
    var a := acts[0];
    if a.Crash? {
      SignalledIs(bodies, Mock, fuel, p, a.k, a.text, a.trace);
      if Reports(p, a.k) {
        MockEndsExactly(bodies, fuel, p.(passed := true), SignalMessage(a.text), a.trace);
      }
    } else if a.Say? {
      if WasFatal(a.msg.level) {
        MockEndsExactly(bodies, fuel, p, a.msg, a.trace);
      } else {
        HarmlessReturns(bodies, fuel, p, a.msg, a.trace);
      }
    }
  }

  lemma HarmlessReturns(bodies: Bodies, fuel: nat, p: Process, m: Message, trace: string)
    requires !WasFatal(m.level)
    ensures var e := SaveMessage(bodies, Mock, fuel, p, m, trace);
            e.outcome.Returned? && e.p.g.hook == p.g.hook && e.p.passed == p.passed && e.p.table == p.table
  {
    hide Early;
  }
}
