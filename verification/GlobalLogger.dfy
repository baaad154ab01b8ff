// g3log.cpp: the global pointer to the active worker, the first message logged too early, and the way
// workers come and go. Each call is one atomic step; the source takes no lock between looking at the
// pointer and using it, so interleavings inside a call are not covered here.
module GlobalLogger {
  import opened Common
  import opened Pipeline

  type WorkerId = nat

  // What setFatalPreLoggingHook was last given. Unset is the empty std::function the program starts
  // with, Nothing the hook that does nothing.
  datatype Hook = Unset | Nothing | Custom(id: nat)

  // logger       g_logger_instance
  // first        g_first_unintialized_msg
  // firstSet     g_set_first_uninitialized_flag has been used up
  // firstSaved   g_save_first_unintialized_flag has been used up
  // hook         g_fatal_pre_logging_hook
  // counter      g_fatal_hook_recursive_counter
  // firstTrace   first_stack_trace, set by the first fatal message of the process and never again
  // alive        the LogWorker objects that exist
  // given        the jobs that save and fatal have handed to each worker, in order
  // exited       std::exit has been called
  datatype Globals = Globals(logger: Option<WorkerId>, first: Option<Message>, firstSet: bool, firstSaved: bool,
                             hook: Hook, counter: nat, firstTrace: Option<string>,
                             alive: set<WorkerId>, given: map<WorkerId, seq<WorkerJob>>, exited: bool)

  const AtStart := Globals(None, None, false, false, Unset, 0, None, {}, map[], false)

  // The text of the message becomes a note that the logger was not initialized, then the old text.
  const EARLY := "LOGGER NOT INITIALIZED:\n\t\t"

  function Early(m: Message): Message {
    m.(text := EARLY + m.text)
  }

  // What the destructor of a worker that is not the active one logs; the wording is not modelled.
  const NotActive := Message(WARNING, "Attempted to shut down logging", false)

  function GivenTo(g: Globals, w: WorkerId): seq<WorkerJob> {
    if w in g.given then g.given[w] else []
  }

  function Give(g: Globals, w: WorkerId, j: WorkerJob): Globals {
    g.(given := g.given[w := GivenTo(g, w) + [j]])
  }

  // initializeLogging
  function AfterInitialize(g: Globals, w: Option<WorkerId>): Globals {
    if g.logger.Some? || w.None? then g.(exited := true)
    else
      var g1 := if !g.firstSaved && g.first.Some? then Give(g, w.value, Save(g.first.value)).(first := None) else g;
      g1.(firstSaved := true, logger := w, hook := Nothing, counter := 0)
  }

  // pushMessageToLogger
  function AfterPush(g: Globals, m: Message): Globals {
    if g.logger.Some? then Give(g, g.logger.value, Save(m))
    else if g.firstSet then g
    else g.(firstSet := true, first := Some(Early(m)))
  }

  predicate RefusesShutdown(g: Globals, w: Option<WorkerId>) {
    g.logger.Some? && w.Some? && g.logger != w
  }

  // shutDownLoggingForActiveOnly; warningOn is whether the WARNING level is enabled.
  function AfterShutDownFor(g: Globals, w: Option<WorkerId>, warningOn: bool): Globals {
    if !RefusesShutdown(g, w) then g.(logger := None)
    else if warningOn then AfterPush(g, NotActive)
    else g
  }

  // ----- The calls of a program

  datatype Op =
    | Create(w: WorkerId)
    | Initialize(worker: Option<WorkerId>)
    | Log(msg: Message)
    | ShutDown
    | SetHook(hook: Hook)
    | Destroy(w: WorkerId, warningOn: bool)

  // What the source demands of its callers: they pass and destroy workers that exist.
  predicate Legal(g: Globals, op: Op) {
    !g.exited &&
    match op
    case Create(w) => w !in g.alive && w !in g.given
    case Initialize(w) => w.Some? ==> w.value in g.alive
    case Destroy(w, _) => w in g.alive
    case _ => true
  }

  function After(g: Globals, op: Op): Globals {
    match op
    case Create(w) => g.(alive := g.alive + {w}, given := g.given[w := []])
    case Initialize(w) => AfterInitialize(g, w)
    case Log(m) => AfterPush(g, m)
    case ShutDown => g.(logger := None)
    case SetHook(h) => g.(hook := h)
    case Destroy(w, on) => var g1 := AfterShutDownFor(g, Some(w), on); g1.(alive := g1.alive - {w})
  }

  function RunFrom(g: Globals, ops: seq<Op>): Option<Globals>
    decreases |ops|
  {
    if ops == [] then Some(g)
    else match RunFrom(g, ops[..|ops| - 1])
      case None => None
      case Some(h) => if Legal(h, ops[|ops| - 1]) then Some(After(h, ops[|ops| - 1])) else None
  }

  // ----- The methods, over the globals as fields

  class Logger {
    var g: Globals

    constructor ()
      ensures g == AtStart
    {
      g := AtStart;
    }

    method InitializeLogging(w: Option<WorkerId>)
      modifies this
      ensures g == AfterInitialize(old(g), w)
    {
      if g.logger.Some? || w.None? {
        g := g.(exited := true);
        return;
      }
      if !g.firstSaved {
        if g.first.Some? {
          g := Give(g, w.value, Save(g.first.value));
          g := g.(first := None);
        }
        g := g.(firstSaved := true);
      }
      g := g.(logger := w);
      g := g.(hook := Nothing);
      g := g.(counter := 0);
    }

    method PushMessageToLogger(m: Message)
      modifies this
      ensures g == AfterPush(old(g), m)
    {
      if g.logger.None? {
        if !g.firstSet {
          g := g.(firstSet := true, first := Some(Early(m)));
        }
        return;
      }
      g := Give(g, g.logger.value, Save(m));
    }

    method ShutDownLoggingForActiveOnly(w: Option<WorkerId>, warningOn: bool) returns (wasActive: bool)
      modifies this
      ensures g == AfterShutDownFor(old(g), w, warningOn)
      ensures wasActive <==> !RefusesShutdown(old(g), w)
    {
      if g.logger.Some? && w.Some? && g.logger != w {
        if warningOn {
          PushMessageToLogger(NotActive);
        }
        return false;
      }
      g := g.(logger := None);
      return true;
    }
  }

  // ----- The active worker

  predicate ActiveIsAlive(g: Globals) {
    && (g.logger.Some? ==> g.logger.value in g.alive)
    && g.alive <= g.given.Keys
  }

  // Over every legal run the pointer is null or points to a worker that exists, so no message is ever
  // handed to a destroyed one.
  lemma {:induction false} ActiveWorkerIsAlive(ops: seq<Op>, g: Globals)
    requires RunFrom(AtStart, ops) == Some(g)
    ensures ActiveIsAlive(g)
    decreases |ops|
  {
    hide After, Legal, ActiveIsAlive;
    if ops == [] {
      StartIsAlive();
    } else {
      var h := RunFrom(AtStart, ops[..|ops| - 1]).value;
      ActiveWorkerIsAlive(ops[..|ops| - 1], h);
      StepKeepsAlive(h, ops[|ops| - 1]);
    }
  }

  lemma StartIsAlive()
    ensures ActiveIsAlive(AtStart)
  {
  }

  lemma StepKeepsAlive(g: Globals, op: Op)
    requires Legal(g, op) && ActiveIsAlive(g)
    ensures ActiveIsAlive(After(g, op))
  {
    hide Early;
  }

  // A second initialization, or one without a worker, ends the process and changes nothing else; any other
  // makes the worker the active one, disarms the hook and starts the counting anew.
  lemma InitializesExactly(g: Globals, w: Option<WorkerId>)
    requires Legal(g, Initialize(w))
    ensures var h := After(g, Initialize(w));
            && (h.exited <==> g.logger.Some? || w.None?)
            && (h.exited ==> h == g.(exited := true))
            && (!h.exited ==> h.logger == w && h.hook == Nothing && h.counter == 0 && h.firstTrace == g.firstTrace)
            && (!h.exited && !g.firstSaved ==> h.first.None? && h.firstSaved)
  {
  }

  // Destroying a worker that is not the active one leaves the active one in place; destroying the
  // active one always leaves none. The active one is told so by a warning, if that level is enabled.
  lemma DestroyAffectsOnlyItsOwnWorker(ops: seq<Op>, g: Globals, w: WorkerId, on: bool)
    requires RunFrom(AtStart, ops) == Some(g) && Legal(g, Destroy(w, on))
    ensures var g' := After(g, Destroy(w, on));
            && g'.logger == (if g.logger == Some(w) then None else g.logger)
            && ActiveIsAlive(g')
            && GivenTo(g', w) == GivenTo(g, w)
            && (g.logger.Some? && g.logger != Some(w) && on ==>
                  var jobs := GivenTo(g', g.logger.value);
                  |jobs| == |GivenTo(g, g.logger.value)| + 1 && jobs[..|jobs| - 1] == GivenTo(g, g.logger.value)
                  && jobs[|jobs| - 1].Save? && jobs[|jobs| - 1].msg.level == WARNING)
  {
    hide Early;
    ActiveWorkerIsAlive(ops, g);
  }

  // ----- The first message logged too early

  predicate NoInitialize(ops: seq<Op>) {
    forall op | op in ops :: !op.Initialize?
  }

  function FirstLog(ops: seq<Op>): Option<Message> {
    if ops == [] then None
    else if ops[0].Log? then Some(ops[0].msg)
    else FirstLog(ops[1..])
  }

  lemma {:induction false} FirstLogSnoc(ops: seq<Op>, op: Op)
    ensures FirstLog(ops + [op]) == if FirstLog(ops).Some? then FirstLog(ops) else if op.Log? then Some(op.msg) else None
    decreases |ops|
  {
    if ops == [] {
      assert [op][1..] == [];
    } else {
      assert (ops + [op])[1..] == ops[1..] + [op];
      FirstLogSnoc(ops[1..], op);
    }
  }

  ghost predicate Quiet(g: Globals) {
    g.logger.None? && !g.firstSaved && !g.exited && forall w :: GivenTo(g, w) == []
  }

  lemma QuietStep(g: Globals, op: Op)
    requires Quiet(g) && Legal(g, op) && !op.Initialize?
    ensures var h := After(g, op);
            && Quiet(h)
            && h.firstSet == (g.firstSet || op.Log?)
            && h.first == if op.Log? && !g.firstSet then Some(Early(op.msg)) else g.first
  {
    hide Early;
    var h := After(g, op);
    forall w ensures GivenTo(h, w) == [] {
      assert GivenTo(g, w) == [];
    }
  }

  // Until somebody initializes, the first message is the only trace that logging leaves.
  lemma {:induction false} BeforeInitialize(ops: seq<Op>, g: Globals)
    requires RunFrom(AtStart, ops) == Some(g) && NoInitialize(ops)
    ensures Quiet(g)
    ensures g.firstSet <==> FirstLog(ops).Some?
    ensures g.first == if FirstLog(ops).Some? then Some(Early(FirstLog(ops).value)) else None
    decreases |ops|
  {
    hide Early, After, Legal;
    if ops != [] {
      var n := |ops| - 1;
      assert ops == ops[..n] + [ops[n]] && ops[n] in ops;
      assert forall op | op in ops[..n] :: op in ops;
      BeforeInitialize(ops[..n], RunFrom(AtStart, ops[..n]).value);
      FirstLogSnoc(ops[..n], ops[n]);
      QuietStep(RunFrom(AtStart, ops[..n]).value, ops[n]);
    }
  }

  // It keeps its level and its text, behind the note.
  lemma EarlyMessageKeepsItsText(ops: seq<Op>, g: Globals)
    requires RunFrom(AtStart, ops) == Some(g) && NoInitialize(ops) && FirstLog(ops).Some?
    ensures var m := FirstLog(ops).value;
            g.first == Some(Message(m.level, "LOGGER NOT INITIALIZED:\n\t\t" + m.text, m.closing))
  {
    BeforeInitialize(ops, g);
  }

  // What a logger without any memory of early messages would do: each message goes to whichever
  // worker is active when it is logged, or nowhere.
  function DirectOf(active: Option<WorkerId>, op: Op, w: WorkerId): seq<WorkerJob> {
    match op
    case Log(m) => if active == Some(w) then [Save(m)] else []
    case Destroy(v, on) => if on && active == Some(w) && v != w then [Save(NotActive)] else []
    case _ => []
  }

  function ActiveNext(active: Option<WorkerId>, op: Op): Option<WorkerId> {
    match op
    case Initialize(w) => if active.None? then w else active
    case ShutDown => None
    case Destroy(v, _) => if active == Some(v) then None else active
    case _ => active
  }

  function ActiveAfter(active: Option<WorkerId>, ops: seq<Op>): Option<WorkerId>
    decreases |ops|
  {
    if ops == [] then active else ActiveNext(ActiveAfter(active, ops[..|ops| - 1]), ops[|ops| - 1])
  }

  function Direct(active: Option<WorkerId>, ops: seq<Op>, w: WorkerId): seq<WorkerJob>
    decreases |ops|
  {
    if ops == [] then []
    else Direct(active, ops[..|ops| - 1], w) + DirectOf(ActiveAfter(active, ops[..|ops| - 1]), ops[|ops| - 1], w)
  }

  lemma DirectStep(g: Globals, op: Op, w: WorkerId)
    requires Legal(g, op) && g.firstSaved && ActiveIsAlive(g)
    ensures var h := After(g, op);
            && h.firstSaved && ActiveIsAlive(h)
            && h.logger == ActiveNext(g.logger, op)
            && GivenTo(h, w) == GivenTo(g, w) + DirectOf(g.logger, op, w)
  {
    hide Early;
  }

  // Once logging has been initialized, the code behaves like the memoryless logger for good: whatever
  // is logged too early from then on is never delivered.
  lemma {:induction false} AfterFirstInitialize(g: Globals, ops: seq<Op>, h: Globals, w: WorkerId)
    requires RunFrom(g, ops) == Some(h) && g.firstSaved && ActiveIsAlive(g)
    ensures h.firstSaved && ActiveIsAlive(h)
    ensures h.logger == ActiveAfter(g.logger, ops)
    ensures GivenTo(h, w) == GivenTo(g, w) + Direct(g.logger, ops, w)
    decreases |ops|
  {
    hide After, Legal;
    if ops != [] {
      var b := RunFrom(g, ops[..|ops| - 1]).value;
      AfterFirstInitialize(g, ops[..|ops| - 1], b, w);
      DirectStep(b, ops[|ops| - 1], w);
    }
  }

  // Every run: the first message logged before the first initialization is delivered, once, to the
  // worker of that initialization and ahead of everything else it is given; no other message logged
  // without a logger is ever delivered to anybody.
  lemma FirstEarlyMessageIsDeliveredOnce(pre: seq<Op>, v: WorkerId, post: seq<Op>, g: Globals, h: Globals, w: WorkerId)
    requires NoInitialize(pre) && RunFrom(AtStart, pre) == Some(g) && Legal(g, Initialize(Some(v)))
    requires RunFrom(After(g, Initialize(Some(v))), post) == Some(h)
    ensures var early := FirstLog(pre);
            GivenTo(h, w) == (if w == v && early.Some? then [Save(Early(early.value))] else []) + Direct(Some(v), post, w)
  {
    hide Early, RunFrom, FirstLog, Direct;
    BeforeInitialize(pre, g);
    ActiveWorkerIsAlive(pre, g);
    var g1 := After(g, Initialize(Some(v)));
    assert GivenTo(g, w) == [] && GivenTo(g, v) == [];
    assert GivenTo(g1, w) == if w == v && g.first.Some? then [Save(g.first.value)] else [];
    assert g1.firstSaved && g1.logger == Some(v) && ActiveIsAlive(g1);
    AfterFirstInitialize(g1, post, h, w);
  }
}
