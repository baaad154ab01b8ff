// crashhandler_unix.cpp: the actions g3log takes over from the operating system and gives back.
module CrashHandler {

  type Signal = int

  // Own is g3log's signalHandler; every other action is only told apart by a number.
  datatype Action = Own | Other(id: int)

  // The numbers of the signals to handle, in the order of a std::map; their names are not modelled.
  type Signals = s: seq<Signal> | forall i, j :: 0 <= i < j < |s| ==> s[i] < s[j] witness []

  // signals  gSignals
  // saved    gSavedSigActions
  // os       the action the operating system has for each signal; sigaction fails for any other number
  datatype Table = Table(signals: Signals, saved: map<Signal, Action>, os: map<Signal, Action>)

  const SIGILL := 4
  const SIGABRT := 6
  const SIGFPE := 8
  const SIGSEGV := 11
  const SIGTERM := 15

  // kSignals
  const DEFAULT_SIGNALS: Signals := [SIGILL, SIGABRT, SIGFPE, SIGSEGV, SIGTERM]

  function AtStart(original: map<Signal, Action>): Table {
    Table(DEFAULT_SIGNALS, map[], original)
  }

  // ----- The calls as functions on tables

  // restoreSignalHandler
  function Restored(t: Table, k: Signal): Table {
    if k !in t.saved then t
    else t.(os := if k in t.os then t.os[k := t.saved[k]] else t.os, saved := t.saved - {k})
  }

  // restoreSignalHandler for each of ks
  function RestoredAll(t: Table, ks: seq<Signal>): Table {
    t.(os := map k | k in t.os :: if k in ks && k in t.saved then t.saved[k] else t.os[k],
       saved := map k | k in t.saved && k !in ks :: t.saved[k])
  }

  function AllOwn(os: map<Signal, Action>, ks: seq<Signal>): map<Signal, Action> {
    map k | k in os :: if k in ks then Own else os[k]
  }

  // The old actions that sigaction hands out.
  function Taken(os: map<Signal, Action>, ks: seq<Signal>): map<Signal, Action> {
    map k | k in os && k in ks :: os[k]
  }

  // installSignalHandler for each of ks
  function InstalledOn(t: Table, ks: seq<Signal>): Table {
    t.(os := AllOwn(t.os, ks), saved := t.saved + Taken(t.os, ks))
  }

  // installCrashHandler
  function Installed(t: Table): Table {
    InstalledOn(t, t.signals)
  }

  // overrideSetupSignals
  function Overridden(t: Table, signals: Signals): Table {
    Installed(RestoredAll(t, t.signals).(signals := signals))
  }

  lemma RestoreOneMore(t: Table, ks: seq<Signal>, k: Signal)
    ensures RestoredAll(t, ks + [k]) == Restored(RestoredAll(t, ks), k)
    ensures RestoredAll(t, []) == t
  {
  }

  // One turn of the loop; a number on the list occurs once.
  lemma InstallOneMore(t: Table, ks: seq<Signal>, k: Signal)
    requires k !in ks
    ensures var u := InstalledOn(t, ks);
            InstalledOn(t, ks + [k]) ==
            if k !in u.os then u else u.(os := u.os[k := Own], saved := u.saved[k := u.os[k]])
    ensures InstalledOn(t, []) == t
  {
    OneMoreOwn(t.os, ks, k);
    OneMoreTaken(t.os, ks, k);
    var u := InstalledOn(t, ks);
    assert k in u.os <==> k in t.os;
    assert k in t.os ==> u.os[k] == t.os[k];
  }

  lemma OneMoreOwn(os: map<Signal, Action>, ks: seq<Signal>, k: Signal)
    ensures AllOwn(os, ks + [k]) == if k in os then AllOwn(os, ks)[k := Own] else AllOwn(os, ks)
    ensures AllOwn(os, []) == os
  {
  }

  lemma OneMoreTaken(os: map<Signal, Action>, ks: seq<Signal>, k: Signal)
    ensures Taken(os, ks + [k]) == if k in os then Taken(os, ks)[k := os[k]] else Taken(os, ks)
    ensures Taken(os, []) == map[]
  {
  }

  // ----- The methods

  class Handlers {
    var signals: Signals
    var saved: map<Signal, Action>
    var os: map<Signal, Action>
    // firstExit in shouldDoExit, a 64-bit counter
    var exits: nat

    function Now(): Table
      reads this
    {
      Table(signals, saved, os)
    }

    constructor (original: map<Signal, Action>)
      ensures Now() == AtStart(original) && exits == 0
    {
      signals := DEFAULT_SIGNALS;
      saved := map[];
      os := original;
      exits := 0;
    }

    method ShouldDoExit() returns (first: bool)
      modifies this`exits
      ensures first <==> old(exits) == 0
      ensures exits == (old(exits) + 1) % 0x1_0000_0000_0000_0000
    {
      var count := exits;
      exits := (exits + 1) % 0x1_0000_0000_0000_0000;
      return count == 0;
    }

    method InstallSignalHandler()
      modifies this`saved, this`os
      ensures Now() == Installed(old(Now()))
    {
      hide InstalledOn;
      InstallOneMore(Now(), [], 0);
      var i := 0;
      while i < |signals|
        invariant i <= |signals|
        invariant Now() == InstalledOn(old(Now()), signals[..i])
      {
        var k := signals[i];
        ghost var done := signals[..i];
        InstallOneMore(old(Now()), done, k);
        if k in os {
          var oldAction := os[k];
          os := os[k := Own];
          saved := saved[k := oldAction];
        }
        assert signals[..i + 1] == done + [k];
        i := i + 1;
      }
      assert signals[..i] == signals;
    }

    method RestoreSignalHandler(k: Signal)
      modifies this`saved, this`os
      ensures Now() == Restored(old(Now()), k)
    {
      if k !in saved {
        return;
      }
      if k in os {
        os := os[k := saved[k]];
      }
      saved := saved - {k};
    }

    method OverrideSetupSignals(overrideSignals: Signals)
      modifies this`signals, this`saved, this`os
      ensures Now() == Overridden(old(Now()), overrideSignals)
    {
      var i := 0;
      while i < |signals|
        invariant i <= |signals| && signals == old(signals)
        invariant Now() == RestoredAll(old(Now()), signals[..i])
      {
        RestoreOneMore(old(Now()), signals[..i], signals[i]);
        RestoreSignalHandler(signals[i]);
        assert signals[..i + 1] == signals[..i] + [signals[i]];
        i := i + 1;
      }
      assert signals[..i] == signals;
      signals := overrideSignals;
      InstallSignalHandler();
    }

    method RestoreSignalHandlerToDefault()
      modifies this`signals, this`saved, this`os
      ensures Now() == Overridden(old(Now()), DEFAULT_SIGNALS)
    {
      OverrideSetupSignals(DEFAULT_SIGNALS);
    }

    // Up to the kill: the result is the action that the raised signal meets, if the number is a signal.
    method ExitWithDefaultSignalHandler(k: Signal) returns (met: set<Action>)
      modifies this`saved, this`os
      ensures Now() == Restored(old(Now()), k)
      ensures met == Met(old(Now()), k)
    {
      RestoreSignalHandler(k);
      met := if k in os then {os[k]} else {};
    }
  }

  // The action that a signal raised by exitWithDefaultSignalHandler meets, if the number is a signal.
  function Met(t: Table, k: Signal): set<Action> {
    if k !in t.os then {} else if k in t.saved then {t.saved[k]} else {t.os[k]}
  }

  // ----- Runs

  datatype Op = Install | Restore(k: Signal) | Override(signals: Signals) | RestoreToDefault

  function Step(t: Table, op: Op): Table {
    match op
    case Install => Installed(t)
    case Restore(k) => Restored(t, k)
    case Override(signals) => Overridden(t, signals)
    case RestoreToDefault => Overridden(t, DEFAULT_SIGNALS)
  }

  function Run(original: map<Signal, Action>, ops: seq<Op>): Table
    decreases |ops|
  {
    if ops == [] then AtStart(original) else Step(Run(original, ops[..|ops| - 1]), ops[|ops| - 1])
  }

  ghost predicate NothingSaved(t: Table) {
    forall k :: k !in t.saved
  }

  // No plain install, such as the one of the first initializeLogging, while actions are saved.
  ghost predicate InstallsMeetNoSavedAction(original: map<Signal, Action>, ops: seq<Op>)
    decreases |ops|
  {
    ops == [] ||
    (var n := |ops| - 1;
     InstallsMeetNoSavedAction(original, ops[..n]) && (ops[n].Install? ==> NothingSaved(Run(original, ops[..n]))))
  }

  // The table differs from the original exactly on the saved signals, which g3log handles, and what is
  // saved is the original action.
  ghost predicate Faithful(t: Table, original: map<Signal, Action>) {
    && (forall k :: k in t.os <==> k in original)
    && (forall k | k in t.saved :: k in t.os)
    && forall k | k in t.os :: if k in t.saved then t.os[k] == Own && t.saved[k] == original[k] else t.os[k] == original[k]
  }

  ghost predicate SameActions(a: map<Signal, Action>, b: map<Signal, Action>) {
    forall k :: (k in a <==> k in b) && (k in a && k in b ==> a[k] == b[k])
  }

  // Only signals on the current list have saved actions.
  ghost predicate Listed(t: Table) {
    forall k | k in t.saved :: k in t.signals && k in t.os
  }

  // The original action of k is out of reach: both the table and the saved actions hold g3log's own.
  ghost predicate Lost(t: Table, k: Signal) {
    k in t.os && t.os[k] == Own && (k in t.saved ==> t.saved[k] == Own)
  }

  lemma StepKeepsListed(t: Table, op: Op)
    requires Listed(t)
    ensures Listed(Step(t, op))
  {
  }

  lemma StepKeepsLost(t: Table, op: Op, k: Signal)
    requires Lost(t, k)
    ensures Lost(Step(t, op), k)
  {
  }

  lemma RestoreAllGivesBack(t: Table, original: map<Signal, Action>)
    requires Faithful(t, original) && Listed(t)
    ensures SameActions(RestoredAll(t, t.signals).os, original) && NothingSaved(RestoredAll(t, t.signals))
  {
  }

  lemma StepKeepsFaithful(t: Table, op: Op, original: map<Signal, Action>)
    requires Faithful(t, original) && Listed(t) && (op.Install? ==> NothingSaved(t))
    ensures Faithful(Step(t, op), original)
  {
    RestoreAllGivesBack(t, original);
  }

  lemma InstallOverSavedLoses(t: Table, original: map<Signal, Action>)
    requires Faithful(t, original) && Listed(t) && !NothingSaved(t)
    ensures exists k :: Lost(Installed(t), k)
  {
    var k :| k in t.saved;
    assert Lost(Installed(t), k);
  }

  lemma LostIsNotFaithful(t: Table, original: map<Signal, Action>, k: Signal)
    requires Lost(t, k) && Own !in original.Values
    ensures !Faithful(t, original)
  {
    if k in original {
      assert original[k] in original.Values;
    }
  }

  // Exactly when every plain install meets no saved action do the table and the saved actions still
  // describe the world before g3log; after one that does, no later call can repair them.
  lemma {:induction false} FaithfulExactly(original: map<Signal, Action>, ops: seq<Op>)
    requires Own !in original.Values
    ensures var t := Run(original, ops);
            && Listed(t)
            && (Faithful(t, original) <==> InstallsMeetNoSavedAction(original, ops))
            && (Faithful(t, original) || exists k :: Lost(t, k))
    decreases |ops|
  {
    hide Step, Faithful, Listed, Lost;
    if ops == [] {
      StartIsFaithful(original);
    } else {
      var n := |ops| - 1;
      var t := Run(original, ops[..n]);
      FaithfulExactly(original, ops[..n]);
      StepKeepsListed(t, ops[n]);
      if !Faithful(t, original) {
        var k :| Lost(t, k);
        StepKeepsLost(t, ops[n], k);
        LostIsNotFaithful(Step(t, ops[n]), original, k);
      } else if ops[n].Install? && !NothingSaved(t) {
        InstallOverSavedLoses(t, original);
        var k :| Lost(Installed(t), k);
        InstallIsAStep(t);
        LostIsNotFaithful(Step(t, ops[n]), original, k);
      } else {
        StepKeepsFaithful(t, ops[n], original);
      }
    }
  }

  lemma StartIsFaithful(original: map<Signal, Action>)
    ensures Faithful(AtStart(original), original) && Listed(AtStart(original))
  {
  }

  lemma InstallIsAStep(t: Table)
    ensures Step(t, Install) == Installed(t)
  {
  }

  // After such a run the signal raised at the end of a fatal message meets the action it had before
  // g3log, for every signal, and an empty override gives the whole table back.
  lemma RaisedSignalMeetsOriginalAction(original: map<Signal, Action>, ops: seq<Op>, k: Signal)
    requires Own !in original.Values && InstallsMeetNoSavedAction(original, ops)
    ensures Met(Run(original, ops), k) == if k in original then {original[k]} else {}
    ensures var t := Overridden(Run(original, ops), []); SameActions(t.os, original) && NothingSaved(t)
  {
    hide Run, InstallsMeetNoSavedAction;
    FaithfulExactly(original, ops);
    var t := Run(original, ops);
    RestoreAllGivesBack(t, original);
    InstallOneMore(RestoredAll(t, t.signals).(signals := []), [], 0);
  }

  // Restoring one signal after such a run puts its original action back, for good as far as g3log is
  // concerned, and touches no other signal; restoring it again does nothing.
  lemma RestoreGivesBackOne(original: map<Signal, Action>, ops: seq<Op>, k: Signal)
    requires Own !in original.Values && InstallsMeetNoSavedAction(original, ops)
    ensures var t, r := Run(original, ops), Restored(Run(original, ops), k);
            && Faithful(r, original) && k !in r.saved
            && (k in original ==> k in r.os && r.os[k] == original[k])
            && (forall j | j != k :: (j in r.saved <==> j in t.saved) && (j in r.os <==> j in t.os))
            && (forall j | j != k && j in t.os && j in r.os :: r.os[j] == t.os[j])
            && Restored(r, k) == r
  {
    hide Run, InstallsMeetNoSavedAction;
    FaithfulExactly(original, ops);
    StepKeepsFaithful(Run(original, ops), Restore(k), original);
  }

  // Without the condition, some signal meets g3log's own handler again.
  lemma OtherwiseSomeSignalMeetsOwn(original: map<Signal, Action>, ops: seq<Op>)
    requires Own !in original.Values && !InstallsMeetNoSavedAction(original, ops)
    ensures exists k :: Met(Run(original, ops), k) == {Own}
  {
    hide Run, InstallsMeetNoSavedAction;
    FaithfulExactly(original, ops);
    var k :| Lost(Run(original, ops), k);
    assert Met(Run(original, ops), k) == {Own};
  }

  // It happens when a program overrides the signals before it initializes logging.
  lemma OverrideBeforeInitialize(original: map<Signal, Action>)
    requires Own !in original.Values && SIGTERM in original
    ensures Met(Run(original, [Override([SIGTERM]), Install]), SIGTERM) == {Own}
  {
    var ops := [Override([SIGTERM]), Install];
    var first := [Override([SIGTERM])];
    assert ops[..1] == first && first[..0] == [];
    var t := Run(original, first);
    assert t == Overridden(Run(original, []), [SIGTERM]);
    assert t.os[SIGTERM] == Own && SIGTERM in t.os && t.signals == [SIGTERM];
    assert Run(original, ops) == Installed(t);
  }

  // The first installation takes over SIGILL, SIGABRT, SIGFPE, SIGSEGV and SIGTERM, as far as the system
  // has them, and no other signal.
  lemma InstallTakesTheFive(original: map<Signal, Action>, k: Signal)
    requires Own !in original.Values && k in original
    ensures var t := Run(original, [Install]);
            && k in t.os
            && t.os[k] == (if k in {4, 6, 8, 11, 15} then Own else original[k])
            && (k in t.saved <==> k in {4, 6, 8, 11, 15})
            && (k in t.saved ==> t.saved[k] == original[k])
  {
    assert [Install][..0] == [];
    assert forall j :: j in DEFAULT_SIGNALS <==> j in {4, 6, 8, 11, 15} by {
      DefaultSignals();
    }
  }

  lemma DefaultSignals()
    ensures forall j :: j in DEFAULT_SIGNALS <==> j in {4, 6, 8, 11, 15}
  {
    assert DEFAULT_SIGNALS[0] == 4 && DEFAULT_SIGNALS[1] == 6 && DEFAULT_SIGNALS[2] == 8;
    assert DEFAULT_SIGNALS[3] == 11 && DEFAULT_SIGNALS[4] == 15;
  }

  // An override takes over exactly the signals it lists, gives back all others, and restoreToDefault is
  // the override with the five.
  lemma OverrideTakesItsSignals(original: map<Signal, Action>, ops: seq<Op>, signals: Signals, k: Signal)
    requires Own !in original.Values && InstallsMeetNoSavedAction(original, ops) && k in original
    ensures var t := Run(original, ops + [Override(signals)]);
            && t.signals == signals && k in t.os && t.os[k] == if k in signals then Own else original[k]
    ensures var t := Run(original, ops + [RestoreToDefault]);
            k in t.os && t.os[k] == if k in {4, 6, 8, 11, 15} then Own else original[k]
  {
    hide InstallsMeetNoSavedAction;
    FaithfulExactly(original, ops);
    var t := Run(original, ops);
    RestoreAllGivesBack(t, original);
    DefaultSignals();
    var more, back := ops + [Override(signals)], ops + [RestoreToDefault];
    assert more[..|more| - 1] == ops && back[..|back| - 1] == ops;
  }
}
