// loglevels.cpp with dynamic logging: the map from level values to levels and whether they are enabled.
module LogLevels {
  import opened Common

  datatype LoggingLevel = LoggingLevel(status: bool, level: Level)

  datatype Status = Absent | Enabled | Disabled

  type Levels = map<int, LoggingLevel>

  // g_log_levels: a std::map, which is walked in the order of its keys.
  datatype Registry = Registry(order: seq<int>, levels: Levels)

  predicate Ascending(s: seq<int>) {
    forall i, j :: 0 <= i < j < |s| ==> s[i] < s[j]
  }

  ghost predicate WellFormed(r: Registry) {
    Ascending(r.order) && forall k :: k in r.order <==> k in r.levels
  }

  // g_log_level_defaults
  const DEFAULTS := Registry([DEBUG.value, INFO.value, WARNING.value, ERROR.value, FATAL.value],
                             map[DEBUG.value := LoggingLevel(true, DEBUG), INFO.value := LoggingLevel(true, INFO),
                                 WARNING.value := LoggingLevel(true, WARNING), ERROR.value := LoggingLevel(true, ERROR),
                                 FATAL.value := LoggingLevel(true, FATAL)])

  // What operator[] inserts for a missing key.
  const BLANK := LoggingLevel(false, INFO)

  // ----- The calls as functions

  function Insert(order: seq<int>, k: int): (r: seq<int>)
    requires Ascending(order)
    ensures Ascending(r)
    ensures forall j :: j in r <==> j in order || j == k
  {
    if order == [] || k < order[0] then [k] + order
    else if k == order[0] then order
    else
      var rest := Insert(order[1..], k);
      assert forall i | 0 <= i < |rest| :: rest[i] in rest && (rest[i] in order[1..] || rest[i] == k);
      assert forall j :: j in order <==> j == order[0] || j in order[1..];
      [order[0]] + rest
  }

  function Put(r: Registry, k: int, l: LoggingLevel): Registry
    requires Ascending(r.order)
  {
    Registry(Insert(r.order, k), r.levels[k := l])
  }

  // set
  function AfterSet(levels: Levels, level: Level, enabled: bool): Levels {
    if level.value in levels then levels[level.value := LoggingLevel(enabled, level)] else levels
  }

  // One turn of the loop in setHighest.
  function Visit(levels: Levels, k: int, from: int): Levels
    requires k in levels
  {
    AfterSet(levels, levels[k].level, k >= from)
  }

  function VisitAll(levels: Levels, keys: seq<int>, from: int): (r: Levels)
    requires forall k | k in keys :: k in levels
    ensures forall k :: k in r <==> k in levels
    decreases |keys|
  {
    if keys == [] then levels
    else
      var n := |keys| - 1;
      assert keys[n] in keys && forall k | k in keys[..n] :: k in keys;
      Visit(VisitAll(levels, keys[..n], from), keys[n], from)
  }

  // setHighest
  function AfterSetHighest(r: Registry, from: Level): Registry
    requires forall k | k in r.order :: k in r.levels
  {
    if from.value in r.levels then r.(levels := VisitAll(r.levels, r.order, from.value)) else r
  }

  // The status of the entries under keys; enableAll and disableAll do this for all keys.
  function AllSetTo(levels: Levels, keys: seq<int>, enabled: bool): Levels {
    map k | k in levels :: if k in keys then levels[k].(status := enabled) else levels[k]
  }

  lemma SetOneMore(levels: Levels, keys: seq<int>, k: int, enabled: bool)
    requires k in levels && k !in keys
    ensures AllSetTo(levels, keys + [k], enabled) == AllSetTo(levels, keys, enabled)[k := levels[k].(status := enabled)]
    ensures AllSetTo(levels, [], enabled) == levels
  {
  }

  // logLevel
  function AfterLogLevel(r: Registry, level: Level): Registry
    requires Ascending(r.order)
  {
    if level.value in r.levels then r else Put(r, level.value, BLANK)
  }

  // getStatus
  function StatusOf(levels: Levels, level: Level): Status {
    if level.value !in levels then Absent else if levels[level.value].status then Enabled else Disabled
  }

  // ----- The methods

  class LevelRegistry {
    var order: seq<int>
    var levels: Levels

    function Now(): Registry
      reads this
    {
      Registry(order, levels)
    }

    constructor ()
      ensures Now() == DEFAULTS && WellFormed(Now())
    {
      order, levels := DEFAULTS.order, DEFAULTS.levels;
    }

    method AddLogLevel(level: Level, enabled: bool)
      requires WellFormed(Now())
      modifies this
      ensures Now() == Put(old(Now()), level.value, LoggingLevel(enabled, level)) && WellFormed(Now())
    {
      order := Insert(order, level.value);
      levels := levels[level.value := LoggingLevel(enabled, level)];
    }

    method Reset()
      modifies this
      ensures Now() == DEFAULTS && WellFormed(Now())
    {
      order, levels := DEFAULTS.order, DEFAULTS.levels;
    }

    method SetHighest(from: Level)
      requires WellFormed(Now())
      modifies this`levels
      ensures WellFormed(Now()) && Now() == AfterSetHighest(old(Now()), from)
    {
      hide Visit;
      if from.value in levels {
        ghost var was := levels;
        var i := 0;
        while i < |order|
          invariant i <= |order|
          invariant forall k :: k in levels <==> k in was
          invariant levels == VisitAll(was, order[..i], from.value)
        {
          var k := order[i];
          assert k in order;
          assert order[..i + 1][..i] == order[..i];
          VisitOneMore(was, order[..i], k, from.value);
          assert order[..i + 1] == order[..i] + [k];
          if k < from.value {
            Disable(levels[k].level);
          } else {
            Enable(levels[k].level);
          }
          i := i + 1;
        }
        assert order[..i] == order;
      }
    }

    method Set(level: Level, enabled: bool)
      modifies this`levels
      ensures levels == AfterSet(old(levels), level, enabled)
    {
      if level.value in levels {
        levels := levels[level.value := LoggingLevel(enabled, level)];
      }
    }

    method Disable(level: Level)
      modifies this`levels
      ensures levels == AfterSet(old(levels), level, false)
    {
      Set(level, false);
    }

    method Enable(level: Level)
      modifies this`levels
      ensures levels == AfterSet(old(levels), level, true)
    {
      Set(level, true);
    }

    method SetAll(enabled: bool)
      requires WellFormed(Now())
      modifies this`levels
      ensures levels == AllSetTo(old(levels), order, enabled) && WellFormed(Now())
    {
      var i := 0;
      while i < |order|
        invariant i <= |order|
        invariant levels == AllSetTo(old(levels), order[..i], enabled)
      {
        assert order[i] in order && order[i] !in order[..i] && order[..i + 1] == order[..i] + [order[i]];
        SetOneMore(old(levels), order[..i], order[i], enabled);
        levels := levels[order[i] := levels[order[i]].(status := enabled)];
        i := i + 1;
      }
      assert order[..i] == order;
    }

    method GetStatus(level: Level) returns (s: Status)
      ensures s == StatusOf(levels, level)
    {
      if level.value !in levels {
        return Absent;
      }
      return if levels[level.value].status then Enabled else Disabled;
    }

    // operator[] inserts before it reads.
    method LogLevel(level: Level) returns (enabled: bool)
      requires WellFormed(Now())
      modifies this
      ensures Now() == AfterLogLevel(old(Now()), level) && WellFormed(Now())
      ensures enabled <==> StatusOf(old(levels), level) == Enabled
    {
      if level.value !in levels {
        order := Insert(order, level.value);
        levels := levels[level.value := BLANK];
      }
      return levels[level.value].status;
    }
  }

  lemma VisitOneMore(levels: Levels, keys: seq<int>, k: int, from: int)
    requires k in levels && forall j | j in keys :: j in levels
    ensures forall j | j in keys + [k] :: j in levels
    ensures VisitAll(levels, keys + [k], from) ==
            AfterSet(VisitAll(levels, keys, from), VisitAll(levels, keys, from)[k].level, k >= from)
  {
    assert (keys + [k])[..|keys|] == keys;
  }

  // ----- Keys and levels

  // The entry was inserted by looking up a level that had never been added: its key is not the value
  // of the level it holds.
  predicate Stray(levels: Levels, k: int) {
    k in levels && levels[k].level.value != k
  }

  ghost predicate Coherent(levels: Levels) {
    forall k :: !Stray(levels, k)
  }

  // The only level found under a foreign key is the default INFO.
  ghost predicate StraysAreInfo(levels: Levels) {
    && INFO.value in levels
    && forall k | Stray(levels, k) :: levels[k].level == INFO
  }

  datatype Op =
    | Add(level: Level, enabled: bool)
    | Reset
    | SetHighest(from: Level)
    | Set(level: Level, enabled: bool)
    | SetAll(enabled: bool)
    | LogLevel(level: Level)

  function Step(r: Registry, op: Op): Registry
    requires Ascending(r.order) && forall k | k in r.order :: k in r.levels
  {
    match op
    case Add(level, enabled) => Put(r, level.value, LoggingLevel(enabled, level))
    case Reset => DEFAULTS
    case SetHighest(from) => AfterSetHighest(r, from)
    case Set(level, enabled) => r.(levels := AfterSet(r.levels, level, enabled))
    case SetAll(enabled) => r.(levels := AllSetTo(r.levels, r.order, enabled))
    case LogLevel(level) => AfterLogLevel(r, level)
  }

  lemma StepKeepsWellFormed(r: Registry, op: Op)
    requires WellFormed(r)
    ensures WellFormed(Step(r, op))
  {
  }

  // The registry after any calls in any order.
  ghost function Run(ops: seq<Op>): (r: Registry)
    ensures WellFormed(r)
    decreases |ops|
  {
    if ops == [] then DEFAULTS
    else
      StepKeepsWellFormed(Run(ops[..|ops| - 1]), ops[|ops| - 1]);
      Step(Run(ops[..|ops| - 1]), ops[|ops| - 1])
  }

  // ----- setHighest

  // The keys whose visit writes to the entry of INFO: its own, and the strays.
  predicate WritesInfo(levels: Levels, k: int) {
    k == INFO.value || Stray(levels, k)
  }

  // What a walk over some of the keys has done to one entry.
  ghost predicate VisitedEntry(levels: Levels, keys: seq<int>, from: int, k: int, l: LoggingLevel)
    requires k in levels
  {
    if Stray(levels, k) then l == levels[k]
    else if k != INFO.value then l == if k in keys then LoggingLevel(k >= from, levels[k].level) else levels[k]
    else
      && (l.status <==>
          if exists j | j in keys :: WritesInfo(levels, j) then exists j | j in keys :: WritesInfo(levels, j) && j >= from
          else levels[k].status)
      && l.level == if exists j | j in keys :: Stray(levels, j) then INFO else levels[k].level
  }

  ghost predicate Visited(levels: Levels, keys: seq<int>, from: int, r: Levels) {
    && (forall k :: k in r <==> k in levels)
    && forall k | k in levels && k in r :: VisitedEntry(levels, keys, from, k, r[k])
  }

  lemma {:induction false} VisitAllIs(levels: Levels, keys: seq<int>, from: int)
    requires Ascending(keys) && StraysAreInfo(levels) && forall k | k in keys :: k in levels
    ensures Visited(levels, keys, from, VisitAll(levels, keys, from))
    decreases |keys|
  {
    hide Visited;
    if keys == [] {
      NothingVisited(levels, from);
    } else {
      var n := |keys| - 1;
      var before := keys[..n];
      assert keys == before + [keys[n]] && keys[n] in keys;
      assert forall k | k in before :: k in keys;
      VisitAllIs(levels, before, from);
      VisitOne(levels, before, keys[n], from, VisitAll(levels, before, from));
    }
  }

  lemma NothingVisited(levels: Levels, from: int)
    requires StraysAreInfo(levels)
    ensures Visited(levels, [], from, levels)
  {
  }

  lemma VisitOne(levels: Levels, keys: seq<int>, k: int, from: int, r: Levels)
    requires Ascending(keys + [k]) && StraysAreInfo(levels) && Visited(levels, keys, from, r)
    requires k in levels && k in r
    ensures Visited(levels, keys + [k], from, Visit(r, k, from))
  {
    var r' := Visit(r, k, from);
    assert VisitedEntry(levels, keys, from, k, r[k]);
    assert k !in keys && (forall j | j in keys :: j < k) by {
      assert forall i | 0 <= i < |keys| :: (keys + [k])[i] == keys[i];
      assert (keys + [k])[|keys|] == k;
    }
    if WritesInfo(levels, k) {
      VisitInfo(levels, keys, k, from, r);
    }
    forall j | j in levels && j in r' ensures VisitedEntry(levels, keys + [k], from, j, r'[j]) {
      assert VisitedEntry(levels, keys, from, j, r[j]);
      if j == INFO.value && !WritesInfo(levels, k) {
        assert k in keys + [k];
        assert forall i | WritesInfo(levels, i) :: i in keys + [k] <==> i in keys;
        assert forall i | Stray(levels, i) :: i in keys + [k] <==> i in keys;
        SameWriters(levels, keys, keys + [k], from, r[j]);
      }
    }
  }

  lemma SameWriters(levels: Levels, keys: seq<int>, more: seq<int>, from: int, l: LoggingLevel)
    requires INFO.value in levels && !Stray(levels, INFO.value)
    requires forall i | WritesInfo(levels, i) :: i in more <==> i in keys
    requires VisitedEntry(levels, keys, from, INFO.value, l)
    ensures VisitedEntry(levels, more, from, INFO.value, l)
  {
    assert (exists j | j in keys :: WritesInfo(levels, j)) <==> (exists j | j in more :: WritesInfo(levels, j));
    assert (exists j | j in keys :: Stray(levels, j)) <==> (exists j | j in more :: Stray(levels, j));
    assert (exists j | j in keys :: WritesInfo(levels, j) && j >= from) <==>
           (exists j | j in more :: WritesInfo(levels, j) && j >= from);
  }

  // The last visit that writes to INFO decides, and it is the one with the greatest key.
  lemma VisitInfo(levels: Levels, keys: seq<int>, k: int, from: int, r: Levels)
    requires StraysAreInfo(levels) && Visited(levels, keys, from, r) && !Stray(levels, INFO.value)
    requires k in levels && k in r && WritesInfo(levels, k) && k !in keys && forall j | j in keys :: j < k
    ensures INFO.value in Visit(r, k, from)
    ensures VisitedEntry(levels, keys + [k], from, INFO.value, Visit(r, k, from)[INFO.value])
  {
    var more := keys + [k];
    assert VisitedEntry(levels, keys, from, k, r[k]) && VisitedEntry(levels, keys, from, INFO.value, r[INFO.value]);
    assert k in more && WritesInfo(levels, k);
    assert (exists j | j in more :: WritesInfo(levels, j) && j >= from) <==> k >= from;
    assert (exists j | j in more :: Stray(levels, j)) <==> Stray(levels, k) || exists j | j in keys :: Stray(levels, j);
    if Stray(levels, k) {
      assert r[k] == levels[k] && levels[k].level == INFO;
    }
  }

  // On every map that can arise: setHighest on a registered level keeps the keys, enables exactly the
  // levels from there up, except that it passes over stray entries, each of which acts on INFO instead.
  lemma SetHighestExactly(r: Registry, from: Level, k: int)
    requires WellFormed(r) && StraysAreInfo(r.levels) && from.value in r.levels
    ensures var s := AfterSetHighest(r, from);
            && WellFormed(s) && s.order == r.order
            && (k in r.levels ==>
                  s.levels[k].status ==
                  if Stray(r.levels, k) then r.levels[k].status
                  else k >= from.value || (k == INFO.value && exists j :: Stray(r.levels, j) && j >= from.value))
  {
    VisitAllIs(r.levels, r.order, from.value);
  }

  // ----- Runs

  // The call writes an entry whose key is the value of its level.
  predicate Repairs(op: Op, k: int) {
    op.Reset? || ((op.Add? || op.Set?) && op.level.value == k)
  }

  // Looking up a level that was never added is the one call that makes a stray entry, unless the level
  // has INFO's number; adding or setting the level again, or a reset, are the ones that repair it.
  lemma StraysExactly(r: Registry, op: Op, k: int)
    requires WellFormed(r) && StraysAreInfo(r.levels)
    ensures Stray(Step(r, op).levels, k) <==>
            || (op.LogLevel? && op.level.value == k && k !in r.levels && k != INFO.value)
            || (Stray(r.levels, k) && !Repairs(op, k))
  {
    if op.SetHighest? && op.from.value in r.levels {
      VisitAllIs(r.levels, r.order, op.from.value);
      if k in r.levels {
        assert VisitedEntry(r.levels, r.order, op.from.value, k, Step(r, op).levels[k]);
      }
    }
  }

  lemma StepKeepsStraysInfo(r: Registry, op: Op)
    requires WellFormed(r) && StraysAreInfo(r.levels)
    ensures StraysAreInfo(Step(r, op).levels)
  {
    var s := Step(r, op);
    forall k | Stray(s.levels, k) ensures s.levels[k].level == INFO {
      StraysExactly(r, op, k);
      if op.SetHighest? && op.from.value in r.levels {
        VisitAllIs(r.levels, r.order, op.from.value);
        assert VisitedEntry(r.levels, r.order, op.from.value, k, s.levels[k]);
      }
    }
  }

  lemma {:induction false} RunKeepsStraysInfo(ops: seq<Op>)
    ensures StraysAreInfo(Run(ops).levels)
    decreases |ops|
  {
    if ops != [] {
      RunKeepsStraysInfo(ops[..|ops| - 1]);
      StepKeepsStraysInfo(Run(ops[..|ops| - 1]), ops[|ops| - 1]);
    }
  }

  // What the documentation of setHighest promises.
  ghost predicate EnabledExactlyFrom(levels: Levels, from: int) {
    forall k | k in levels :: levels[k].status <==> k >= from
  }

  // After any run, setHighest on a registered level does what it promises if and only if every stray
  // entry happens to have the right status already and none of them switches INFO on by mistake.
  lemma SetHighestKeepsItsPromiseExactly(ops: seq<Op>, from: Level)
    requires from.value in Run(ops).levels
    ensures var r := Run(ops);
            EnabledExactlyFrom(AfterSetHighest(r, from).levels, from.value) <==>
            forall j | Stray(r.levels, j) ::
              (r.levels[j].status <==> j >= from.value) && !(INFO.value < from.value <= j)
  {
    hide AfterSetHighest, Run;
    RunKeepsStraysInfo(ops);
    var r := Run(ops);
    var s := AfterSetHighest(r, from);
    forall k ensures k in r.levels <==> k in s.levels {
      SetHighestExactly(r, from, k);
    }
    forall k | k in r.levels
      ensures s.levels[k].status ==
              if Stray(r.levels, k) then r.levels[k].status
              else k >= from.value || (k == INFO.value && exists j :: Stray(r.levels, j) && j >= from.value)
    {
      SetHighestExactly(r, from, k);
    }
    if EnabledExactlyFrom(s.levels, from.value) {
      assert s.levels[INFO.value].status <==> INFO.value >= from.value;
      forall j | Stray(r.levels, j)
        ensures (r.levels[j].status <==> j >= from.value) && !(INFO.value < from.value <= j)
      {
        assert s.levels[j].status <==> j >= from.value;
      }
    }
  }

  // In particular it does so when every level was added before it was first looked up.
  lemma CoherentSetHighest(ops: seq<Op>, from: Level)
    requires Coherent(Run(ops).levels) && from.value in Run(ops).levels
    ensures EnabledExactlyFrom(AfterSetHighest(Run(ops), from).levels, from.value)
    ensures Coherent(AfterSetHighest(Run(ops), from).levels)
  {
    hide AfterSetHighest, Run;
    SetHighestKeepsItsPromiseExactly(ops, from);
    RunKeepsStraysInfo(ops);
    forall k ensures !Stray(AfterSetHighest(Run(ops), from).levels, k) {
      StraysExactly(Run(ops), SetHighest(from), k);
      SetHighestIsAStep(Run(ops), from);
    }
  }

  lemma SetHighestIsAStep(r: Registry, from: Level)
    requires WellFormed(r)
    ensures Step(r, SetHighest(from)) == AfterSetHighest(r, from)
  {
  }

  // Calling it again changes no entry, on every map that can arise.
  lemma SetHighestIsIdempotent(ops: seq<Op>, from: Level, k: int)
    requires k in Run(ops).levels
    ensures var once := AfterSetHighest(Run(ops), from);
            && WellFormed(once) && k in once.levels
            && k in AfterSetHighest(once, from).levels
            && AfterSetHighest(once, from).levels[k] == once.levels[k]
  {
    hide Run;
    var r := Run(ops);
    RunKeepsStraysInfo(ops);
    SetHighestIsAStep(r, from);
    StepKeepsWellFormed(r, SetHighest(from));
    StepKeepsStraysInfo(r, SetHighest(from));
    var once := AfterSetHighest(r, from);
    if from.value in r.levels {
      forall j ensures Stray(once.levels, j) <==> Stray(r.levels, j) {
        StraysExactly(r, SetHighest(from), j);
      }
      TwoVisits(r.levels, r.order, from.value, once.levels, AfterSetHighest(once, from).levels, k);
    }
  }

  lemma TwoVisits(levels: Levels, order: seq<int>, from: int, once: Levels, twice: Levels, k: int)
    requires Ascending(order) && StraysAreInfo(levels) && StraysAreInfo(once) && k in levels
    requires forall j :: j in order <==> j in levels
    requires once == VisitAll(levels, order, from) && twice == VisitAll(once, order, from)
    requires forall j :: Stray(once, j) <==> Stray(levels, j)
    ensures k in twice && twice[k] == once[k]
  {
    hide VisitAll;
    VisitAllIs(levels, order, from);
    VisitAllIs(once, order, from);
    assert VisitedEntry(levels, order, from, k, once[k]);
    assert VisitedEntry(once, order, from, k, twice[k]);
    if k == INFO.value {
      assert k in order && WritesInfo(levels, k) && WritesInfo(once, k);
      assert (exists j | j in order :: WritesInfo(levels, j) && j >= from) <==>
             (exists j | j in order :: WritesInfo(once, j) && j >= from);
    }
  }

  // Looking up an absent level turns it from Absent to Disabled, and setHighest cannot enable it.
  lemma LookedUpLevelStaysDisabled(ops: seq<Op>, level: Level, from: Level)
    requires StatusOf(Run(ops).levels, level) == Absent && from.value in Run(ops).levels
    ensures var r := AfterLogLevel(Run(ops), level);
            && StatusOf(r.levels, level) == Disabled
            && (forall other: Level :: other.value != level.value ==>
                  StatusOf(r.levels, other) == StatusOf(Run(ops).levels, other))
            && WellFormed(r)
            && StatusOf(AfterSetHighest(r, from).levels, level) == Disabled
  {
    hide Run;
    var r := Run(ops);
    RunKeepsStraysInfo(ops);
    var s := Step(r, LogLevel(level));
    StepKeepsWellFormed(r, LogLevel(level));
    StepKeepsStraysInfo(r, LogLevel(level));
    assert Stray(s.levels, level.value);
    SetHighestExactly(s, from, level.value);
  }

  // What is set is read back, by getStatus and by logLevel, for this level and for every other: set
  // never adds a level, and it changes the status of one level at most.
  lemma SetIsReadBack(ops: seq<Op>, level: Level, enabled: bool, other: Level)
    ensures var before, after := Run(ops), Run(ops + [Set(level, enabled)]);
            && StatusOf(after.levels, other) ==
               (if other.value == level.value && StatusOf(before.levels, other) != Absent then
                  (if enabled then Enabled else Disabled)
                else StatusOf(before.levels, other))
            && StatusOf(AfterLogLevel(after, other).levels, other) ==
               (if StatusOf(after.levels, other) == Absent then Disabled else StatusOf(after.levels, other))
  {
    var more := ops + [Set(level, enabled)];
    assert more[..|more| - 1] == ops && more[|more| - 1] == Set(level, enabled);
  }

  // An added level has the status it was added with, whether it was there before or not, and no other
  // level is touched.
  lemma AddIsReadBack(ops: seq<Op>, level: Level, enabled: bool, other: Level)
    ensures var before, after := Run(ops), Run(ops + [Add(level, enabled)]);
            StatusOf(after.levels, other) ==
            if other.value != level.value then StatusOf(before.levels, other)
            else if enabled then Enabled else Disabled
    ensures var after := Run(ops + [Add(level, enabled)]);
            level.value in after.levels && after.levels[level.value].level == level
  {
    var more := ops + [Add(level, enabled)];
    assert more[..|more| - 1] == ops && more[|more| - 1] == Add(level, enabled);
  }

  // After a reset, and at the start, DEBUG, INFO, WARNING, ERROR and FATAL are enabled and no other
  // level is there.
  lemma ResetEnablesTheFive(ops: seq<Op>, level: Level)
    ensures StatusOf(Run(ops + [Reset]).levels, level) ==
            if level.value in {100, 300, 500, 800, 1000} then Enabled else Absent
    ensures StatusOf(Run([]).levels, level) == StatusOf(Run(ops + [Reset]).levels, level)
  {
    var more := ops + [Reset];
    assert more[..|more| - 1] == ops && more[|more| - 1] == Reset;
  }

  // setHighest on a level that is not there changes nothing at all.
  lemma SetHighestIgnoresUnknown(ops: seq<Op>, from: Level)
    requires StatusOf(Run(ops).levels, from) == Absent
    ensures Run(ops + [SetHighest(from)]) == Run(ops)
  {
    var more := ops + [SetHighest(from)];
    assert more[..|more| - 1] == ops && more[|more| - 1] == SetHighest(from);
  }

  // enableAll and disableAll give every level that is there the status, and add none.
  lemma SetAllIsReadBack(ops: seq<Op>, enabled: bool, level: Level)
    ensures var before, after := Run(ops), Run(ops + [SetAll(enabled)]);
            StatusOf(after.levels, level) ==
            if StatusOf(before.levels, level) == Absent then Absent else if enabled then Enabled else Disabled
  {
    var more := ops + [SetAll(enabled)];
    assert more[..|more| - 1] == ops && more[|more| - 1] == SetAll(enabled);
  }
}
