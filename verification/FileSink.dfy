// filesink.cpp over abstract files: a file is the list of entries written to it, opening it for
// writing empties it, and whether it can be opened is up to the environment.
module FileSinks {
  import opened Common

  // Notice: the lines a file sink writes about itself (log file changes, exit); wording not modelled.
  datatype Entry = Header | Log(msg: Message) | Notice

  type Path = string
  type Disk = map<Path, seq<Entry>>

  // path        _log_file_with_path, the file that _outptr writes to
  // firstEntry  _firstEntry, no message has arrived yet
  // min         min_loglevel_
  datatype Sink = Sink(path: Path, firstEntry: bool, min: Level, disk: Disk)

  predicate Valid(s: Sink) {
    s.path in s.disk
  }

  // ----- The calls as functions

  // operator<< on filestream()
  function Append(s: Sink, e: Entry): (r: Sink)
    requires Valid(s)
    ensures Valid(r)
  {
    s.(disk := s.disk[s.path := s.disk[s.path] + [e]])
  }

  predicate Accepts(min: Level, m: Message) {
    m.level.value >= min.value
  }

  // fileWrite
  function AfterWrite(s: Sink, m: Message): (r: Sink)
    requires Valid(s)
    ensures Valid(r)
  {
    var s1 := if s.firstEntry then Append(s, Header).(firstEntry := false) else s;
    if Accepts(s1.min, m) then Append(s1, Log(m)) else s1
  }

  // changeLogFile; the name of the new file depends on host, user and time, so it is a parameter, and
  // so is whether it can be opened.
  function AfterChange(s: Sink, prospect: Path, opens: bool): (r: Sink)
    requires Valid(s)
    ensures Valid(r)
  {
    if !opens then Append(s, Notice)
    else
      var s1 := s.(disk := s.disk[prospect := []]);
      var s2 := Append(Append(s1, Header), Notice);
      Append(s2.(path := prospect), Notice)
  }

  // ----- The methods

  class FileSink {
    var path: Path
    var firstEntry: bool
    const min: Level
    var disk: Disk

    function Now(): Sink
      reads this
    {
      Sink(path, firstEntry, min, disk)
    }

    // The constructor retries in the current directory and gives up when that fails as well.
    constructor (path: Path, min: Level, disk: Disk)
      ensures Now() == Sink(path, true, min, disk[path := []]) && Valid(Now())
    {
      this.path := path;
      this.firstEntry := true;
      this.min := min;
      this.disk := disk[path := []];
    }

    method Write(e: Entry)
      requires Valid(Now())
      modifies this`disk
      ensures Now() == Append(old(Now()), e)
    {
      disk := disk[path := disk[path] + [e]];
    }

    method AddLogFileHeader()
      requires Valid(Now())
      modifies this`disk
      ensures Now() == Append(old(Now()), Header)
    {
      Write(Header);
    }

    method FileWrite(m: Message)
      requires Valid(Now())
      modifies this
      ensures Now() == AfterWrite(old(Now()), m)
    {
      if firstEntry {
        AddLogFileHeader();
        firstEntry := false;
      }
      if m.level.value < min.value {
        return;
      }
      Write(Log(m));
    }

    method ChangeLogFile(prospect: Path, opens: bool) returns (r: Option<Path>)
      requires Valid(Now())
      modifies this
      ensures Now() == AfterChange(old(Now()), prospect, opens)
      ensures r == if opens then Some(path) else None
    {
      if !opens {
        Write(Notice);
        return None;
      }
      disk := disk[prospect := []];
      AddLogFileHeader();
      Write(Notice);
      path := prospect;
      Write(Notice);
      return Some(path);
    }
  }

  // ----- Runs

  datatype Op = Save(msg: Message) | Change(prospect: Path, opens: bool)

  function Step(s: Sink, op: Op): (r: Sink)
    requires Valid(s)
    ensures Valid(r)
  {
    match op
    case Save(m) => AfterWrite(s, m)
    case Change(p, opens) => AfterChange(s, p, opens)
  }

  function Run(path: Path, min: Level, disk: Disk, ops: seq<Op>): (r: Sink)
    ensures Valid(r)
    decreases |ops|
  {
    if ops == [] then Sink(path, true, min, disk[path := []])
    else Step(Run(path, min, disk, ops[..|ops| - 1]), ops[|ops| - 1])
  }

  // The log messages among the entries of a file.
  function Logs(es: seq<Entry>): seq<Message>
    decreases |es|
  {
    if es == [] then []
    else Logs(es[..|es| - 1]) + if es[|es| - 1].Log? then [es[|es| - 1].msg] else []
  }

  lemma LogsSnoc(es: seq<Entry>, e: Entry)
    ensures Logs(es + [e]) == Logs(es) + if e.Log? then [e.msg] else []
  {
    assert (es + [e])[..|es|] == es;
  }

  // The messages that pass the level filter.
  function Accepted(min: Level, ms: seq<Message>): seq<Message>
    decreases |ms|
  {
    if ms == [] then []
    else Accepted(min, ms[..|ms| - 1]) + if Accepts(min, ms[|ms| - 1]) then [ms[|ms| - 1]] else []
  }

  function Saved(ops: seq<Op>): seq<Message>
    decreases |ops|
  {
    if ops == [] then []
    else Saved(ops[..|ops| - 1]) + if ops[|ops| - 1].Save? then [ops[|ops| - 1].msg] else []
  }

  // A run seen from its calls: the files used one after the other, each with the messages accepted
  // while it was the current one.
  datatype Chapter = Chapter(path: Path, msgs: seq<Message>)

  function Chapters(path: Path, min: Level, ops: seq<Op>): (r: seq<Chapter>)
    ensures r != []
    decreases |ops|
  {
    if ops == [] then [Chapter(path, [])]
    else NextChapters(Chapters(path, min, ops[..|ops| - 1]), min, ops[|ops| - 1])
  }

  function NextChapters(cs: seq<Chapter>, min: Level, op: Op): (r: seq<Chapter>)
    requires cs != []
    ensures r != []
  {
    var last := |cs| - 1;
    match op
    case Save(m) => if Accepts(min, m) then cs[last := cs[last].(msgs := cs[last].msgs + [m])] else cs
    case Change(p, opens) => if opens then cs + [Chapter(p, [])] else cs
  }

  function Text(cs: seq<Chapter>): seq<Message>
    decreases |cs|
  {
    if cs == [] then [] else Text(cs[..|cs| - 1]) + cs[|cs| - 1].msgs
  }

  // The file of chapter i was not opened again.
  predicate IsLast(cs: seq<Chapter>, i: nat)
    requires i < |cs|
  {
    forall j | i < j < |cs| :: cs[j].path != cs[i].path
  }

  lemma TextSnoc(cs: seq<Chapter>, c: Chapter)
    ensures Text(cs + [c]) == Text(cs) + c.msgs
  {
    assert (cs + [c])[..|cs|] == cs;
  }

  lemma AcceptedSnoc(min: Level, ms: seq<Message>, m: Message)
    ensures Accepted(min, ms + [m]) == Accepted(min, ms) + if Accepts(min, m) then [m] else []
  {
    assert (ms + [m])[..|ms|] == ms;
  }

  lemma TextNext(cs: seq<Chapter>, min: Level, op: Op)
    requires cs != []
    ensures Text(NextChapters(cs, min, op)) == Text(cs) + if op.Save? && Accepts(min, op.msg) then [op.msg] else []
  {
    hide Text;
    var last := |cs| - 1;
    assert cs == cs[..last] + [cs[last]];
    TextSnoc(cs[..last], cs[last]);
    match op
    case Save(m) =>
      var c := cs[last].(msgs := cs[last].msgs + [m]);
      assert cs[last := c] == cs[..last] + [c];
      TextSnoc(cs[..last], c);
    case Change(p, _) =>
      TextSnoc(cs, Chapter(p, []));
  }

  // All accepted messages, in order, are in the chapters.
  lemma {:induction false} ChaptersHoldAll(path: Path, min: Level, ops: seq<Op>)
    ensures Text(Chapters(path, min, ops)) == Accepted(min, Saved(ops))
    decreases |ops|
  {
    hide NextChapters, Accepts;
    if ops == [] {
      TextSnoc([], Chapter(path, []));
      assert [] + [Chapter(path, [])] == [Chapter(path, [])];
    } else {
      var n := |ops| - 1;
      ChaptersHoldAll(path, min, ops[..n]);
      TextNext(Chapters(path, min, ops[..n]), min, ops[n]);
      if ops[n].Save? {
        AcceptedSnoc(min, Saved(ops[..n]), ops[n].msg);
      } else {
        assert Saved(ops) == Saved(ops[..n]);
      }
    }
  }

  // The disk agrees with the chapters: the file of the last chapter on a path holds its messages.
  ghost predicate OnDisk(cs: seq<Chapter>, s: Sink) {
    && cs != [] && s.path == cs[|cs| - 1].path
    && forall i | 0 <= i < |cs| && IsLast(cs, i) :: cs[i].path in s.disk && Logs(s.disk[cs[i].path]) == cs[i].msgs
  }

  lemma StepLogs(s: Sink, op: Op, p: Path)
    requires Valid(s)
    ensures p in s.disk ==> p in Step(s, op).disk
    ensures op.Save? && p in s.disk ==>
              Logs(Step(s, op).disk[p]) == Logs(s.disk[p]) + if p == s.path && Accepts(s.min, op.msg) then [op.msg] else []
    ensures op.Change? && !op.opens && p in s.disk ==> Logs(Step(s, op).disk[p]) == Logs(s.disk[p])
    ensures op.Change? && op.opens ==>
              && op.prospect in Step(s, op).disk && Logs(Step(s, op).disk[op.prospect]) == []
              && (p in s.disk && p != op.prospect ==> Logs(Step(s, op).disk[p]) == Logs(s.disk[p]))
    ensures Step(s, op).path == if op.Change? && op.opens then op.prospect else s.path
    ensures Step(s, op).min == s.min
  {
    hide Logs;
    var d := s.disk[s.path];
    match op
    case Save(m) =>
      LogsSnoc(d, Header);
      LogsSnoc(d, Log(m));
      LogsSnoc(d + [Header], Log(m));
    case Change(q, opens) =>
      LogsSnoc(d, Notice);
      ThreeNotices(d);
      ThreeNotices([]);
  }

  lemma ThreeNotices(d: seq<Entry>)
    ensures Logs(d + [Header] + [Notice]) == Logs(d) && Logs(d + [Header] + [Notice] + [Notice]) == Logs(d)
    ensures Logs([]) == [] && Logs([] + [Notice]) == []
  {
    LogsSnoc(d, Header);
    LogsSnoc(d + [Header], Notice);
    LogsSnoc(d + [Header] + [Notice], Notice);
    LogsSnoc([], Notice);
  }

  lemma StepKeepsOnDisk(cs: seq<Chapter>, s: Sink, op: Op)
    requires Valid(s) && OnDisk(cs, s)
    ensures OnDisk(NextChapters(cs, s.min, op), Step(s, op))
  {
    hide OnDisk;
    if op.Change? && op.opens {
      ChangeKeepsOnDisk(cs, s, op);
    } else {
      SaveKeepsOnDisk(cs, s, op);
    }
  }

  lemma SaveKeepsOnDisk(cs: seq<Chapter>, s: Sink, op: Op)
    requires Valid(s) && OnDisk(cs, s) && (op.Change? ==> !op.opens)
    ensures OnDisk(NextChapters(cs, s.min, op), Step(s, op))
  {
    hide Logs, Step, Accepts;
    var ds := NextChapters(cs, s.min, op);
    var r := Step(s, op);
    StepLogs(s, op, s.path);
    forall i | 0 <= i < |ds| && IsLast(ds, i) ensures ds[i].path in r.disk && Logs(r.disk[ds[i].path]) == ds[i].msgs {
      StepLogs(s, op, ds[i].path);
      assert forall j | i <= j < |cs| :: ds[j].path == cs[j].path;
      assert IsLast(cs, i);
    }
  }

  lemma ChangeKeepsOnDisk(cs: seq<Chapter>, s: Sink, op: Op)
    requires Valid(s) && OnDisk(cs, s) && op.Change? && op.opens
    ensures OnDisk(NextChapters(cs, s.min, op), Step(s, op))
  {
    hide Logs, Step;
    var ds := NextChapters(cs, s.min, op);
    var r := Step(s, op);
    StepLogs(s, op, s.path);
    forall i | 0 <= i < |ds| && IsLast(ds, i) ensures ds[i].path in r.disk && Logs(r.disk[ds[i].path]) == ds[i].msgs {
      StepLogs(s, op, ds[i].path);
      if i < |cs| {
        assert ds[|cs|].path != ds[i].path;
        assert forall j | i <= j < |cs| :: ds[j] == cs[j];
        assert IsLast(cs, i);
      }
    }
  }

  lemma {:induction false} RunKeepsOnDisk(path: Path, min: Level, disk: Disk, ops: seq<Op>)
    ensures OnDisk(Chapters(path, min, ops), Run(path, min, disk, ops))
    ensures Run(path, min, disk, ops).min == min
    decreases |ops|
  {
    hide Step, NextChapters, OnDisk;
    if ops == [] {
      FreshOnDisk(path, min, disk);
    } else {
      var n := |ops| - 1;
      RunKeepsOnDisk(path, min, disk, ops[..n]);
      StepKeepsOnDisk(Chapters(path, min, ops[..n]), Run(path, min, disk, ops[..n]), ops[n]);
      StepLogs(Run(path, min, disk, ops[..n]), ops[n], path);
    }
  }

  lemma FreshOnDisk(path: Path, min: Level, disk: Disk)
    ensures OnDisk([Chapter(path, [])], Sink(path, true, min, disk[path := []]))
  {
  }

  // What is left of a chapter on the disk: the messages of its file, unless the file was opened again.
  function KeptOf(cs: seq<Chapter>, i: nat, disk: Disk): seq<Message>
    requires i < |cs|
  {
    if IsLast(cs, i) && cs[i].path in disk then Logs(disk[cs[i].path]) else []
  }

  // What the files of a run hold in the end, in the order in which they were used for the last time.
  function Kept(cs: seq<Chapter>, upto: nat, disk: Disk): seq<Message>
    requires upto <= |cs|
  {
    if upto == 0 then [] else Kept(cs, upto - 1, disk) + KeptOf(cs, upto - 1, disk)
  }

  // A chapter whose file was opened again, and so emptied, after messages had been written to it.
  predicate Overwritten(cs: seq<Chapter>, i: nat)
    requires i < |cs|
  {
    !IsLast(cs, i) && cs[i].msgs != []
  }

  lemma KeptOfExactly(cs: seq<Chapter>, s: Sink, i: nat)
    requires OnDisk(cs, s) && i < |cs|
    ensures KeptOf(cs, i, s.disk) == if Overwritten(cs, i) then [] else cs[i].msgs
  {
  }

  lemma {:induction false} KeptExactly(cs: seq<Chapter>, s: Sink, upto: nat)
    requires OnDisk(cs, s) && upto <= |cs|
    ensures |Kept(cs, upto, s.disk)| <= |Text(cs[..upto])|
    ensures Kept(cs, upto, s.disk) == Text(cs[..upto]) <==> forall i | 0 <= i < upto :: !Overwritten(cs, i)
  {
    hide KeptOf, OnDisk;
    if upto > 0 {
      var n := upto - 1;
      KeptExactly(cs, s, n);
      assert cs[..upto] == cs[..n] + [cs[n]];
      TextSnoc(cs[..n], cs[n]);
      KeptOfExactly(cs, s, n);
      SamePrefix(Kept(cs, n, s.disk), Text(cs[..n]), cs[n].msgs);
    }
  }

  lemma SamePrefix<T>(a: seq<T>, b: seq<T>, c: seq<T>)
    ensures a + c == b + c <==> a == b
  {
    if a + c == b + c {
      assert |a + c| == |a| + |c| && |b + c| == |b| + |c|;
      assert a == (a + c)[..|a|] && b == (b + c)[..|b|];
    }
  }

  // Over every run of writes and file changes, successful or not: the files together hold exactly the
  // accepted messages, in order, if and only if no file that already held some was opened again. A
  // reopened file loses exactly its own messages.
  lemma NothingIsLostExactly(path: Path, min: Level, disk: Disk, ops: seq<Op>)
    ensures var cs := Chapters(path, min, ops);
            Kept(cs, |cs|, Run(path, min, disk, ops).disk) == Accepted(min, Saved(ops))
            <==> forall i | 0 <= i < |cs| :: !Overwritten(cs, i)
  {
    var cs := Chapters(path, min, ops);
    RunKeepsOnDisk(path, min, disk, ops);
    KeptExactly(cs, Run(path, min, disk, ops), |cs|);
    assert cs[..|cs|] == cs;
    ChaptersHoldAll(path, min, ops);
  }

  // With distinct names nothing is lost, and each file holds the messages of its own chapter.
  lemma DistinctFilesLoseNothing(path: Path, min: Level, disk: Disk, ops: seq<Op>)
    requires var cs := Chapters(path, min, ops); forall i, j :: 0 <= i < j < |cs| ==> cs[i].path != cs[j].path
    ensures var cs := Chapters(path, min, ops);
            var s := Run(path, min, disk, ops);
            && Kept(cs, |cs|, s.disk) == Accepted(min, Saved(ops))
            && forall i | 0 <= i < |cs| :: cs[i].path in s.disk && Logs(s.disk[cs[i].path]) == cs[i].msgs
  {
    NothingIsLostExactly(path, min, disk, ops);
    RunKeepsOnDisk(path, min, disk, ops);
    var cs := Chapters(path, min, ops);
    forall i | 0 <= i < |cs| ensures IsLast(cs, i) {
    }
  }

  // A failed change leaves file and name as they were, but for one line in the current file.
  lemma FailedChangeChangesNothing(s: Sink, prospect: Path)
    requires Valid(s)
    ensures var r := AfterChange(s, prospect, false);
            && r.path == s.path && r.firstEntry == s.firstEntry && r.min == s.min
            && r.disk == s.disk[s.path := s.disk[s.path] + [Notice]]
            && Logs(r.disk[s.path]) == Logs(s.disk[s.path])
  {
    LogsSnoc(s.disk[s.path], Notice);
  }

  // changeLogFile writes the header to the file it is about to leave: the new file has none unless the
  // change came before the first message.
  lemma HeaderGoesToTheOldFile(s: Sink, prospect: Path, m: Message)
    requires Valid(s) && prospect != s.path
    ensures var r := AfterWrite(AfterChange(s, prospect, true), m);
            && Header in r.disk[s.path]
            && (Header in r.disk[prospect] <==> s.firstEntry)
  {
    var c := AfterChange(s, prospect, true);
    var was := s.disk[s.path];
    assert c.disk[s.path] == was + [Header] + [Notice] && c.disk[s.path][|was|] == Header;
    assert c.disk[prospect] == [Notice];
    if s.firstEntry {
      assert c.disk[prospect] + [Header] == [Notice, Header];
      assert AfterWrite(c, m).disk[prospect][1] == Header;
    }
  }

  function LogEntries(ms: seq<Message>): seq<Entry> {
    seq(|ms|, i requires 0 <= i < |ms| => Log(ms[i]))
  }

  predicate OnlySaves(ops: seq<Op>) {
    forall op | op in ops :: op.Save?
  }

  lemma NothingAccepted(min: Level)
    ensures Accepted(min, []) == []
  {
  }

  // Without a change of file, the file is the header, written when the first message arrives whether it
  // is accepted or not, and then exactly the accepted messages.
  lemma {:induction false} FileStartsWithHeader(path: Path, min: Level, disk: Disk, ops: seq<Op>)
    requires OnlySaves(ops)
    ensures var s := Run(path, min, disk, ops);
            && s.path == path && s.min == min && (s.firstEntry <==> ops == [])
            && s.disk == disk[path := if ops == [] then [] else [Header] + LogEntries(Accepted(min, Saved(ops)))]
    decreases |ops|
  {
    hide AfterWrite, LogEntries, Accepted;
    if ops != [] {
      var n := |ops| - 1;
      assert ops[n] in ops && forall op | op in ops[..n] :: op in ops;
      FileStartsWithHeader(path, min, disk, ops[..n]);
      var m, a := ops[n].msg, Accepted(min, Saved(ops[..n]));
      AcceptedSnoc(min, Saved(ops[..n]), m);
      if n == 0 {
        NothingAccepted(min);
        assert Saved(ops[..n]) == [];
      }
      WriteExtends(Run(path, min, disk, ops[..n]), disk, a, m);
    }
  }

  lemma WriteExtends(s: Sink, disk: Disk, a: seq<Message>, m: Message)
    requires s.disk == disk[s.path := if s.firstEntry then [] else [Header] + LogEntries(a)] && (s.firstEntry ==> a == [])
    ensures var r := AfterWrite(s, m);
            && r.path == s.path && r.min == s.min && !r.firstEntry
            && r.disk == disk[s.path := [Header] + LogEntries(a + if Accepts(s.min, m) then [m] else [])]
  {
    hide Accepts;
    assert LogEntries(a + [m]) == LogEntries(a) + [Log(m)] && a + [] == a && LogEntries([]) == [];
    assert [] + [Header] == [Header] && [Header] + [] == [Header];
    assert [Header] + (LogEntries(a) + [Log(m)]) == [Header] + LogEntries(a) + [Log(m)];
  }

  // ----- The level filter, message by message

  lemma {:induction false} AcceptedCount(min: Level, ms: seq<Message>, i: nat)
    requires i <= |ms|
    ensures |Accepted(min, ms[..i])| == |set j | 0 <= j < i && ms[j].level.value >= min.value|
    decreases i
  {
    if i == 0 {
      NothingAccepted(min);
    } else {
      hide Accepted;
      AcceptedCount(min, ms, i - 1);
      CountOneMore(min.value, ms, i - 1);
      assert ms[..i] == ms[..i - 1] + [ms[i - 1]];
      AcceptedSnoc(min, ms[..i - 1], ms[i - 1]);
    }
  }

  lemma CountOneMore(v: int, ms: seq<Message>, i: nat)
    requires i < |ms|
    ensures |set j | 0 <= j < i + 1 && ms[j].level.value >= v| ==
            |set j | 0 <= j < i && ms[j].level.value >= v| + if ms[i].level.value >= v then 1 else 0
  {
    var before := set j | 0 <= j < i && ms[j].level.value >= v;
    var now := set j | 0 <= j < i + 1 && ms[j].level.value >= v;
    if ms[i].level.value >= v {
      assert now == before + {i};
    } else {
      assert now == before;
    }
  }

  // What comes later does not move what was accepted.
  lemma {:induction false} AcceptedInPlace(min: Level, ms: seq<Message>, i: nat)
    requires i < |ms| && ms[i].level.value >= min.value
    ensures var n := |Accepted(min, ms[..i])|; n < |Accepted(min, ms)| && Accepted(min, ms)[n] == ms[i]
    decreases |ms|
  {
    var last := |ms| - 1;
    if i < last {
      AcceptedInPlace(min, ms[..last], i);
      assert ms[..last][..i] == ms[..i];
    }
  }

  function Saves(ms: seq<Message>): seq<Op> {
    seq(|ms|, i requires 0 <= i < |ms| => Save(ms[i]))
  }

  lemma {:induction false} SavedAre(ms: seq<Message>)
    ensures Saved(Saves(ms)) == ms
    decreases |ms|
  {
    if ms != [] {
      var n := |ms| - 1;
      assert Saves(ms)[..n] == Saves(ms[..n]);
      SavedAre(ms[..n]);
    }
  }

  lemma {:induction false} LogsOfEntries(ms: seq<Message>)
    ensures Logs([Header] + LogEntries(ms)) == ms
    decreases |ms|
  {
    if ms == [] {
      assert [Header] + LogEntries([]) == [] + [Header];
      LogsSnoc([], Header);
    } else {
      var n := |ms| - 1;
      LogsOfEntries(ms[..n]);
      assert [Header] + LogEntries(ms) == [Header] + LogEntries(ms[..n]) + [Log(ms[n])];
      LogsSnoc([Header] + LogEntries(ms[..n]), Log(ms[n]));
    }
  }

  // The log of a file that is not changed holds exactly the messages at the minimum level or above, each
  // one once and in its place: the message with n such messages before it is the n-th of the file.
  lemma LoggedByNumber(path: Path, min: Level, disk: Disk, ms: seq<Message>)
    ensures var s := Run(path, min, disk, Saves(ms));
            && path in s.disk
            && |Logs(s.disk[path])| == |set j | 0 <= j < |ms| && ms[j].level.value >= min.value|
            && forall i | 0 <= i < |ms| && ms[i].level.value >= min.value ::
                 var n := |set j | 0 <= j < i && ms[j].level.value >= min.value|;
                 n < |Logs(s.disk[path])| && Logs(s.disk[path])[n] == ms[i]
  {
    hide Logs, Accepted, Saved, Run;
    FileStartsWithHeader(path, min, disk, Saves(ms));
    SavedAre(ms);
    AcceptedCount(min, ms, |ms|);
    assert ms[..|ms|] == ms;
    forall i | 0 <= i < |ms| && ms[i].level.value >= min.value
      ensures var n := |set j | 0 <= j < i && ms[j].level.value >= min.value|;
              n < |Accepted(min, ms)| && Accepted(min, ms)[n] == ms[i]
    {
      AcceptedCount(min, ms, i);
      AcceptedInPlace(min, ms, i);
    }
    if ms == [] {
      NoLogs();
      NothingAccepted(min);
    } else {
      LogsOfEntries(Accepted(min, ms));
    }
  }

  lemma NoLogs()
    ensures Logs([]) == []
  {
  }
}
