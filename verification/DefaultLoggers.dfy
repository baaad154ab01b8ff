// addDefaultLogger of logworker.cpp, across the pipeline and the file sinks: three file sinks with the
// minimum levels ERROR, WARNING and INFO are added one after the other.
module DefaultLoggers {
  import opened Common
  import opened ActiveObject
  import opened Pipeline
  import opened PipelineSpec
  import opened PipelineOwnership
  import opened PipelineDelivery
  import opened PipelineTheorems
  import PipelineProgress
  import PipelineShutdown
  import FileSinks

  // ----- The level filter

  lemma {:induction false} AcceptedConcat(min: Level, a: seq<Message>, b: seq<Message>)
    ensures FileSinks.Accepted(min, a + b) == FileSinks.Accepted(min, a) + FileSinks.Accepted(min, b)
    decreases |b|
  {
    if b == [] {
      assert a + b == a;
    } else {
      var n := |b| - 1;
      AcceptedConcat(min, a, b[..n]);
      assert (a + b)[..|a + b| - 1] == a + b[..n];
    }
  }

  lemma {:induction false} StricterFilter(low: Level, high: Level, ms: seq<Message>)
    requires low.value <= high.value
    ensures FileSinks.Accepted(high, FileSinks.Accepted(low, ms)) == FileSinks.Accepted(high, ms)
    decreases |ms|
  {
    if ms != [] {
      var n := |ms| - 1;
      StricterFilter(low, high, ms[..n]);
      FileSinks.AcceptedSnoc(high, FileSinks.Accepted(low, ms[..n]), ms[n]);
      assert FileSinks.Accepted(low, ms[..n]) + [] == FileSinks.Accepted(low, ms[..n]);
      assert FileSinks.Accepted(high, ms[..n]) + [] == FileSinks.Accepted(high, ms[..n]);
    }
  }

  // ----- What a file sink does with the messages its Sink delivers

  lemma {:induction false} OneChapter(path: FileSinks.Path, min: Level, ms: seq<Message>)
    ensures var cs := FileSinks.Chapters(path, min, FileSinks.Saves(ms)); |cs| == 1 && cs[0].path == path
    decreases |ms|
  {
    if ms != [] {
      var n := |ms| - 1;
      assert FileSinks.Saves(ms)[..n] == FileSinks.Saves(ms[..n]);
      OneChapter(path, min, ms[..n]);
    }
  }

  // The messages in the log file of a file sink that was delivered ms.
  function LogFile(path: FileSinks.Path, min: Level, disk: FileSinks.Disk, ms: seq<Message>): seq<Message> {
    var s := FileSinks.Run(path, min, disk, FileSinks.Saves(ms));
    if path in s.disk then FileSinks.Logs(s.disk[path]) else []
  }

  lemma LogFileIs(path: FileSinks.Path, min: Level, disk: FileSinks.Disk, ms: seq<Message>)
    ensures LogFile(path, min, disk, ms) == FileSinks.Accepted(min, ms)
  {
    var cs := FileSinks.Chapters(path, min, FileSinks.Saves(ms));
    OneChapter(path, min, ms);
    FileSinks.SavedAre(ms);
    FileSinks.DistinctFilesLoseNothing(path, min, disk, FileSinks.Saves(ms));
    FileSinks.ChaptersHoldAll(path, min, FileSinks.Saves(ms));
    assert cs == [cs[0]];
    FileSinks.TextSnoc([], cs[0]);
    assert [] + [cs[0]] == [cs[0]];
  }

  // ----- Sinks that stand alike receive alike

  lemma SameNext(st: Standing, t: WorkerTask, a: SinkId, b: SinkId)
    requires !Adds(t, a) && !Adds(t, b)
    ensures Next(st, t, a) == Next(st, t, b)
  {
  }

  lemma {:induction false} SameSlice(st: Standing, ts: seq<WorkerTask>, a: SinkId, b: SinkId)
    requires forall t | t in ts :: !Adds(t, a) && !Adds(t, b)
    ensures Slice(st, ts, a) == Slice(st, ts, b) && StandingAfter(st, ts, a) == StandingAfter(st, ts, b)
    decreases |ts|
  {
    hide Next, Gift, Adds;
    if ts != [] {
      assert ts[0] in ts;
      SameNext(st, ts[0], a, b);
      SameSlice(Next(st, ts[0], a), ts[1..], a, b);
    }
  }

  lemma {:induction false} JobsSentPrefix(ls0: seq<Label>, ls: seq<Label>)
    requires ls0 <= ls
    ensures JobsSent(ls0) <= JobsSent(ls)
    decreases |ls|
  {
    if |ls0| < |ls| {
      JobsSentPrefix(ls0, ls[..|ls| - 1]);
      assert JobsSent(ls[..|ls| - 1]) <= JobsSent(ls);
    } else {
      assert ls0 == ls;
    }
  }

  lemma SameStanding(s: State, a: SinkId, b: SinkId)
    requires Inv(s) && WorkerInv(s) && a in s.registry && b in s.registry
    ensures StandingAfter(Absent, s.worker.executed, a) == StandingAfter(Absent, s.worker.executed, b)
  {
    hide RegistryAfter, StandingAfter, Orphans, History;
    var r := RegistryAfter(s.worker.executed);
    assert a in r && b in r;
    if s.worker.done {
      ClosedAfterDone(s, a);
      ClosedAfterDone(s, b);
    } else {
      forall t | t in s.worker.executed ensures Runs(t) {
        assert t.Done? ==> s.worker.done;
      }
      PresentIffRegistered(s.worker.executed, a);
      PresentIffRegistered(s.worker.executed, b);
    }
  }

  lemma RegisteredWasExecuted(ls: seq<Label>, s: State, k: SinkId)
    requires Run(ls) == Some(s) && k in s.registry
    ensures Call(AddSink(k)) in s.worker.executed && s.worker.executed <= JobsSent(ls)
  {
    hide RegistryAfter, JobsSent, Inv, DeliveryInv, Run;
    ReachableDelivery(ls, s);
    RegisteredIsInRegistry(s, k);
    PipelineShutdown.RegisteredWasAdded(s.worker.executed, k);
    assert s.worker.executed <= History(s);
  }

  lemma RegisteredIsInRegistry(s: State, k: SinkId)
    requires DeliveryInv(s) && k in s.registry
    ensures k in RegistryAfter(s.worker.executed)
  {
    hide RegistryAfter, Received, Orphans;
  }

  lemma JobsAddedOnce(ls: seq<Label>, s: State)
    requires Run(ls) == Some(s)
    ensures forall i, j | 0 <= i < j < |JobsSent(ls)| && JobsSent(ls)[i].Call? && JobsSent(ls)[i].job.AddSink? ::
              JobsSent(ls)[i] != JobsSent(ls)[j]
  {
    hide RegistryAfter, JobsSent;
    ReachableDelivery(ls, s);
  }

  // A registered sink is not added again.
  lemma NotAddedAgain(ls0: seq<Label>, s0: State, ls: seq<Label>, s: State, k: SinkId)
    requires Run(ls0) == Some(s0) && Run(ls) == Some(s) && ls0 <= ls && k in s0.registry
    ensures s0.worker.executed <= JobsSent(ls)
    ensures forall t | t in JobsSent(ls)[|s0.worker.executed|..] :: !Adds(t, k)
  {
    hide RegistryAfter, JobsSent, AddedOnce;
    JobsSentPrefix(ls0, ls);
    var e, J := s0.worker.executed, JobsSent(ls);
    RegisteredWasExecuted(ls0, s0, k);
    JobsAddedOnce(ls, s);
    var i :| 0 <= i < |e| && e[i] == Call(AddSink(k));
    forall t | t in J[|e|..] ensures !Adds(t, k) {
      var j :| 0 <= j < |J[|e|..]| && J[|e|..][j] == t;
      assert J[i] == e[i] && J[|e| + j] == t;
    }
  }

  // From the moment the three sinks of addDefaultLogger are registered, they receive the same
  // messages: what is sent later, as far as it is delivered at all, is the same for all three.
  lemma LaterMessagesAreShared(ls0: seq<Label>, s0: State, ls: seq<Label>, s: State, a: SinkId, b: SinkId)
    requires Run(ls0) == Some(s0) && Run(ls) == Some(s) && ls0 <= ls && a in s0.registry && b in s0.registry
    ensures var J, n := JobsSent(ls), |JobsSent(ls0)|;
            && JobsSent(ls0) <= J
            && Slice(StandingAfter(Absent, J[..n], a), J[n..], a) == Slice(StandingAfter(Absent, J[..n], b), J[n..], b)
  {
    hide JobsSent, RegistryAfter, Slice, StandingAfter, Run, Inv, DeliveryInv;
    ReachableDelivery(ls0, s0);
    JobsSentPrefix(ls0, ls);
    var e := s0.worker.executed;
    assert e <= History(s0);
    StandAlike(s0, a, b);
    NotAddedAgain(ls0, s0, ls, s, a);
    NotAddedAgain(ls0, s0, ls, s, b);
    assert JobsSent(ls)[..|e|] == e;
    SharedFrom(JobsSent(ls), |e|, |JobsSent(ls0)|, a, b);
  }

  lemma StandAlike(s: State, a: SinkId, b: SinkId)
    requires Inv(s) && DeliveryInv(s) && a in s.registry && b in s.registry
    ensures StandingAfter(Absent, s.worker.executed, a) == StandingAfter(Absent, s.worker.executed, b)
  {
    hide StandingAfter, Inv;
    SameStanding(s, a, b);
  }

  // Two sinks that stand alike after m jobs, and are not added again, are owed the same from job n on.
  lemma SharedFrom(jobs: seq<WorkerTask>, m: nat, n: nat, a: SinkId, b: SinkId)
    requires m <= n <= |jobs| && StandingAfter(Absent, jobs[..m], a) == StandingAfter(Absent, jobs[..m], b)
    requires forall t | t in jobs[m..] :: !Adds(t, a) && !Adds(t, b)
    ensures Slice(StandingAfter(Absent, jobs[..n], a), jobs[n..], a) == Slice(StandingAfter(Absent, jobs[..n], b), jobs[n..], b)
  {
    hide Slice, StandingAfter, Adds;
    var mid := jobs[m..n];
    assert jobs[..n] == jobs[..m] + mid;
    assert forall t | t in mid :: t in jobs[m..];
    assert forall t | t in jobs[n..] :: t in jobs[m..];
    SliceConcat(Absent, jobs[..m], mid, a);
    SliceConcat(Absent, jobs[..m], mid, b);
    SameSlice(StandingAfter(Absent, jobs[..m], a), mid, a, b);
    SameSlice(StandingAfter(Absent, jobs[..n], a), jobs[n..], a, b);
  }

  // The messages that the jobs after the first n owe to sink k.
  function Later(jobs: seq<WorkerTask>, n: nat, k: SinkId): seq<Message>
    requires n <= |jobs|
  {
    Slice(StandingAfter(Absent, jobs[..n], k), jobs[n..], k)
  }

  // Once all is quiet, the log file of a file sink holds, for every point of the worker's history, what
  // it accepted of the messages before that point and then what it accepted of the later ones.
  lemma DrainedLogFile(ls: seq<Label>, s: State, k: SinkId, n: nat,
                       path: FileSinks.Path, min: Level, disk: FileSinks.Disk)
    requires Run(ls) == Some(s) && PipelineProgress.Quiet(s) && k in s.sinks && n <= |JobsSent(ls)|
    ensures LogFile(path, min, disk, LogMessages(s.sinks[k].active.executed)) ==
            FileSinks.Accepted(min, Slice(Absent, JobsSent(ls)[..n], k)) + FileSinks.Accepted(min, Later(JobsSent(ls), n, k))
  {
    hide JobsSent, Slice, StandingAfter;
    PipelineProgress.QuietMeansDelivered(ls, s, k);
    LogFileIs(path, min, disk, LogMessages(s.sinks[k].active.executed));
    var jobs := JobsSent(ls);
    assert jobs == jobs[..n] + jobs[n..];
    SliceConcat(Absent, jobs[..n], jobs[n..], k);
    AcceptedConcat(min, Slice(Absent, jobs[..n], k), Later(jobs, n, k));
  }

  lemma LaterPartsNest(ls0: seq<Label>, s0: State, ls: seq<Label>, s: State, e: SinkId, w: SinkId, i: SinkId)
    requires Run(ls0) == Some(s0) && e in s0.registry && w in s0.registry && i in s0.registry
    requires ls0 <= ls && Run(ls) == Some(s)
    ensures JobsSent(ls0) <= JobsSent(ls)
    ensures var n := |JobsSent(ls0)|;
            var inError := FileSinks.Accepted(ERROR, Later(JobsSent(ls), n, e));
            var inWarning := FileSinks.Accepted(WARNING, Later(JobsSent(ls), n, w));
            var inInfo := FileSinks.Accepted(INFO, Later(JobsSent(ls), n, i));
            && inError == FileSinks.Accepted(ERROR, inWarning)
            && inWarning == FileSinks.Accepted(WARNING, inInfo)
  {
    hide JobsSent, Slice, StandingAfter, FileSinks.Accepted;
    LaterMessagesAreShared(ls0, s0, ls, s, e, w);
    LaterMessagesAreShared(ls0, s0, ls, s, w, i);
    var n := |JobsSent(ls0)|;
    StricterFilter(WARNING, ERROR, Later(JobsSent(ls), n, w));
    StricterFilter(INFO, WARNING, Later(JobsSent(ls), n, i));
  }

  // What a file sink accepts of the messages that the run ls0 owes it.
  function EarlierLog(ls0: seq<Label>, k: SinkId, min: Level): seq<Message> {
    FileSinks.Accepted(min, Slice(Absent, JobsSent(ls0), k))
  }

  // Each log continues its earlier part, and what the stricter one has beyond it is the level filter of
  // what the other one has beyond its own.
  predicate NestBeyond(strict: seq<Message>, strictEarlier: seq<Message>,
                       wide: seq<Message>, wideEarlier: seq<Message>, min: Level)
  {
    && strictEarlier <= strict && wideEarlier <= wide
    && strict[|strictEarlier|..] == FileSinks.Accepted(min, wide[|wideEarlier|..])
  }

  // ----- File sinks on one disk

  // dir   the directory as pathSanityFix leaves it, or "./"
  // host  what the name begins with: prefix, host and user
  // date  when the sink was made
  datatype FileName = FileName(dir: string, host: string, level: Level, date: string)

  const LOG := ".log."
  const DOT := "."

  // createLogFileName, behind the directory.
  function BaseName(f: FileName): string {
    f.host + LOG + f.level.text + DOT + f.date
  }

  function PathOf(f: FileName): FileSinks.Path {
    f.dir + BaseName(f)
  }

  // Only the directory has slashes in it, and it ends with one.
  predicate WellFormed(f: FileName) {
    && (f.dir != [] ==> f.dir[|f.dir| - 1] == '/')
    && '/' !in f.host && '/' !in f.level.text && '/' !in f.date
  }

  // The last slash of the path is the end of the directory.
  lemma LastSlash(f: FileName)
    requires WellFormed(f)
    ensures f.dir != [] ==> PathOf(f)[|f.dir| - 1] == '/'
    ensures forall j | |f.dir| <= j < |PathOf(f)| :: PathOf(f)[j] != '/'
  {
    forall j | |f.dir| <= j < |PathOf(f)| ensures PathOf(f)[j] != '/' {
      assert PathOf(f)[j] == BaseName(f)[j - |f.dir|];
    }
  }

  lemma LevelInPath(f: FileName)
    requires f.level.text != []
    ensures |PathOf(f)| > |f.dir| + |f.host| + |LOG|
    ensures PathOf(f)[|f.dir| + |f.host| + |LOG|] == f.level.text[0]
    ensures f.dir + f.host + ".log." + f.level.text + "." <= PathOf(f)
  {
    assert PathOf(f) == f.dir + f.host + LOG + f.level.text + (DOT + f.date);
  }

  // The level is part of the name: sinks of one program whose levels begin differently never share a
  // file, whatever the directories and the times they were made at.
  lemma LevelsNameDistinctFiles(f: FileName, g: FileName)
    requires WellFormed(f) && WellFormed(g) && f.host == g.host
    requires f.level.text != [] && g.level.text != [] && f.level.text[0] != g.level.text[0]
    ensures PathOf(f) != PathOf(g)
  {
    hide PathOf;
    LastSlash(f);
    LastSlash(g);
    LevelInPath(f);
    LevelInPath(g);
  }

  // What the file sinks do to the disk they share: a sink opens its file, later its thread writes.
  datatype Turn = Open(sink: SinkId) | Write(sink: SinkId, msg: Message)

  // first  for each sink made so far, whether it still waits for its first message
  datatype Files = Files(disk: FileSinks.Disk, first: map<SinkId, bool>)

  predicate AllOpen(names: map<SinkId, FileName>, f: Files) {
    forall k | k in f.first :: k in names && PathOf(names[k]) in f.disk
  }

  // The sinks' threads take turns in any order; None when a sink is opened twice or writes before that.
  function After(names: map<SinkId, FileName>, disk: FileSinks.Disk, turns: seq<Turn>): (r: Option<Files>)
    ensures r.Some? ==> AllOpen(names, r.value)
    decreases |turns|
  {
    if turns == [] then Some(Files(disk, map[]))
    else match After(names, disk, turns[..|turns| - 1])
      case None => None
      case Some(f) => if Possible(names, f, turns[|turns| - 1]) then Some(TakeTurn(names, f, turns[|turns| - 1])) else None
  }

  predicate Possible(names: map<SinkId, FileName>, f: Files, t: Turn) {
    match t
    case Open(k) => k in names && k !in f.first
    case Write(k, _) => k in f.first
  }

  function TakeTurn(names: map<SinkId, FileName>, f: Files, t: Turn): (r: Files)
    requires Possible(names, f, t) && AllOpen(names, f)
    ensures AllOpen(names, r)
  {
    match t
    case Open(k) => Files(f.disk[PathOf(names[k]) := []], f.first[k := true])
    case Write(k, m) =>
      var s := FileSinks.AfterWrite(FileSinks.Sink(PathOf(names[k]), f.first[k], names[k].level, f.disk), m);
      Files(s.disk, f.first[k := s.firstEntry])
  }

  function WrittenBy(turns: seq<Turn>, k: SinkId): seq<Message>
    decreases |turns|
  {
    if turns == [] then []
    else WrittenBy(turns[..|turns| - 1], k) +
         if turns[|turns| - 1].Write? && turns[|turns| - 1].sink == k then [turns[|turns| - 1].msg] else []
  }

  // No other sink has the file of sink k.
  predicate Apart(names: map<SinkId, FileName>, k: SinkId)
    requires k in names
  {
    forall j | j in names && j != k :: PathOf(names[j]) != PathOf(names[k])
  }

  lemma {:induction false} RunKeepsName(path: FileSinks.Path, min: Level, disk: FileSinks.Disk, ms: seq<Message>)
    ensures FileSinks.Run(path, min, disk, FileSinks.Saves(ms)).path == path
    ensures FileSinks.Run(path, min, disk, FileSinks.Saves(ms)).min == min
    decreases |ms|
  {
    if ms != [] {
      var n := |ms| - 1;
      assert FileSinks.Saves(ms)[..n] == FileSinks.Saves(ms[..n]);
      RunKeepsName(path, min, disk, ms[..n]);
    }
  }

  // The sink with this name, alone on the disk, after the messages ms.
  function Alone(name: FileName, disk: FileSinks.Disk, ms: seq<Message>): FileSinks.Sink {
    FileSinks.Run(PathOf(name), name.level, disk, FileSinks.Saves(ms))
  }

  lemma AloneSnoc(name: FileName, disk: FileSinks.Disk, ms: seq<Message>, m: Message)
    ensures FileSinks.Valid(Alone(name, disk, ms))
    ensures Alone(name, disk, ms + [m]) == FileSinks.AfterWrite(Alone(name, disk, ms), m)
    ensures Alone(name, disk, ms).path == PathOf(name) && Alone(name, disk, ms).min == name.level
  {
    hide PathOf, FileSinks.AfterWrite;
    assert FileSinks.Saves(ms + [m]) == FileSinks.Saves(ms) + [FileSinks.Save(m)];
    assert FileSinks.Saves(ms + [m])[..|ms|] == FileSinks.Saves(ms);
    RunKeepsName(PathOf(name), name.level, disk, ms);
  }

  // A write goes to the sink's own file and depends on nothing else.
  lemma WriteIsLocal(a: FileSinks.Sink, b: FileSinks.Sink, m: Message)
    requires FileSinks.Valid(a) && FileSinks.Valid(b) && a.path == b.path && a.min == b.min
    requires a.firstEntry == b.firstEntry && a.disk[a.path] == b.disk[b.path]
    ensures var a', b' := FileSinks.AfterWrite(a, m), FileSinks.AfterWrite(b, m);
            a'.path == a.path && b'.path == a.path && a'.firstEntry == b'.firstEntry && a'.disk[a.path] == b'.disk[a.path]
  {
  }

  lemma OtherWriteIsElsewhere(a: FileSinks.Sink, m: Message, path: FileSinks.Path)
    requires FileSinks.Valid(a) && path in a.disk && path != a.path
    ensures path in FileSinks.AfterWrite(a, m).disk && FileSinks.AfterWrite(a, m).disk[path] == a.disk[path]
  {
  }

  // On its own file each sink gets as far as it would alone.
  predicate AsAlone(names: map<SinkId, FileName>, disk: FileSinks.Disk, ms: seq<Message>, f: Files, k: SinkId)
    requires k in names
  {
    var path, alone := PathOf(names[k]), Alone(names[k], disk, ms);
    if k in f.first then
      && path in f.disk && path in alone.disk && f.disk[path] == alone.disk[path]
      && f.first[k] == alone.firstEntry
    else ms == []
  }

  lemma {:induction false} EachAsAlone(names: map<SinkId, FileName>, disk: FileSinks.Disk, turns: seq<Turn>, f: Files, k: SinkId)
    requires After(names, disk, turns) == Some(f) && k in names && Apart(names, k)
    ensures AsAlone(names, disk, WrittenBy(turns, k), f, k)
    decreases |turns|
  {
    hide Apart, TakeTurn, AsAlone, Possible;
    if turns == [] {
      NobodyYet(names, disk, k);
    } else {
      var n := |turns| - 1;
      var b := After(names, disk, turns[..n]).value;
      EachAsAlone(names, disk, turns[..n], b, k);
      var ms := WrittenBy(turns[..n], k);
      if turns[n].sink != k {
        OtherTurn(names, disk, ms, b, turns[n], k);
      } else if turns[n].Open? {
        OpenTurn(names, disk, ms, b, k);
      } else {
        WriteTurn(names, disk, ms, b, k, turns[n].msg);
      }
      assert ms + [] == ms;
    }
  }

  lemma NobodyYet(names: map<SinkId, FileName>, disk: FileSinks.Disk, k: SinkId)
    requires k in names
    ensures AsAlone(names, disk, [], Files(disk, map[]), k)
  {
  }

  lemma OpenTurn(names: map<SinkId, FileName>, disk: FileSinks.Disk, ms: seq<Message>, f: Files, k: SinkId)
    requires AllOpen(names, f) && Possible(names, f, Open(k)) && AsAlone(names, disk, ms, f, k)
    ensures AsAlone(names, disk, ms, TakeTurn(names, f, Open(k)), k)
  {
    assert FileSinks.Saves([]) == [];
  }

  lemma WriteTurn(names: map<SinkId, FileName>, disk: FileSinks.Disk, ms: seq<Message>, f: Files, k: SinkId, m: Message)
    requires AllOpen(names, f) && k in names && Possible(names, f, Write(k, m)) && AsAlone(names, disk, ms, f, k)
    ensures AsAlone(names, disk, ms + [m], TakeTurn(names, f, Write(k, m)), k)
  {
    hide PathOf, Alone, FileSinks.AfterWrite;
    AloneSnoc(names[k], disk, ms, m);
    WriteIsLocal(FileSinks.Sink(PathOf(names[k]), f.first[k], names[k].level, f.disk), Alone(names[k], disk, ms), m);
  }

  lemma OtherTurn(names: map<SinkId, FileName>, disk: FileSinks.Disk, ms: seq<Message>, f: Files, t: Turn, k: SinkId)
    requires AllOpen(names, f) && Possible(names, f, t) && k in names && Apart(names, k) && t.sink != k
    requires AsAlone(names, disk, ms, f, k)
    ensures AsAlone(names, disk, ms, TakeTurn(names, f, t), k)
  {
    hide PathOf, Alone, FileSinks.AfterWrite;
    if t.Write? && k in f.first {
      OtherWriteIsElsewhere(FileSinks.Sink(PathOf(names[t.sink]), f.first[t.sink], names[t.sink].level, f.disk), t.msg,
                            PathOf(names[k]));
    }
  }

  function LogOn(f: Files, name: FileName): seq<Message> {
    if PathOf(name) in f.disk then FileSinks.Logs(f.disk[PathOf(name)]) else []
  }

  // Sinks that share a disk, in whatever order their threads write, each leave the file that their own
  // messages make.
  lemma SharedDiskIsLikeAlone(names: map<SinkId, FileName>, disk: FileSinks.Disk, turns: seq<Turn>, f: Files, k: SinkId)
    requires After(names, disk, turns) == Some(f) && k in f.first && Apart(names, k)
    ensures LogOn(f, names[k]) == LogFile(PathOf(names[k]), names[k].level, disk, WrittenBy(turns, k))
  {
    EachAsAlone(names, disk, turns, f, k);
  }

  lemma {:induction false} AcceptedIsFrom(min: Level, ms: seq<Message>, m: Message)
    ensures m in FileSinks.Accepted(min, ms) <==> m in ms && m.level.value >= min.value
    decreases |ms|
  {
    if ms != [] {
      var n := |ms| - 1;
      AcceptedIsFrom(min, ms[..n], m);
      assert ms == ms[..n] + [ms[n]];
    }
  }

  lemma {:induction false} WrittenByIsWritten(turns: seq<Turn>, k: SinkId, m: Message)
    ensures m in WrittenBy(turns, k) <==> Write(k, m) in turns
    decreases |turns|
  {
    if turns != [] {
      var n := |turns| - 1;
      WrittenByIsWritten(turns[..n], k, m);
      assert turns == turns[..n] + [turns[n]];
    }
  }

  // A message is in a sink's log exactly when the sink wrote it and its level is the sink's or above.
  lemma LoggedFromLevelOn(names: map<SinkId, FileName>, disk: FileSinks.Disk, turns: seq<Turn>, f: Files, k: SinkId, m: Message)
    requires After(names, disk, turns) == Some(f) && k in f.first && Apart(names, k)
    ensures m in LogOn(f, names[k]) <==> Write(k, m) in turns && m.level.value >= names[k].level.value
  {
    hide LogOn, PathOf, Apart;
    SharedDiskIsLikeAlone(names, disk, turns, f, k);
    LogFileIs(PathOf(names[k]), names[k].level, disk, WrittenBy(turns, k));
    AcceptedIsFrom(names[k].level, WrittenBy(turns, k), m);
    WrittenByIsWritten(turns, k, m);
  }

  // addDefaultLogger has made the three sinks, and no other sink was given one of their files.
  predicate DefaultNames(names: map<SinkId, FileName>, e: SinkId, w: SinkId, i: SinkId) {
    && e in names && w in names && i in names
    && names[e].level == ERROR && names[w].level == WARNING && names[i].level == INFO
    && names[e].host == names[w].host == names[i].host
    && WellFormed(names[e]) && WellFormed(names[w]) && WellFormed(names[i])
    && forall j | j in names && j != e && j != w && j != i ::
         PathOf(names[j]) != PathOf(names[e]) && PathOf(names[j]) != PathOf(names[w]) && PathOf(names[j]) != PathOf(names[i])
  }

  lemma DefaultNamesAreApart(names: map<SinkId, FileName>, e: SinkId, w: SinkId, i: SinkId)
    requires DefaultNames(names, e, w, i)
    ensures Apart(names, e) && Apart(names, w) && Apart(names, i)
  {
    hide PathOf, WellFormed;
    LevelsNameDistinctFiles(names[e], names[w]);
    LevelsNameDistinctFiles(names[e], names[i]);
    LevelsNameDistinctFiles(names[w], names[i]);
  }

  // A message that all three sinks have written is in the ERROR log from 800 on, in the WARNING log from
  // 500 on and in the INFO log from 300 on.
  lemma DefaultLogsTakeTheirLevels(names: map<SinkId, FileName>, disk: FileSinks.Disk, turns: seq<Turn>, f: Files,
                                   e: SinkId, w: SinkId, i: SinkId, m: Message)
    requires DefaultNames(names, e, w, i) && After(names, disk, turns) == Some(f)
    requires e in f.first && w in f.first && i in f.first
    requires Write(e, m) in turns && Write(w, m) in turns && Write(i, m) in turns
    ensures m in LogOn(f, names[e]) <==> m.level.value >= 800
    ensures m in LogOn(f, names[w]) <==> m.level.value >= 500
    ensures m in LogOn(f, names[i]) <==> m.level.value >= 300
  {
    hide LogOn, PathOf, Apart, After;
    DefaultNamesAreApart(names, e, w, i);
    LoggedFromLevelOn(names, disk, turns, f, e, m);
    LoggedFromLevelOn(names, disk, turns, f, w, m);
    LoggedFromLevelOn(names, disk, turns, f, i, m);
  }

  // Sink k has been opened and its thread has written every log message it executed.
  predicate Delivered(s: State, turns: seq<Turn>, f: Files, k: SinkId) {
    k in f.first && k in s.sinks && WrittenBy(turns, k) == LogMessages(s.sinks[k].active.executed)
  }

  // The nesting that addDefaultLogger promises, on the disk the sinks share and however their threads
  // take turns: once all is quiet, each of the three log files is what its sink accepted up to the
  // moment when all three were registered, followed by what it accepted later; and of these later parts
  // the one in the ERROR log is the filter of the one in the WARNING log, and that of the one in the
  // INFO log.
  lemma DefaultLoggersNest(ls0: seq<Label>, s0: State, ls: seq<Label>, s: State, e: SinkId, w: SinkId, i: SinkId,
                           names: map<SinkId, FileName>, disk: FileSinks.Disk, turns: seq<Turn>, f: Files)
    requires Run(ls0) == Some(s0) && e in s0.registry && w in s0.registry && i in s0.registry
    requires ls0 <= ls && Run(ls) == Some(s) && PipelineProgress.Quiet(s)
    requires DefaultNames(names, e, w, i) && After(names, disk, turns) == Some(f)
    requires Delivered(s, turns, f, e) && Delivered(s, turns, f, w) && Delivered(s, turns, f, i)
    ensures NestBeyond(LogOn(f, names[e]), EarlierLog(ls0, e, ERROR), LogOn(f, names[w]), EarlierLog(ls0, w, WARNING), ERROR)
    ensures NestBeyond(LogOn(f, names[w]), EarlierLog(ls0, w, WARNING), LogOn(f, names[i]), EarlierLog(ls0, i, INFO), WARNING)
  {
    hide JobsSent, Slice, StandingAfter, FileSinks.Accepted, LogFile, LogMessages, LogOn, PathOf, After, WrittenBy, Run,
         PipelineProgress.Quiet;
    DefaultNamesAreApart(names, e, w, i);
    SharedDiskIsLikeAlone(names, disk, turns, f, e);
    SharedDiskIsLikeAlone(names, disk, turns, f, w);
    SharedDiskIsLikeAlone(names, disk, turns, f, i);
    JobsSentPrefix(ls0, ls);
    var n := |JobsSent(ls0)|;
    assert JobsSent(ls)[..n] == JobsSent(ls0);
    DrainedLogFile(ls, s, e, n, PathOf(names[e]), ERROR, disk);
    DrainedLogFile(ls, s, w, n, PathOf(names[w]), WARNING, disk);
    DrainedLogFile(ls, s, i, n, PathOf(names[i]), INFO, disk);
    LaterPartsNest(ls0, s0, ls, s, e, w, i);
  }
}
