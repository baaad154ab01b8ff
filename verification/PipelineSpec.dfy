// What the pipeline is for, said about the worker's job history alone: no threads, no queues.
module PipelineSpec {
  import opened Common
  import opened ActiveObject
  import opened Pipeline

  // Where a sink stands while the worker works through its jobs. Closed: no further job can run,
  // because the run loop ended (Done) or the process did (Fatal).
  datatype Standing = Absent | Present | Closed

  function Next(st: Standing, t: WorkerTask, k: SinkId): Standing {
    if st.Closed? then Closed
    else match t
      case Done => Closed
      case Call(Fatal(_)) => Closed
      case Call(ClearSinks) => Absent
      case Call(AddSink(j)) => if j == k then Present else st
      case Call(Save(_)) => st
  }

  // What one job makes a sink receive.
  function Gift(st: Standing, t: WorkerTask): seq<Message> {
    if !st.Present? then []
    else match t
      case Call(Save(m)) => [m]
      case Call(Fatal(m)) => [FatalReport(m)]
      case _ => []
  }

  function StandingAfter(st: Standing, ts: seq<WorkerTask>, k: SinkId): Standing
    decreases |ts|
  {
    if ts == [] then st else StandingAfter(Next(st, ts[0], k), ts[1..], k)
  }

  // The messages that the jobs ts owe to sink k.
  function Slice(st: Standing, ts: seq<WorkerTask>, k: SinkId): seq<Message>
    decreases |ts|
  {
    if ts == [] then [] else Gift(st, ts[0]) + Slice(Next(st, ts[0], k), ts[1..], k)
  }

  // The registered sinks after the jobs ts, in registration order.
  function RegistryAfter(ts: seq<WorkerTask>): seq<SinkId>
    decreases |ts|
  {
    if ts == [] then [] else RegistryNext(RegistryAfter(ts[..|ts| - 1]), ts[|ts| - 1])
  }

  function RegistryNext(ks: seq<SinkId>, t: WorkerTask): seq<SinkId> {
    match t
    case Call(AddSink(k)) => ks + [k]
    case Call(ClearSinks) => []
    case _ => ks
  }

  // The saved messages that found no sink at all.
  function Orphans(ts: seq<WorkerTask>): seq<Message>
    decreases |ts|
  {
    if ts == [] then []
    else Orphans(ts[..|ts| - 1]) + OrphanOf(RegistryAfter(ts[..|ts| - 1]), ts[|ts| - 1])
  }

  function OrphanOf(ks: seq<SinkId>, t: WorkerTask): seq<Message> {
    match t
    case Call(Save(m)) => if ks == [] then [m] else []
    case _ => []
  }

  lemma {:induction false} SliceConcat(st: Standing, a: seq<WorkerTask>, b: seq<WorkerTask>, k: SinkId)
    ensures StandingAfter(st, a + b, k) == StandingAfter(StandingAfter(st, a, k), b, k)
    ensures Slice(st, a + b, k) == Slice(st, a, k) + Slice(StandingAfter(st, a, k), b, k)
    decreases |a|
  {
    if a == [] {
      assert a + b == b;
    } else {
      assert (a + b)[0] == a[0] && (a + b)[1..] == a[1..] + b;
      SliceConcat(Next(st, a[0], k), a[1..], b, k);
    }
  }

  lemma SliceSnoc(st: Standing, a: seq<WorkerTask>, t: WorkerTask, k: SinkId)
    ensures StandingAfter(st, a + [t], k) == Next(StandingAfter(st, a, k), t, k)
    ensures Slice(st, a + [t], k) == Slice(st, a, k) + Gift(StandingAfter(st, a, k), t)
  {
    SliceConcat(st, a, [t], k);
    assert [t][1..] == [];
    var st' := StandingAfter(st, a, k);
    assert Slice(Next(st', t, k), [t][1..], k) == [];
    assert StandingAfter(Next(st', t, k), [t][1..], k) == Next(st', t, k);
  }

  predicate Runs(t: WorkerTask) {
    t.Call? && !t.job.Fatal?
  }

  // As long as the loop has not ended, standing Present is the same as being registered.
  lemma {:induction false} PresentIffRegistered(ts: seq<WorkerTask>, k: SinkId)
    requires forall t | t in ts :: Runs(t)
    ensures StandingAfter(Absent, ts, k) == if k in RegistryAfter(ts) then Present else Absent
    decreases |ts|
  {
    if ts != [] {
      var n := |ts| - 1;
      assert ts == ts[..n] + [ts[n]] && ts[n] in ts;
      PresentIffRegistered(ts[..n], k);
      SliceSnoc(Absent, ts[..n], ts[n], k);
    }
  }

  // ----- Contiguity: the slice is one stretch of the history

  // The messages of a stretch of jobs: nothing is skipped.
  function Messages(ts: seq<WorkerTask>): seq<Message> {
    if ts == [] then [] else Gift(Present, ts[0]) + Messages(ts[1..])
  }

  predicate Removes(t: WorkerTask) {
    t.Done? || t.job.ClearSinks? || t.job.Fatal?
  }

  // The position of the job that ends k's registration; a Fatal job still belongs to the stretch.
  function RemovalAt(ts: seq<WorkerTask>): (n: nat)
    ensures n <= |ts|
    ensures forall i :: 0 <= i < n ==> !Removes(ts[i])
    ensures n < |ts| ==> Removes(ts[n])
  {
    if ts == [] || Removes(ts[0]) then 0 else 1 + RemovalAt(ts[1..])
  }

  function StretchEnd(ts: seq<WorkerTask>): (n: nat)
    ensures n <= |ts|
  {
    var r := RemovalAt(ts);
    if r < |ts| && ts[r].Call? && ts[r].job.Fatal? then r + 1 else r
  }

  predicate Adds(t: WorkerTask, k: SinkId) {
    t.Call? && t.job.AddSink? && t.job.sink == k
  }

  lemma {:induction false} NothingUnlessAdded(st: Standing, ts: seq<WorkerTask>, k: SinkId)
    requires !st.Present?
    requires forall t | t in ts :: !Adds(t, k)
    ensures Slice(st, ts, k) == [] && !StandingAfter(st, ts, k).Present?
    decreases |ts|
  {
    if ts != [] {
      assert ts[0] in ts;
      NothingUnlessAdded(Next(st, ts[0], k), ts[1..], k);
    }
  }

  lemma {:induction false} PresentStretch(ts: seq<WorkerTask>, k: SinkId)
    requires forall t | t in ts :: !Adds(t, k)
    ensures Slice(Present, ts, k) == Messages(ts[..StretchEnd(ts)])
    decreases |ts|
  {
    if ts != [] {
      var t, rest := ts[0], ts[1..];
      assert t in ts;
      if Removes(t) {
        NothingUnlessAdded(Next(Present, t, k), rest, k);
        assert ts[..1] == [t] && ts[..1][1..] == [];
      } else {
        PresentStretch(rest, k);
        assert StretchEnd(ts) == 1 + StretchEnd(rest);
        assert ts[..StretchEnd(ts)][1..] == rest[..StretchEnd(rest)];
      }
    }
  }

  // A sink added exactly once receives exactly the messages of one contiguous stretch of the history:
  // from just after its own add job to the job that removes it (or nothing at all when the loop
  // ended before the add job could run).
  lemma SliceIsContiguous(ts: seq<WorkerTask>, a: nat, k: SinkId)
    requires a < |ts| && Adds(ts[a], k)
    requires forall i | 0 <= i < |ts| && Adds(ts[i], k) :: i == a
    ensures StandingAfter(Absent, ts[..a], k).Absent? ==>
              Slice(Absent, ts, k) == Messages(ts[a + 1..][..StretchEnd(ts[a + 1..])])
    ensures !StandingAfter(Absent, ts[..a], k).Absent? ==> Slice(Absent, ts, k) == []
    ensures StandingAfter(Absent, ts[..a], k).Absent? <==> forall t | t in ts[..a] :: Runs(t)
  {
    var before, after := ts[..a], ts[a + 1..];
    assert ts == before + ([ts[a]] + after);
    forall t | t in before ensures !Adds(t, k) {
      var i :| 0 <= i < |before| && before[i] == t;
      assert ts[i] == t;
    }
    forall t | t in after ensures !Adds(t, k) {
      var i :| 0 <= i < |after| && after[i] == t;
      assert ts[a + 1 + i] == t;
    }
    NothingUnlessAdded(Absent, before, k);
    AbsentMeansOpen(before, k);
    var st := StandingAfter(Absent, before, k);
    SliceConcat(Absent, before, [ts[a]] + after, k);
    assert ([ts[a]] + after)[1..] == after;
    if st.Absent? {
      PresentStretch(after, k);
    } else {
      NothingUnlessAdded(Closed, after, k);
    }
  }

  lemma {:induction false} AbsentMeansOpen(ts: seq<WorkerTask>, k: SinkId)
    requires forall t | t in ts :: !Adds(t, k)
    ensures StandingAfter(Absent, ts, k).Absent? <==> forall t | t in ts :: Runs(t)
    decreases |ts|
  {
    if ts != [] {
      assert ts[0] in ts;
      if Runs(ts[0]) {
        AbsentMeansOpen(ts[1..], k);
      } else {
        ClosedStays(ts[1..], k);
      }
      assert forall t :: t in ts <==> t == ts[0] || t in ts[1..];
    }
  }

  lemma {:induction false} ClosedStays(ts: seq<WorkerTask>, k: SinkId)
    ensures StandingAfter(Closed, ts, k).Closed? && Slice(Closed, ts, k) == []
    decreases |ts|
  {
    if ts != [] {
      ClosedStays(ts[1..], k);
    }
  }
}
