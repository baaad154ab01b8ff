// What every run of the pipeline guarantees to the messages that went into it.
module PipelineTheorems {
  import opened Common
  import opened ActiveObject
  import opened Pipeline
  import opened PipelineSpec
  import opened PipelineOwnership
  import opened PipelineDelivery

  lemma {:induction false} ReachableDelivery(ls: seq<Label>, s: State)
    requires Run(ls) == Some(s)
    ensures Inv(s) && DeliveryInv(s)
    ensures History(s) == JobsSent(ls)
    decreases |ls|
  {
    ReachableInv(ls, s);
    if ls != [] {
      var b := Run(ls[..|ls| - 1]).value;
      ReachableDelivery(ls[..|ls| - 1], b);
      DeliveryStep(b, ls[|ls| - 1]);
    }
  }

  // ----- Conservation in every reachable state

  // What the fan-out in hand still owes to sink k.
  function OwedInHand(s: State, k: SinkId): seq<Message> {
    if s.progress.FanOut? && s.progress.next <= |s.registry| && k in s.registry[s.progress.next..] then
      if SaveInHand(s) then [s.worker.hand.value.job.msg]
      else if FatalInHand(s) then [FatalReport(s.worker.hand.value.job.msg)]
      else []
    else []
  }

  // Where sink k stands once the job in hand, if any, is over.
  function StandingNow(s: State, k: SinkId): Standing {
    var before := if s.worker.done then Closed else if k in s.registry then Present else Absent;
    if s.worker.hand.Some? then Next(before, s.worker.hand.value, k) else before
  }

  // Executed, in hand, queued at the sink, owed by the job in hand, owed by the queued jobs: together
  // exactly the slice of the worker's history that belongs to this sink.
  lemma Conservation(ls: seq<Label>, s: State, k: SinkId)
    requires Run(ls) == Some(s) && k in s.sinks
    ensures var a := s.sinks[k].active;
            LogMessages(a.executed) + LogMessages(InHand(a)) + LogMessages(a.queue)
            + OwedInHand(s, k) + Slice(StandingNow(s, k), s.worker.queue, k)
            == Slice(Absent, JobsSent(ls), k)
  {
    hide Slice, LogMessages, JobsSent, Sent, RegistryOk, SinksOk;
    ReachableDelivery(ls, s);
    assert Received(s, k);
    SinkParts(s.sinks[k].active);
    if s.worker.done {
      ConservedWhenDone(s, k);
    } else {
      ConservedWhileOpen(s, k);
    }
  }

  lemma ConservedWhenDone(s: State, k: SinkId)
    requires Valid(s.worker) && k in s.sinks && Received(s, k) && s.worker.done
    ensures OwedInHand(s, k) == [] && Slice(StandingNow(s, k), s.worker.queue, k) == []
    ensures LogMessages(Sent(s.sinks[k].active)) == Slice(Absent, History(s), k)
  {
    hide StandingAfter, Slice, History, LogMessages, RegistryAfter;
    NothingGivenWithoutHand(s, RegistryAfter(s.worker.executed), k);
    ClosedAfterDone(s, k);
    HistoryParts(s, k);
  }

  lemma ConservedWhileOpen(s: State, k: SinkId)
    requires Inv(s) && WorkerInv(s) && k in s.sinks && Received(s, k) && !s.worker.done
    ensures LogMessages(Sent(s.sinks[k].active)) + OwedInHand(s, k) + Slice(StandingNow(s, k), s.worker.queue, k)
         == Slice(Absent, History(s), k)
  {
    OpenParts(s, k);
    HistoryParts(s, k);
    var tail := InHand(s.worker) + s.worker.queue;
    assert tail + s.discarded == tail;
    Regroup(LogMessages(Sent(s.sinks[k].active)), Slice(Absent, s.worker.executed, k), GivenInHand(s, k),
            OwedInHand(s, k), Slice(StandingNow(s, k), s.worker.queue, k),
            Slice(StandingAfter(Absent, s.worker.executed, k), tail, k));
  }

  lemma Regroup<T>(x: seq<T>, a: seq<T>, given: seq<T>, owed: seq<T>, queued: seq<T>, rest: seq<T>)
    requires x == a + given && given + owed + queued == rest
    ensures x + owed + queued == a + rest
  {
  }

  lemma SinkParts(a: Active<SinkJob>)
    ensures LogMessages(Sent(a)) == LogMessages(a.executed) + LogMessages(InHand(a)) + LogMessages(a.queue)
  {
    LogMessagesConcat(a.executed + InHand(a), a.queue);
    LogMessagesConcat(a.executed, InHand(a));
  }

  lemma Assoc<T>(a: seq<T>, b: seq<T>, c: seq<T>, d: seq<T>)
    ensures a + b + c + d == a + (b + c + d)
  {
  }

  lemma HistoryParts(s: State, k: SinkId)
    ensures var st := StandingAfter(Absent, s.worker.executed, k);
            Slice(Absent, History(s), k) ==
            Slice(Absent, s.worker.executed, k) + Slice(st, InHand(s.worker) + s.worker.queue + s.discarded, k)
  {
    var rest := InHand(s.worker) + s.worker.queue + s.discarded;
    Assoc(s.worker.executed, InHand(s.worker), s.worker.queue, s.discarded);
    SliceConcat(Absent, s.worker.executed, rest, k);
  }

  lemma ClosedAfterDone(s: State, k: SinkId)
    requires Valid(s.worker) && s.worker.done
    ensures StandingAfter(Absent, s.worker.executed, k).Closed?
    ensures forall ts: seq<WorkerTask> :: Slice(Closed, ts, k) == []
  {
    var e := s.worker.executed;
    assert e == e[..|e| - 1] + [e[|e| - 1]];
    SliceSnoc(Absent, e[..|e| - 1], e[|e| - 1], k);
    forall ts: seq<WorkerTask> ensures Slice(Closed, ts, k) == [] {
      ClosedStays(ts, k);
    }
  }

  lemma OpenParts(s: State, k: SinkId)
    requires Inv(s) && WorkerInv(s) && !s.worker.done
    ensures s.discarded == []
    ensures GivenInHand(s, k) + OwedInHand(s, k) + Slice(StandingNow(s, k), s.worker.queue, k)
         == Slice(StandingAfter(Absent, s.worker.executed, k), InHand(s.worker) + s.worker.queue, k)
  {
    var e, h, q := s.worker.executed, s.worker.hand, s.worker.queue;
    PresentIffRegistered(e, k);
    var st := StandingAfter(Absent, e, k);
    if h.None? {
      assert InHand(s.worker) + q == q;
    } else {
      assert ([h.value] + q)[0] == h.value && ([h.value] + q)[1..] == q;
      HandSplits(s, RegistryAfter(e), Orphans(e), k);
    }
  }

  lemma Split(ks: seq<SinkId>, n: nat, k: SinkId)
    requires Distinct(ks) && n <= |ks|
    ensures k in ks <==> k in ks[..n] || k in ks[n..]
    ensures !(k in ks[..n] && k in ks[n..])
  {
    assert ks == ks[..n] + ks[n..];
  }

  lemma HandSplits(s: State, r: seq<SinkId>, o: seq<Message>, k: SinkId)
    requires WorkerShape(s, r, o) && Valid(s.worker) && StageOk(s) && RegistryOk(s) && s.worker.hand.Some?
    ensures GivenFrom(s, r, k) + OwedInHand(s, k) == Gift(if k in r then Present else Absent, s.worker.hand.value)
    ensures StandingNow(s, k) == Next(if k in r then Present else Absent, s.worker.hand.value, k)
  {
    HandIsOpen(s, r, o);
    if s.progress.FanOut? {
      assert s.registry == r;
      Split(r, s.progress.next, k);
    }
  }
}
