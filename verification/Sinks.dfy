// sink.hpp, sinkhandle.hpp and future.hpp as objects: a sink with its own queue and thread, the calls
// through its handle, and the futures they return. Interleavings are the pipeline's business; here a
// call runs on its own.
module Sinks {
  import opened Common
  import opened ActiveObject
  import SQ = SharedQueue

  // Value: what a call to the real sink's API could see, namely the messages received by then.
  datatype PromiseState = Pending | Value(seen: seq<Message>) | Failed

  // The state shared by a promise (or packaged task) and its future.
  class Promise {
    var state: PromiseState

    constructor ()
      ensures state == Pending
    {
      state := Pending;
    }

    // Setting a promise that is set already would throw.
    method Set(s: PromiseState)
      requires state.Pending? && !s.Pending?
      modifies this
      ensures state == s
    {
      state := s;
    }
  }

  datatype Job = LogCall(msg: Message) | HandleCall(promise: Promise)

  type Queue = SQ.SharedQueue<Task<Job>>

  // spawn_task
  method SpawnTask(worker: SQ.SharedQueue?<Task<Job>>) returns (result: Promise)
    modifies if worker == null then {} else {worker}
    ensures fresh(result)
    ensures worker == null ==> result.state == Failed
    ensures worker != null ==> result.state == Pending && worker.queue == old(worker.queue) + [Call(HandleCall(result))]
  {
    result := new Promise();
    if worker == null {
      result.Set(Failed);
      return;
    }
    worker.Push(Call(HandleCall(result)));
  }

  class RealSink {
    var received: seq<Message>
    var destroyed: bool

    constructor ()
      ensures received == [] && !destroyed
    {
      received, destroyed := [], false;
    }

    method Receive(m: Message)
      requires !destroyed
      modifies this
      ensures received == old(received) + [m] && !destroyed
    {
      received := received + [m];
    }

    method Destroy()
      requires !destroyed
      modifies this
      ensures received == old(received) && destroyed
    {
      destroyed := true;
    }
  }

  predicate IsCall(t: Task<Job>) {
    t.Call? && t.job.HandleCall?
  }

  function Promises(ts: seq<Task<Job>>): set<Promise> {
    set i | 0 <= i < |ts| && IsCall(ts[i]) :: ts[i].job.promise
  }

  // The log messages among the tasks.
  function Delivered(ts: seq<Task<Job>>): seq<Message>
    decreases |ts|
  {
    if ts == [] then []
    else
      var t := ts[|ts| - 1];
      Delivered(ts[..|ts| - 1]) + if t.Call? && t.job.LogCall? then [t.job.msg] else []
  }

  lemma DeliveredSnoc(ts: seq<Task<Job>>, t: Task<Job>)
    ensures Delivered(ts + [t]) == Delivered(ts) + if t.Call? && t.job.LogCall? then [t.job.msg] else []
  {
    assert (ts + [t])[..|ts|] == ts;
  }

  // Each of the first n tasks that is a call has resolved its future with what had been received
  // before it.
  ghost predicate Answered(ts: seq<Task<Job>>, n: nat, before: seq<Message>)
    requires n <= |ts|
    reads Promises(ts)
  {
    forall i | 0 <= i < n && IsCall(ts[i]) ::
      ts[i].job.promise in Promises(ts) && ts[i].job.promise.state == Value(before + Delivered(ts[..i]))
  }

  // Each of the later tasks that is a call has a promise of its own, still to be resolved.
  ghost predicate Waiting(ts: seq<Task<Job>>, n: nat)
    requires n <= |ts|
    reads Promises(ts)
  {
    && (forall i | n <= i < |ts| && IsCall(ts[i]) :: ts[i].job.promise in Promises(ts) && ts[i].job.promise.state.Pending?)
    && (forall i, j | 0 <= i < j < |ts| && IsCall(ts[i]) && IsCall(ts[j]) :: ts[i].job.promise != ts[j].job.promise)
  }

  lemma NothingDelivered()
    ensures Delivered([]) == []
  {
  }

  // strong  the number of shared_ptr to the Sink
  class Sink {
    const realSink: RealSink
    const mq: Queue
    var done: bool
    var strong: nat

    ghost predicate Valid()
      reads this, realSink, mq, Promises(mq.queue)
    {
      && !done && !realSink.destroyed
      && (forall t | t in mq.queue :: t.Call?)
      && Waiting(mq.queue, 0)
    }

    // The sink is there exactly as long as somebody holds a reference.
    ghost predicate Lives()
      reads this, realSink, mq, Promises(mq.queue)
    {
      if strong > 0 then Valid() else done && realSink.destroyed && mq.queue == []
    }

    constructor (realSink: RealSink)
      requires !realSink.destroyed
      ensures Valid() && Lives() && this.realSink == realSink && fresh(mq) && mq.queue == [] && strong == 1
    {
      this.realSink := realSink;
      var q := new SQ.SharedQueue<Task<Job>>();
      mq := q;
      done := false;
      strong := 1;
    }

    method Send(msg: Message)
      requires Valid()
      modifies mq
      ensures Valid() && mq.queue == old(mq.queue) + [Call(LogCall(msg))]
    {
      ghost var was := mq.queue;
      mq.Push(Call(LogCall(msg)));
      assert Promises(mq.queue) == Promises(was) by {
        assert forall i | 0 <= i < |was| :: mq.queue[i] == was[i];
      }
    }

    method Async() returns (future: Promise)
      requires Valid()
      modifies mq
      ensures Valid() && fresh(future) && future.state == Pending
      ensures mq.queue == old(mq.queue) + [Call(HandleCall(future))]
    {
      ghost var was := mq.queue;
      assert forall i | 0 <= i < |was| && IsCall(was[i]) :: was[i].job.promise in Promises(was);
      future := SpawnTask(mq);
      assert forall i | 0 <= i < |was| :: mq.queue[i] == was[i];
      assert forall i | 0 <= i < |mq.queue| && IsCall(mq.queue[i]) :: mq.queue[i].job.promise in Promises(mq.queue);
    }

    // func(): one callback on the sink's thread.
    method Execute(t: Task<Job>)
      requires !realSink.destroyed && (IsCall(t) ==> t.job.promise.state.Pending?)
      modifies this`done, realSink, if IsCall(t) then {t.job.promise} else {}
      ensures done == (old(done) || t.Done?) && !realSink.destroyed
      ensures realSink.received == old(realSink.received) + (if t.Call? && t.job.LogCall? then [t.job.msg] else [])
      ensures IsCall(t) ==> t.job.promise.state == Value(old(realSink.received))
    {
      match t
      case Done => done := true;
      case Call(LogCall(m)) => realSink.Receive(m);
      case Call(HandleCall(p)) => p.Set(Value(realSink.received));
    }

    // The thread has run the first n of the tasks sent before Done.
    ghost predicate Midway(sent: seq<Task<Job>>, n: nat, before: seq<Message>)
      reads this, realSink, mq, Promises(sent)
    {
      && n <= |sent| && !done && !realSink.destroyed
      && (forall t | t in sent :: t.Call?)
      && mq.queue == sent[n..] + [Done]
      && realSink.received == before + Delivered(sent[..n])
      && Answered(sent, n, before)
      && Waiting(sent, n)
    }

    // One turn of the run loop.
    method Turn(ghost sent: seq<Task<Job>>, ghost n: nat, ghost before: seq<Message>)
      requires Midway(sent, n, before)
      modifies this`done, realSink, mq, Promises(sent)
      ensures n < |sent| ==> Midway(sent, n + 1, before)
      ensures n == |sent| ==> done && mq.queue == [] && !realSink.destroyed
      ensures n == |sent| ==> realSink.received == before + Delivered(sent) && Answered(sent, n, before)
    {
      hide Delivered, Promises;
      var func := mq.WaitAndPop();
      assert func == old(mq.queue)[0] && mq.queue == old(mq.queue)[1..] by {
        assert ([func] + mq.queue)[0] == func && ([func] + mq.queue)[1..] == mq.queue;
      }
      if n < |sent| {
        assert mq.queue == sent[n + 1..] + [Done];
        assert func == sent[n] && sent[n] in sent && sent[..n + 1] == sent[..n] + [sent[n]];
        DeliveredSnoc(sent[..n], sent[n]);
      } else {
        assert sent[..n] == sent;
      }
      Execute(func);
    }

    // The run loop of the sink's thread, once Done has been sent.
    method RunThread(ghost sent: seq<Task<Job>>)
      requires Midway(sent, 0, realSink.received)
      modifies this`done, realSink, mq, Promises(sent)
      ensures done && mq.queue == [] && !realSink.destroyed
      ensures realSink.received == old(realSink.received) + Delivered(sent)
      ensures Answered(sent, |sent|, old(realSink.received))
    {
      hide Delivered, Promises, Answered, Waiting;
      ghost var n := 0;
      while !done
        invariant n <= |sent|
        invariant if done then
                    && mq.queue == [] && !realSink.destroyed && n == |sent|
                    && realSink.received == old(realSink.received) + Delivered(sent)
                    && Answered(sent, |sent|, old(realSink.received))
                  else Midway(sent, n, old(realSink.received))
        decreases |sent| - n, !done
      {
        Turn(sent, n, old(realSink.received));
        n := if n < |sent| then n + 1 else n;
      }
    }

    // ~Sink: all that was sent runs first, on a real sink that still exists, and resolves its futures
    // with what was received before it; only then the real sink goes.
    method Destroy()
      requires Valid() && strong == 0
      modifies this`done, realSink, mq, Promises(mq.queue)
      ensures done && mq.queue == [] && realSink.destroyed
      ensures realSink.received == old(realSink.received) + Delivered(old(mq.queue))
      ensures Answered(old(mq.queue), |old(mq.queue)|, old(realSink.received))
    {
      hide Delivered, Promises;
      ghost var sent := mq.queue;
      NothingDelivered();
      assert sent[..0] == [] && realSink.received + [] == realSink.received && sent[0..] == sent;
      mq.Push(Done);
      RunThread(sent);
      realSink.Destroy();
    }

    // Copying a shared_ptr.
    method Acquire()
      requires Lives() && strong > 0
      modifies this`strong
      ensures Lives() && strong == old(strong) + 1
    {
      strong := strong + 1;
    }

    // A shared_ptr goes away; the last one takes the sink with it, after everything sent to it has run.
    method Release()
      requires Lives() && strong > 0
      modifies this`strong, this`done, if strong == 1 then {realSink, mq} + Promises(mq.queue) else {}
      ensures Lives() && strong == old(strong) - 1
      ensures old(strong) > 1 ==> mq.queue == old(mq.queue) && realSink.received == old(realSink.received)
      ensures old(strong) == 1 ==> realSink.received == old(realSink.received) + Delivered(old(mq.queue))
      ensures old(strong) == 1 ==> Answered(old(mq.queue), |old(mq.queue)|, old(realSink.received))
    {
      strong := strong - 1;
      if strong == 0 {
        Destroy();
      }
    }
  }

  // The weak pointer yields a strong one exactly when the count is not zero. The temporary strong
  // pointer is gone when the call returns.
  class SinkHandle {
    const sink: Sink

    constructor (sink: Sink)
      ensures this.sink == sink
    {
      this.sink := sink;
    }

    method SinkCall() returns (future: Promise)
      requires sink.Lives()
      modifies if sink.strong > 0 then {sink, sink.mq} else {}
      ensures sink.Lives() && fresh(future) && sink.strong == old(sink.strong)
      ensures old(sink.strong) == 0 ==> future.state == Failed
      ensures old(sink.strong) > 0 ==>
                && future.state == Pending
                && sink.mq.queue == old(sink.mq.queue) + [Call(HandleCall(future))]
    {
      if sink.strong == 0 {
        future := new Promise();
        future.Set(Failed);
        return;
      }
      sink.Acquire();
      future := sink.Async();
      sink.Release();
    }
  }
}
