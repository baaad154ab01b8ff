// kjellkod::Active: one queue, one thread, and a run loop that only its own "done" task can stop.
// The queue operations are atomic here; SharedQueue.dfy goes one level lower.
module ActiveObject {
  import opened Common

  // Done stands for the lambda that ~Active sends to itself.
  datatype Task<+J> = Call(job: J) | Done

  // queue    mq_
  // hand     the callback that run() has popped and not yet returned from
  // executed every callback that has returned, oldest first
  // done     done_
  datatype Active<+J> = Active(queue: seq<Task<J>>, hand: Option<Task<J>>, executed: seq<Task<J>>, done: bool)

  function Fresh<J>(): Active<J> {
    Active([], None, [], false)
  }

  function Push<J>(a: Active<J>, t: Task<J>): Active<J> {
    a.(queue := a.queue + [t])
  }

  predicate CanPop<J>(a: Active<J>) {
    !a.done && a.hand.None? && a.queue != []
  }

  function Pop<J>(a: Active<J>): Active<J>
    requires CanPop(a)
  {
    a.(queue := a.queue[1..], hand := Some(a.queue[0]))
  }

  function Finish<J>(a: Active<J>): Active<J>
    requires a.hand.Some?
  {
    a.(hand := None, executed := a.executed + [a.hand.value], done := a.done || a.hand.value.Done?)
  }

  function InHand<J>(a: Active<J>): seq<Task<J>> {
    if a.hand.Some? then [a.hand.value] else []
  }

  // Everything the object still knows of: executed, in hand, queued.
  function Sent<J>(a: Active<J>): seq<Task<J>> {
    a.executed + InHand(a) + a.queue
  }

  // The run loop stops at its first Done and touches nothing after it.
  ghost predicate Valid<J>(a: Active<J>) {
    && (a.done ==> a.hand.None? && a.executed != [] && a.executed[|a.executed| - 1].Done?)
    && (forall i :: 0 <= i < |a.executed| && a.executed[i].Done? ==> a.done && i == |a.executed| - 1)
  }

  lemma PopKeepsSent<J>(a: Active<J>)
    requires CanPop(a)
    ensures Sent(Pop(a)) == Sent(a)
  {
    assert a.queue == [a.queue[0]] + a.queue[1..];
  }

  lemma FinishKeepsSent<J>(a: Active<J>)
    requires a.hand.Some?
    ensures Sent(Finish(a)) == Sent(a)
  {
  }

  lemma PushAddsToSent<J>(a: Active<J>, t: Task<J>)
    ensures Sent(Push(a, t)) == Sent(a) + [t]
  {
  }
}

// Every run of one active object: sends from outside, pops and returns of its own thread.
module ActiveRuns {
  import opened Common
  import opened ActiveObject
  import SQ = SharedQueue

  datatype Event<+J> = SendEvent(task: Task<J>) | PopEvent | ReturnEvent

  predicate Enabled<J>(a: Active<J>, e: Event<J>) {
    match e
    case SendEvent(_) => true
    case PopEvent => CanPop(a)
    case ReturnEvent => a.hand.Some?
  }

  function Apply<J>(a: Active<J>, e: Event<J>): Active<J>
    requires Enabled(a, e)
  {
    match e
    case SendEvent(t) => Push(a, t)
    case PopEvent => Pop(a)
    case ReturnEvent => Finish(a)
  }

  // The state a fresh object reaches through es; None when an event was not possible.
  function Run<J>(es: seq<Event<J>>): Option<Active<J>>
    decreases |es|
  {
    if es == [] then Some(Fresh())
    else match Run(es[..|es| - 1])
      case None => None
      case Some(b) =>
        if Enabled(b, es[|es| - 1]) then Some(Apply(b, es[|es| - 1])) else None
  }

  // What the outside world sent, in order: read off the events alone.
  function Sends<J>(es: seq<Event<J>>): seq<Task<J>> {
    if es == [] then []
    else Sends(es[..|es| - 1]) + (if es[|es| - 1].SendEvent? then [es[|es| - 1].task] else [])
  }

  // The first position of Done, or the length when there is none.
  function FirstDone<J>(ts: seq<Task<J>>): (n: nat)
    ensures n <= |ts|
    ensures forall i :: 0 <= i < n ==> ts[i].Call?
    ensures n < |ts| ==> ts[n].Done?
  {
    if ts == [] || ts[0].Done? then 0 else 1 + FirstDone(ts[1..])
  }

  // In every run the history is executed ++ in hand ++ queued: nothing lost, doubled or reordered.
  lemma {:induction false} HistoryIsConserved<J>(es: seq<Event<J>>, a: Active<J>)
    requires Run(es) == Some(a)
    ensures Sent(a) == Sends(es)
    ensures Valid(a)
    decreases |es|
  {
    if es != [] {
      var e := es[|es| - 1];
      var b := Run(es[..|es| - 1]).value;
      HistoryIsConserved(es[..|es| - 1], b);
      match e
      case SendEvent(t) => PushAddsToSent(b, t);
      case PopEvent => PopKeepsSent(b);
      case ReturnEvent => FinishKeepsSent(b);
    }
  }

  // Everything sent before the first Done is what runs, then Done, then nothing: ~Active's join
  // returns (done is set) exactly when that prefix has been executed.
  lemma ExecutesThroughFirstDone<J>(es: seq<Event<J>>, a: Active<J>)
    requires Run(es) == Some(a)
    ensures var h, d := Sends(es), FirstDone(Sends(es));
            && |a.executed| <= |h| && a.executed == h[..|a.executed|]
            && |a.executed| <= d + 1
            && (a.done <==> |a.executed| == d + 1)
            && (a.done ==> a.executed == h[..d + 1])
  {
    HistoryIsConserved(es, a);
    var h := Sends(es);
    var n := |a.executed|;
    assert h[..n] == a.executed;
    assert forall i :: 0 <= i < n ==> h[i] == a.executed[i];
    var d := FirstDone(h);
    if n > d {
      assert a.executed[d] == h[d];
      assert a.executed[d].Done?;
    }
  }

  // ----- The run loop itself

  class RunLoop<J(==)> {
    const mq: SQ.SharedQueue<Task<J>>
    var executed: seq<Task<J>>
    var done: bool

    constructor ()
      ensures fresh(mq) && mq.queue == [] && executed == [] && !done
    {
      var q := new SQ.SharedQueue<Task<J>>();
      mq, executed, done := q, [], false;
    }

    method Send(j: J)
      modifies mq
      ensures mq.queue == old(mq.queue) + [Call(j)]
    {
      mq.Push(Call(j));
    }

    // run(): the thread can only leave the loop if somebody sent Done; without it wait_and_pop blocks.
    method Run()
      requires !done && FirstDone(mq.queue) < |mq.queue|
      modifies this, mq
      ensures done
      ensures executed == old(executed) + old(mq.queue)[..FirstDone(old(mq.queue)) + 1]
      ensures mq.queue == old(mq.queue)[FirstDone(old(mq.queue)) + 1..]
    {
      ghost var sent, d, n := mq.queue, FirstDone(mq.queue), 0;
      while !done
        invariant 0 <= n <= d + 1
        invariant done <==> n == d + 1
        invariant executed == old(executed) + sent[..n] && mq.queue == sent[n..]
        decreases d + 1 - n
      {
        var func := mq.WaitAndPop();
        assert func == sent[n];
        if func.Done? {
          done := true;
        }
        executed := executed + [func];
        n := n + 1;
      }
    }

    // ~Active: everything sent before it runs, then the thread is gone and the queue is empty.
    method Destroy()
      requires !done && forall t | t in mq.queue :: t.Call?
      modifies this, mq
      ensures done && mq.queue == [] && executed == old(executed) + old(mq.queue) + [Done]
    {
      ghost var sent := mq.queue;
      mq.Push(Done);
      assert mq.queue[|sent|].Done? && forall i | 0 <= i < |sent| :: mq.queue[i] == sent[i] && sent[i] in sent;
      assert FirstDone(mq.queue) == |sent|;
      Run();
    }
  }
}
