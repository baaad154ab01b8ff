// shared_queue: a std::queue behind a mutex and a condition variable, for any number of producers
// and consumers. First the protocol, one step per thing another thread can observe; then the
// critical sections as methods.
module SharedQueueProtocol {
  import opened Common

  // One call of push, wait_and_pop or try_and_pop, from entry to return.
  type OpId = nat

  datatype Pc<T> =
    | WantsPush(item: T)   // about to take the lock in push
    | Pushing(item: T)     // holds the lock
    | Notifying            // item queued, lock released, notify_one still to come
    | WantsPop             // about to take the lock in wait_and_pop
    | Checking             // holds the lock, at while (queue_.empty())
    | Waiting              // inside wait: lock released, in the wait set
    | Woken                // signalled or woken spuriously, must take the lock again
    | Taking               // holds the lock, has seen a non-empty queue
    | WantsTry             // about to take the lock in try_and_pop
    | Trying               // holds the lock
    | Returned(popped: Option<T>)

  // pushed and popped record the items in the order in which they entered and left the queue.
  datatype State<T> = State(queue: seq<T>, owner: Option<OpId>, ops: map<OpId, Pc<T>>, pushed: seq<T>, popped: seq<T>)

  datatype Label<T> =
    | CallPush(op: OpId, item: T) | CallPop(op: OpId) | CallTry(op: OpId)
    | Lock(op: OpId)
    | Enqueue(op: OpId)
    | Notify(op: OpId, woken: OpId) | NotifyNobody(op: OpId)
    | FindItem(op: OpId) | StartWait(op: OpId) | WakeSpuriously(op: OpId)
    | Take(op: OpId)
    | TryTake(op: OpId) | TryFail(op: OpId)

  function Init<T>(): State<T> {
    State([], None, map[], [], [])
  }

  predicate At<T(==)>(s: State<T>, o: OpId, pc: Pc<T>) {
    o in s.ops && s.ops[o] == pc
  }

  predicate WantsLock<T>(pc: Pc<T>) {
    pc.WantsPush? || pc.WantsPop? || pc.Woken? || pc.WantsTry?
  }

  predicate HoldsLock<T>(pc: Pc<T>) {
    pc.Pushing? || pc.Checking? || pc.Taking? || pc.Trying?
  }

  function Locked<T>(pc: Pc<T>): Pc<T>
    requires WantsLock(pc)
  {
    match pc
    case WantsPush(x) => Pushing(x)
    case WantsTry => Trying
    case _ => Checking
  }

  predicate Enabled<T(==)>(s: State<T>, l: Label<T>) {
    match l
    case CallPush(o, _) => o !in s.ops
    case CallPop(o) => o !in s.ops
    case CallTry(o) => o !in s.ops
    case Lock(o) => s.owner.None? && o in s.ops && WantsLock(s.ops[o])
    case Enqueue(o) => o in s.ops && s.ops[o].Pushing?
    case Notify(o, w) => At(s, o, Notifying) && At(s, w, Waiting)
    case NotifyNobody(o) => At(s, o, Notifying) && forall w | w in s.ops :: !s.ops[w].Waiting?
    case FindItem(o) => At(s, o, Checking) && s.queue != []
    case StartWait(o) => At(s, o, Checking) && s.queue == []
    case WakeSpuriously(o) => At(s, o, Waiting)
    case Take(o) => At(s, o, Taking) && s.queue != []
    case TryTake(o) => At(s, o, Trying) && s.queue != []
    case TryFail(o) => At(s, o, Trying) && s.queue == []
  }

  function Goto<T>(s: State<T>, o: OpId, pc: Pc<T>): State<T> {
    s.(ops := s.ops[o := pc])
  }

  // Items leave at the front; the lock is released on return.
  function PopFront<T>(s: State<T>, o: OpId): State<T>
    requires s.queue != []
  {
    Goto(s, o, Returned(Some(s.queue[0]))).(queue := s.queue[1..], popped := s.popped + [s.queue[0]], owner := None)
  }

  function Apply<T(==)>(s: State<T>, l: Label<T>): State<T>
    requires Enabled(s, l)
  {
    match l
    case CallPush(o, x) => Goto(s, o, WantsPush(x))
    case CallPop(o) => Goto(s, o, WantsPop)
    case CallTry(o) => Goto(s, o, WantsTry)
    case Lock(o) => Goto(s, o, Locked(s.ops[o])).(owner := Some(o))
    case Enqueue(o) =>
      var x := s.ops[o].item;
      Goto(s, o, Notifying).(queue := s.queue + [x], pushed := s.pushed + [x], owner := None)
    case Notify(o, w) => Goto(Goto(s, o, Returned(None)), w, Woken)
    case NotifyNobody(o) => Goto(s, o, Returned(None))
    case FindItem(o) => Goto(s, o, Taking)
    case StartWait(o) => Goto(s, o, Waiting).(owner := None)
    case WakeSpuriously(o) => Goto(s, o, Woken)
    case Take(o) => PopFront(s, o)
    case TryTake(o) => PopFront(s, o)
    case TryFail(o) => Goto(s, o, Returned(None)).(owner := None)
  }

  function Run<T(==)>(ls: seq<Label<T>>): Option<State<T>>
    decreases |ls|
  {
    if ls == [] then Some(Init())
    else match Run(ls[..|ls| - 1])
      case None => None
      case Some(s) => if Enabled(s, ls[|ls| - 1]) then Some(Apply(s, ls[|ls| - 1])) else None
  }

  // ----- Mutual exclusion and order

  predicate Exclusive<T(==)>(s: State<T>) {
    && (forall o | o in s.ops :: HoldsLock(s.ops[o]) <==> s.owner == Some(o))
    && (s.owner.Some? ==> s.owner.value in s.ops)
  }

  predicate Fifo<T(==)>(s: State<T>) {
    s.popped + s.queue == s.pushed
  }

  // Nobody can be about to take from an empty queue: the lock is held from the look to the take.
  predicate TakingFindsItem<T(==)>(s: State<T>) {
    forall o | o in s.ops && s.ops[o].Taking? :: s.queue != []
  }

  // ----- Wake-ups

  // Somebody who will look at the queue, or wake somebody who will, without any further help.
  predicate Helps<T>(pc: Pc<T>) {
    pc.Notifying? || pc.Woken? || pc.Checking? || pc.Taking?
  }

  function Helpers<T>(ops: map<OpId, Pc<T>>): set<OpId> {
    set o | o in ops && Helps(ops[o])
  }

  ghost predicate SomebodyWaits<T(!new)>(s: State<T>) {
    exists o :: o in s.ops && s.ops[o].Waiting?
  }

  ghost predicate WakeupsSuffice<T(!new)>(s: State<T>) {
    SomebodyWaits(s) ==> |s.queue| <= |Helpers(s.ops)|
  }

  ghost predicate Inv<T(!new)>(s: State<T>) {
    Exclusive(s) && Fifo(s) && TakingFindsItem(s) && WakeupsSuffice(s)
  }

  lemma HelpersAfter<T>(ops: map<OpId, Pc<T>>, o: OpId, pc: Pc<T>)
    ensures var was, now := o in ops && Helps(ops[o]), Helps(pc);
            |Helpers(ops[o := pc])| == |Helpers(ops)| + (if now then 1 else 0) - (if was then 1 else 0)
  {
    var h := Helpers(ops);
    if Helps(pc) {
      assert Helpers(ops[o := pc]) == h + {o};
    } else {
      assert Helpers(ops[o := pc]) == h - {o};
    }
  }

  lemma QueueStep<T(!new)>(s: State<T>, l: Label<T>)
    requires Enabled(s, l) && Exclusive(s) && Fifo(s) && TakingFindsItem(s)
    ensures Exclusive(Apply(s, l)) && Fifo(Apply(s, l)) && TakingFindsItem(Apply(s, l))
  {
    hide Apply, Enabled, Exclusive, Fifo, TakingFindsItem;
    LockStep(s, l);
    FifoStep(s, l);
    TakingStep(s, l);
  }

  lemma LockStep<T(!new)>(s: State<T>, l: Label<T>)
    requires Enabled(s, l) && Exclusive(s)
    ensures Exclusive(Apply(s, l))
  {
  }

  lemma FifoStep<T(!new)>(s: State<T>, l: Label<T>)
    requires Enabled(s, l) && Fifo(s) && TakingFindsItem(s)
    ensures Fifo(Apply(s, l))
  {
    hide Exclusive, HoldsLock;
    if l.Take? || l.TryTake? {
      assert s.queue == [s.queue[0]] + s.queue[1..];
    }
  }

  lemma TakingStep<T(!new)>(s: State<T>, l: Label<T>)
    requires Enabled(s, l) && Exclusive(s) && TakingFindsItem(s)
    ensures TakingFindsItem(Apply(s, l))
  {
    hide Fifo;
  }

  // Who waits after a step waited before it, unless the step is the one that starts the wait.
  lemma WakeupStep<T(!new)>(s: State<T>, l: Label<T>)
    requires Enabled(s, l) && WakeupsSuffice(s)
    ensures WakeupsSuffice(Apply(s, l))
  {
    var s' := Apply(s, l);
    if l.StartWait? || l.NotifyNobody? {
      assert l.NotifyNobody? ==> !SomebodyWaits(s');
    } else {
      if o :| o in s'.ops && s'.ops[o].Waiting? {
        assert o in s.ops && s.ops[o].Waiting?;
      }
      if l.Notify? {
        HelpersAfter(s.ops, l.op, Returned(None));
        HelpersAfter(s.ops[l.op := Returned(None)], l.woken, Woken);
      } else {
        HelpersAfter(s.ops, l.op, s'.ops[l.op]);
      }
    }
  }

  lemma {:induction false} Reachable<T(!new)>(ls: seq<Label<T>>, s: State<T>)
    requires Run(ls) == Some(s)
    ensures Inv(s)
    decreases |ls|
  {
    if ls != [] {
      var b := Run(ls[..|ls| - 1]).value;
      Reachable(ls[..|ls| - 1], b);
      QueueStep(b, ls[|ls| - 1]);
      WakeupStep(b, ls[|ls| - 1]);
    }
  }

  // In every run: items leave in the order they entered, none lost and none twice; one operation at a
  // time is inside the lock.
  lemma FifoUnderMutualExclusion<T(!new)>(ls: seq<Label<T>>, s: State<T>)
    requires Run(ls) == Some(s)
    ensures s.popped + s.queue == s.pushed
    ensures forall o, p | o in s.ops && p in s.ops && HoldsLock(s.ops[o]) && HoldsLock(s.ops[p]) :: o == p
  {
    Reachable(ls, s);
  }

  // No wake-up is lost, with any number of producers and consumers, with spurious wake-ups, and with
  // late consumers that take an item before the consumer it was announced to: while somebody waits,
  // there is for every queued item a notification still to be sent or a consumer on its way to look.
  lemma NoLostWakeup<T(!new)>(ls: seq<Label<T>>, s: State<T>)
    requires Run(ls) == Some(s) && SomebodyWaits(s)
    ensures |s.queue| <= |Helpers(s.ops)|
    ensures Helpers(s.ops) == {} ==> s.queue == []
  {
    Reachable(ls, s);
  }

  // ----- What the calls return

  // The pushes in the order in which they entered the queue, and the pops in the order in which they took.
  function Pushes<T>(ls: seq<Label<T>>): seq<OpId>
    decreases |ls|
  {
    if ls == [] then []
    else Pushes(ls[..|ls| - 1]) + if ls[|ls| - 1].Enqueue? then [ls[|ls| - 1].op] else []
  }

  function Pops<T>(ls: seq<Label<T>>): seq<OpId>
    decreases |ls|
  {
    if ls == [] then []
    else Pops(ls[..|ls| - 1]) + if ls[|ls| - 1].Take? || ls[|ls| - 1].TryTake? then [ls[|ls| - 1].op] else []
  }

  ghost predicate PushesMatch<T(!new)>(ls: seq<Label<T>>, s: State<T>) {
    && |Pushes(ls)| == |s.pushed|
    && (forall i | 0 <= i < |s.pushed| :: CallPush(Pushes(ls)[i], s.pushed[i]) in ls)
    && (forall o | o in s.ops && s.ops[o].WantsPush? :: CallPush(o, s.ops[o].item) in ls)
    && (forall o | o in s.ops && s.ops[o].Pushing? :: CallPush(o, s.ops[o].item) in ls)
  }

  ghost predicate PopsMatch<T(!new)>(ls: seq<Label<T>>, s: State<T>) {
    && |Pops(ls)| == |s.popped|
    && (forall i | 0 <= i < |s.popped| :: At(s, Pops(ls)[i], Returned(Some(s.popped[i]))))
    && (forall o | o in s.ops && s.ops[o].Returned? && s.ops[o].popped.Some? :: o in Pops(ls))
  }

  ghost predicate Matched<T(!new)>(ls: seq<Label<T>>, s: State<T>) {
    PushesMatch(ls, s) && PopsMatch(ls, s)
  }

  lemma PushesMatchStep<T(!new)>(ls: seq<Label<T>>, s: State<T>, l: Label<T>)
    requires PushesMatch(ls, s) && Enabled(s, l)
    ensures PushesMatch(ls + [l], Apply(s, l))
  {
    var more, s' := ls + [l], Apply(s, l);
    assert more[..|more| - 1] == ls && more[|more| - 1] == l;
    assert forall l' | l' in ls :: l' in more;
    forall i | 0 <= i < |s'.pushed| ensures CallPush(Pushes(more)[i], s'.pushed[i]) in more {
      if i < |s.pushed| {
        assert Pushes(more)[i] == Pushes(ls)[i];
      }
    }
  }

  lemma PopsMatchStep<T(!new)>(ls: seq<Label<T>>, s: State<T>, l: Label<T>)
    requires PopsMatch(ls, s) && Enabled(s, l)
    ensures PopsMatch(ls + [l], Apply(s, l))
  {
    var more, s' := ls + [l], Apply(s, l);
    assert more[..|more| - 1] == ls && more[|more| - 1] == l;
    forall i | 0 <= i < |s'.popped| ensures At(s', Pops(more)[i], Returned(Some(s'.popped[i]))) {
      if i < |s.popped| {
        assert Pops(more)[i] == Pops(ls)[i] && At(s, Pops(ls)[i], Returned(Some(s.popped[i])));
      }
    }
  }

  lemma {:induction false} RunIsMatched<T(!new)>(ls: seq<Label<T>>, s: State<T>)
    requires Run(ls) == Some(s)
    ensures Matched(ls, s)
    decreases |ls|
  {
    hide PushesMatch, PopsMatch, Apply, Enabled;
    if ls == [] {
      NothingToMatch<T>();
    } else {
      var n := |ls| - 1;
      RunIsMatched(ls[..n], Run(ls[..n]).value);
      PushesMatchStep(ls[..n], Run(ls[..n]).value, ls[n]);
      PopsMatchStep(ls[..n], Run(ls[..n]).value, ls[n]);
      assert ls[..n] + [ls[n]] == ls;
    }
  }

  lemma NothingToMatch<T(!new)>()
    ensures Matched<T>([], Init())
  {
  }

  lemma RestIsQueued<T(!new)>(ls: seq<Label<T>>, s: State<T>)
    requires Run(ls) == Some(s)
    ensures |Pushes(ls)| == |Pops(ls)| + |s.queue|
  {
    hide Run, Pushes, Pops, WakeupsSuffice, TakingFindsItem, Exclusive;
    Reachable(ls, s);
    RunIsMatched(ls, s);
    assert |s.pushed| == |s.popped| + |s.queue|;
  }

  // In every run the i-th pop to take returns the item that the caller of the i-th push to enter passed,
  // and no other call returns an item.
  lemma PopsReturnWhatWasPushed<T(!new)>(ls: seq<Label<T>>, s: State<T>)
    requires Run(ls) == Some(s)
    ensures |Pops(ls)| <= |Pushes(ls)|
    ensures forall i | 0 <= i < |Pops(ls)| ::
              exists x :: CallPush(Pushes(ls)[i], x) in ls && At(s, Pops(ls)[i], Returned(Some(x)))
    ensures forall o | o in s.ops && s.ops[o].Returned? :: s.ops[o].popped.Some? <==> o in Pops(ls)
  {
    Reachable(ls, s);
    RunIsMatched(ls, s);
    RestIsQueued(ls, s);
    forall i | 0 <= i < |Pops(ls)|
      ensures exists x :: CallPush(Pushes(ls)[i], x) in ls && At(s, Pops(ls)[i], Returned(Some(x)))
    {
      assert s.popped[i] == s.pushed[i];
      assert CallPush(Pushes(ls)[i], s.pushed[i]) in ls;
    }
    forall o | o in s.ops && s.ops[o].Returned? && o in Pops(ls) ensures s.ops[o].popped.Some? {
      var i :| 0 <= i < |Pops(ls)| && Pops(ls)[i] == o;
      assert At(s, Pops(ls)[i], Returned(Some(s.popped[i])));
    }
  }

  // Where a call can be that was made with this label. A push that has returned has entered its item, a
  // blocking pop that has returned has taken one.
  predicate InKind<T(==)>(ls: seq<Label<T>>, s: State<T>, l: Label<T>) {
    match l
    case CallPush(o, x) =>
      && o in s.ops
      && (var pc := s.ops[o];
          if o in Pushes(ls) then pc.Notifying? || pc == Returned(None) else pc == WantsPush(x) || pc == Pushing(x))
    case CallPop(o) =>
      && o in s.ops
      && (var pc := s.ops[o];
          if o in Pops(ls) then pc.Returned? && pc.popped.Some?
          else pc.WantsPop? || pc.Checking? || pc.Waiting? || pc.Woken? || pc.Taking?)
    case CallTry(o) =>
      && o in s.ops
      && (var pc := s.ops[o];
          if o in Pops(ls) then pc.Returned? && pc.popped.Some? else pc.WantsTry? || pc.Trying? || pc == Returned(None))
    case _ => true
  }

  lemma KindStep<T(!new)>(ls: seq<Label<T>>, s: State<T>, l: Label<T>, call: Label<T>)
    requires Enabled(s, l) && Inv(s) && InKind(ls, s, call)
    ensures InKind(ls + [l], Apply(s, l), call)
  {
    var more := ls + [l];
    assert more[..|more| - 1] == ls && more[|more| - 1] == l;
  }

  lemma CallStarts<T(!new)>(ls: seq<Label<T>>, s: State<T>, l: Label<T>)
    requires Enabled(s, l) && forall o | o in Pushes(ls) + Pops(ls) :: o in s.ops
    ensures InKind(ls + [l], Apply(s, l), l)
  {
    var more := ls + [l];
    assert more[..|more| - 1] == ls && more[|more| - 1] == l;
    assert forall o | o in Pushes(ls) || o in Pops(ls) :: o in Pushes(ls) + Pops(ls);
  }

  lemma {:induction false} MoversExist<T(!new)>(ls: seq<Label<T>>, s: State<T>)
    requires Run(ls) == Some(s)
    ensures forall o | o in Pushes(ls) + Pops(ls) :: o in s.ops
    decreases |ls|
  {
    if ls != [] {
      var b := Run(ls[..|ls| - 1]).value;
      MoversExist(ls[..|ls| - 1], b);
      assert forall o | o in b.ops :: o in s.ops;
    }
  }

  // In every run each call stays what it was made as: a push enters its own item and returns nothing, a
  // blocking pop returns only with an item, and a try with an item or nothing.
  lemma {:induction false} CallsKeepTheirKind<T(!new)>(ls: seq<Label<T>>, s: State<T>, call: Label<T>)
    requires Run(ls) == Some(s) && call in ls
    ensures InKind(ls, s, call)
    decreases |ls|
  {
    hide Enabled, Apply, InKind, Inv;
    var n := |ls| - 1;
    var b := Run(ls[..n]).value;
    assert ls[..n] + [ls[n]] == ls;
    if call in ls[..n] {
      CallsKeepTheirKind(ls[..n], b, call);
      Reachable(ls[..n], b);
      KindStep(ls[..n], b, ls[n], call);
    } else {
      MoversExist(ls[..n], b);
      CallStarts(ls[..n], b, ls[n]);
    }
  }

  // Any call can be made at any time, a waiting consumer can wake for no reason, and the lock is to be had
  // exactly when no operation is inside it.
  lemma AnyoneCanCome<T(!new)>(ls: seq<Label<T>>, s: State<T>, o: OpId, x: T)
    requires Run(ls) == Some(s)
    ensures o !in s.ops ==> Enabled(s, CallPush(o, x)) && Enabled(s, CallPop(o)) && Enabled(s, CallTry(o))
    ensures At(s, o, Waiting) ==> Enabled(s, WakeSpuriously(o))
    ensures o in s.ops && WantsLock(s.ops[o]) ==>
              (Enabled(s, Lock(o)) <==> forall p | p in s.ops :: !HoldsLock(s.ops[p]))
  {
    Reachable(ls, s);
    if s.owner.Some? {
      assert HoldsLock(s.ops[s.owner.value]);
    }
  }

  // try_and_pop gives up, and wait_and_pop starts to wait, exactly when as many items have left as entered.
  lemma GivesUpOnlyWhenEmpty<T(!new)>(ls: seq<Label<T>>, s: State<T>, o: OpId)
    requires Run(ls) == Some(s) && o in s.ops
    ensures At(s, o, Trying) ==>
              && (Enabled(s, TryFail(o)) <==> |Pops(ls)| == |Pushes(ls)|)
              && (Enabled(s, TryTake(o)) <==> |Pops(ls)| < |Pushes(ls)|)
    ensures At(s, o, Checking) ==>
              && (Enabled(s, StartWait(o)) <==> |Pops(ls)| == |Pushes(ls)|)
              && (Enabled(s, FindItem(o)) <==> |Pops(ls)| < |Pushes(ls)|)
  {
    hide Run, Pushes, Pops;
    RestIsQueued(ls, s);
  }

  predicate Starts<T>(l: Label<T>) {
    l.CallPush? || l.CallPop? || l.CallTry? || l.WakeSpuriously?
  }

  // A waiting consumer and a non-empty queue never stand still: some operation in progress can step,
  // without a new call and without a spurious wake-up.
  lemma WaitingConsumerIsServed<T(!new)>(ls: seq<Label<T>>, s: State<T>)
    requires Run(ls) == Some(s) && SomebodyWaits(s) && s.queue != []
    ensures exists l :: !Starts(l) && Enabled(s, l)
  {
    Reachable(ls, s);
    if s.owner.Some? {
      var o := s.owner.value;
      if s.ops[o].Pushing? {
        assert Enabled(s, Enqueue(o));
      } else if s.ops[o].Checking? {
        assert Enabled(s, FindItem(o));
      } else if s.ops[o].Taking? {
        assert Enabled(s, Take(o));
      } else {
        assert Enabled(s, TryTake(o));
      }
    } else {
      assert Helpers(s.ops) != {};
      var o :| o in Helpers(s.ops);
      if s.ops[o].Notifying? {
        var w :| w in s.ops && s.ops[w].Waiting?;
        assert Enabled(s, Notify(o, w));
      } else {
        assert s.ops[o].Woken?;
        assert Enabled(s, Lock(o));
      }
    }
  }

  // ----- Bounded service

  // The steps an operation can still take without being signalled, woken or called.
  function StepsOf<T>(pc: Pc<T>): nat {
    match pc
    case WantsPush(_) => 6
    case Pushing(_) => 5
    case Notifying => 4
    case WantsPop => 3
    case Woken => 3
    case Checking => 2
    case WantsTry => 2
    case Taking => 1
    case Trying => 1
    case Waiting => 0
    case Returned(_) => 0
  }

  ghost function StepsLeft<T>(ops: map<OpId, Pc<T>>): nat
    decreases |ops|
  {
    if ops == map[] then 0
    else
      var o :| o in ops;
      StepsOf(ops[o]) + StepsLeft(ops - {o})
  }

  lemma {:induction false} PickOp<T>(ops: map<OpId, Pc<T>>, o: OpId)
    requires o in ops
    ensures StepsLeft(ops) == StepsOf(ops[o]) + StepsLeft(ops - {o})
    decreases |ops|
  {
    var p :| p in ops && StepsLeft(ops) == StepsOf(ops[p]) + StepsLeft(ops - {p});
    if p != o {
      assert ops - {p} - {o} == ops - {o} - {p};
      PickOp(ops - {p}, o);
      PickOp(ops - {o}, p);
    }
  }

  lemma MoveOp<T>(ops: map<OpId, Pc<T>>, o: OpId, pc: Pc<T>)
    requires o in ops
    ensures StepsLeft(ops[o := pc]) == StepsLeft(ops) - StepsOf(ops[o]) + StepsOf(pc)
  {
    PickOp(ops, o);
    PickOp(ops[o := pc], o);
    assert ops[o := pc] - {o} == ops - {o};
  }

  // A signal moves steps from the producer to the consumer, and uses one up.
  lemma StepUsesUp<T(!new)>(s: State<T>, l: Label<T>)
    requires Enabled(s, l) && !Starts(l)
    ensures StepsLeft(Apply(s, l).ops) < StepsLeft(s.ops)
  {
    hide StepsLeft;
    if l.Notify? {
      MoveOp(s.ops, l.op, Returned(None));
      MoveOp(s.ops[l.op := Returned(None)], l.woken, Woken);
    } else {
      MoveOp(s.ops, l.op, Apply(s, l).ops[l.op]);
    }
  }

  // Once there are no new calls and no spurious wake-ups, every schedule stops within a bound read off
  // the operations in progress, and where it can go no further nobody waits beside a queued item.
  lemma {:induction false} BoundedService<T(!new)>(ls: seq<Label<T>>, more: seq<Label<T>>, s: State<T>, s': State<T>)
    requires Run(ls) == Some(s) && Run(ls + more) == Some(s')
    requires forall l | l in more :: !Starts(l)
    ensures |more| + StepsLeft(s'.ops) <= StepsLeft(s.ops)
    ensures (forall l :: Enabled(s', l) ==> Starts(l)) ==> SomebodyWaits(s') ==> s'.queue == []
    decreases |more|
  {
    if more == [] {
      assert ls + more == ls;
    } else {
      var n := |more| - 1;
      assert (ls + more)[..|ls + more| - 1] == ls + more[..n] && (ls + more)[|ls + more| - 1] == more[n];
      var b := Run(ls + more[..n]).value;
      assert more[n] in more && forall l | l in more[..n] :: l in more;
      BoundedService(ls, more[..n], s, b);
      StepUsesUp(b, more[n]);
    }
    if SomebodyWaits(s') && s'.queue != [] {
      WaitingConsumerIsServed(ls + more, s');
    }
  }
}

// The critical sections of shared_queue; each runs with the lock held, so it is atomic to the others.
module SharedQueue {
  import opened Common

  class SharedQueue<T> {
    var queue: seq<T>

    constructor ()
      ensures queue == []
    {
      queue := [];
    }

    method Push(item: T)
      modifies this
      ensures queue == old(queue) + [item]
    {
      queue := queue + [item];
    }

    method TryAndPop() returns (popped: Option<T>)
      modifies this
      ensures old(queue) == [] ==> popped.None? && queue == []
      ensures old(queue) != [] ==> popped.Some? && [popped.value] + queue == old(queue)
    {
      if queue == [] {
        return None;
      }
      popped := Some(queue[0]);
      queue := queue[1..];
    }

    // On an empty queue the caller blocks; SharedQueueProtocol says what wakes it.
    method WaitAndPop() returns (item: T)
      requires queue != []
      modifies this
      ensures [item] + queue == old(queue)
    {
      item := queue[0];
      queue := queue[1..];
    }
  }
}
