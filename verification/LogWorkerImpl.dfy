// LogWorkerImpl of logworker.cpp: the jobs themselves, over message and sink objects. The pipeline
// takes them apart into steps; here each runs to its end.
module LogWorkerImpl {
  import opened Common
  import opened ActiveObject
  import P = Pipeline
  import opened PipelineSpec

  class LogMessage {
    var level: Level
    var text: string
    var closing: bool

    function Value(): Message
      reads this
    {
      Message(level, text, closing)
    }

    constructor (m: Message)
      ensures Value() == m
    {
      level, text, closing := m.level, m.text, m.closing;
    }

    constructor CopyOf(other: LogMessage)
      ensures Value() == other.Value()
    {
      level, text, closing := other.level, other.text, other.closing;
    }
  }

  // inbox  the messages that send has handed to the sink's own thread
  class Sink {
    const id: P.SinkId
    var inbox: seq<LogMessage>

    constructor (id: P.SinkId)
      ensures this.id == id && inbox == []
    {
      this.id := id;
      inbox := [];
    }

    function Received(): seq<Message>
      reads this, inbox
    {
      Values(inbox)
    }

    method Send(m: LogMessage)
      modifies this
      ensures inbox == old(inbox) + [m]
    {
      inbox := inbox + [m];
    }
  }

  function Values(ms: seq<LogMessage>): (vs: seq<Message>)
    reads ms
    ensures |vs| == |ms| && forall i | 0 <= i < |ms| :: vs[i] == ms[i].Value()
  {
    seq(|ms|, i requires 0 <= i < |ms| reads ms => ms[i].Value())
  }

  // Each list has grown by one new element, and they had nothing in common.
  lemma Apart(a: seq<LogMessage>, a': seq<LogMessage>, b: seq<LogMessage>, b': seq<LogMessage>)
    requires a' != [] && b' != [] && a'[..|a'| - 1] == a && b'[..|b'| - 1] == b
    requires a'[|a'| - 1] !in b && b'[|b'| - 1] !in a && a'[|a'| - 1] != b'[|b'| - 1]
    requires forall x | x in a :: x !in b
    ensures forall x | x in a' :: x !in b'
  {
    assert a' == a + [a'[|a'| - 1]] && b' == b + [b'[|b'| - 1]];
  }

  class LogWorkerImpl {
    var sinks: seq<Sink>
    var reported: seq<Message>

    // addSink makes a new Sink object for every call.
    ghost predicate Valid()
      reads this
    {
      forall i, j :: 0 <= i < j < |sinks| ==> sinks[i] != sinks[j]
    }

    // No two sinks share a message object.
    ghost predicate Separate()
      reads this, sinks
    {
      forall i, j | 0 <= i < j < |sinks| :: forall m | m in sinks[i].inbox :: m !in sinks[j].inbox
    }

    function Registry(): (ks: seq<P.SinkId>)
      reads this
      ensures |ks| == |sinks|
    {
      seq(|sinks|, i requires 0 <= i < |sinks| reads this => sinks[i].id)
    }

    constructor ()
      ensures Valid() && Separate() && sinks == [] && reported == []
    {
      sinks, reported := [], [];
    }

    // The fan-out loop that bgSave and bgFatal share: every sink gets a copy of its own.
    method SendCopies(m: LogMessage)
      requires Valid()
      modifies sinks
      ensures forall i | 0 <= i < |sinks| ::
                var box := sinks[i].inbox;
                && |box| == |old(sinks[i].inbox)| + 1 && box[..|box| - 1] == old(sinks[i].inbox)
                && fresh(box[|box| - 1]) && box[|box| - 1].Value() == m.Value()
      ensures forall i, j | 0 <= i < j < |sinks| :: sinks[i].inbox[|sinks[i].inbox| - 1] != sinks[j].inbox[|sinks[j].inbox| - 1]
    {
      var n := 0;
      while n < |sinks|
        invariant 0 <= n <= |sinks|
        invariant forall i | 0 <= i < n ::
                    var box := sinks[i].inbox;
                    && |box| == |old(sinks[i].inbox)| + 1 && box[..|box| - 1] == old(sinks[i].inbox)
                    && fresh(box[|box| - 1]) && box[|box| - 1].Value() == m.Value()
        invariant forall i | n <= i < |sinks| :: sinks[i].inbox == old(sinks[i].inbox)
        invariant forall i, j | 0 <= i < j < n :: sinks[i].inbox[|sinks[i].inbox| - 1] != sinks[j].inbox[|sinks[j].inbox| - 1]
      {
        var msg := new LogMessage.CopyOf(m);
        sinks[n].Send(msg);
        n := n + 1;
      }
    }

    method BgSave(m: LogMessage)
      requires Valid() && Separate()
      modifies this`reported, sinks
      ensures Valid() && Registry() == RegistryNext(old(Registry()), Call(P.Save(old(m.Value()))))
      ensures reported == old(reported) + OrphanOf(old(Registry()), Call(P.Save(old(m.Value()))))
      ensures forall i | 0 <= i < |sinks| ::
                sinks[i].Received() == old(sinks[i].Received()) + Gift(Present, Call(P.Save(old(m.Value()))))
      ensures forall i | 0 <= i < |sinks| ::
                sinks[i].Received() == old(sinks[i].Received()) + [Message(old(m.level), old(m.text), old(m.closing))]
      ensures reported == old(reported) + (if sinks == [] then [old(m.Value())] else [])
      ensures Separate()
    {
      SendCopies(m);
      forall i, j | 0 <= i < j < |sinks| ensures forall x | x in sinks[i].inbox :: x !in sinks[j].inbox {
        Apart(old(sinks[i].inbox), sinks[i].inbox, old(sinks[j].inbox), sinks[j].inbox);
      }
      forall i | 0 <= i < |sinks| ensures sinks[i].Received() == old(sinks[i].Received()) + [old(m.Value())] {
        assert forall k | 0 <= k < |old(sinks[i].inbox)| :: sinks[i].inbox[k] == old(sinks[i].inbox)[k];
      }
      if |sinks| == 0 {
        reported := reported + [m.Value()];
      }
      assert |Registry()| == 0 <==> Registry() == [];
    }

    // A sink may change a message it was given: nobody else sees that.
    method SinkRewrites(i: nat, n: nat, text: string)
      requires Valid() && Separate() && i < |sinks| && n < |sinks[i].inbox|
      modifies sinks[i].inbox[n]
      ensures sinks[i].inbox[n].Value() == old(sinks[i].inbox[n].Value()).(text := text)
      ensures Separate() && forall j | 0 <= j < |sinks| && j != i :: sinks[j].Received() == old(sinks[j].Received())
    {
      sinks[i].inbox[n].text := text;
      assert forall j | 0 <= j < |sinks| && j != i :: sinks[i].inbox[n] !in sinks[j].inbox;
    }

    // Up to the end of the process: the closing lines are appended to the message itself, and when the
    // registry is cleared every sink has the message as its last one.
    method BgFatal(m: LogMessage) returns (flushed: seq<Sink>)
      requires Valid() && forall s | s in sinks :: m !in s.inbox
      modifies this`sinks, m, sinks
      ensures sinks == [] && flushed == old(sinks)
      ensures forall i | 0 <= i < |flushed| ::
                flushed[i].Received() == old(flushed[i].Received()) + Gift(Present, Call(P.Fatal(old(m.Value()))))
      ensures forall i | 0 <= i < |flushed| ::
                flushed[i].Received() == old(flushed[i].Received()) + [Message(old(m.level), old(m.text), true)]
      ensures forall i | 0 <= i < |flushed| :: m !in flushed[i].inbox
    {
      m.closing := true;
      SendCopies(m);
      flushed := sinks;
      sinks := [];
    }

    // addSink has just made the sink.
    method AddWrappedSink(s: Sink)
      requires Valid() && Separate() && s !in sinks && s.inbox == []
      modifies this`sinks
      ensures Valid() && Separate() && sinks == old(sinks) + [s]
      ensures Registry() == RegistryNext(old(Registry()), Call(P.AddSink(s.id)))
    {
      sinks := sinks + [s];
    }

    method ClearSinks()
      modifies this`sinks
      ensures Valid() && Separate() && Registry() == RegistryNext(old(Registry()), Call(P.ClearSinks))
    {
      sinks := [];
    }
  }
}
