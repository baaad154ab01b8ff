// moveoncopy.hpp: a wrapper whose copies take the content away from the original, so that move-only
// values can pass through std::function and the queues.
module MoveOnCopy {
  import opened Common

  // content  _move_only; None is the moved-from value
  class MoveOnCopy<T> {
    var content: Option<T>

    constructor (m: T)
      ensures content == Some(m)
    {
      content := Some(m);
    }

    // The copy constructor: the source is const, its content is not.
    constructor Copy(t: MoveOnCopy<T>)
      modifies t
      ensures content == old(t.content) && t.content.None?
    {
      content := t.content;
      new;
      t.content := None;
    }

    // Assigning to itself keeps the content; what was there before is gone otherwise.
    method Assign(other: MoveOnCopy<T>)
      modifies this, other
      ensures content == old(other.content)
      ensures other != this ==> other.content.None?
    {
      var moved := other.content;
      other.content := None;
      content := moved;
    }

    method Release() returns (m: Option<T>)
      modifies this
      ensures m == old(content) && content.None?
    {
      m := content;
      content := None;
    }
  }

  // ----- Any number of wrappers handing payloads around

  type CellId = nat
  type Payload = nat

  // cells  the wrappers that exist and what they hold
  // made   every payload ever put into a wrapper
  // gone   the payloads that were destroyed with their wrapper, overwritten, or released
  datatype Cells = Cells(cells: map<CellId, Option<Payload>>, made: set<Payload>, gone: set<Payload>)

  datatype Op =
    | Make(c: CellId, p: Payload)
    | CopyTo(from: CellId, to: CellId)
    | AssignTo(from: CellId, to: CellId)
    | ReleaseOf(c: CellId)
    | DestroyOf(c: CellId)

  predicate Legal(s: Cells, op: Op) {
    match op
    case Make(c, p) => c !in s.cells && p !in s.made
    case CopyTo(a, b) => a in s.cells && b !in s.cells
    case AssignTo(a, b) => a in s.cells && b in s.cells
    case ReleaseOf(c) => c in s.cells
    case DestroyOf(c) => c in s.cells
  }

  function Content(o: Option<Payload>): set<Payload> {
    if o.Some? then {o.value} else {}
  }

  function Step(s: Cells, op: Op): Cells
    requires Legal(s, op)
  {
    match op
    case Make(c, p) => s.(cells := s.cells[c := Some(p)], made := s.made + {p})
    case CopyTo(a, b) => s.(cells := s.cells[b := s.cells[a]][a := None])
    case AssignTo(a, b) =>
      if a == b then s
      else s.(cells := s.cells[b := s.cells[a]][a := None], gone := s.gone + Content(s.cells[b]))
    case ReleaseOf(c) => s.(cells := s.cells[c := None], gone := s.gone + Content(s.cells[c]))
    case DestroyOf(c) => s.(cells := s.cells - {c}, gone := s.gone + Content(s.cells[c]))
  }

  function Run(ops: seq<Op>): Option<Cells>
    decreases |ops|
  {
    if ops == [] then Some(Cells(map[], {}, {}))
    else match Run(ops[..|ops| - 1])
      case None => None
      case Some(s) => if Legal(s, ops[|ops| - 1]) then Some(Step(s, ops[|ops| - 1])) else None
  }

  predicate Holds(s: Cells, c: CellId, p: Payload) {
    c in s.cells && s.cells[c] == Some(p)
  }

  // A payload that was made is either gone or held, and never by two wrappers at once.
  ghost predicate OneOwner(s: Cells) {
    && (forall c, d, p | Holds(s, c, p) && Holds(s, d, p) :: c == d)
    && (forall c, p | Holds(s, c, p) :: p in s.made && p !in s.gone)
    && (forall p | p in s.gone :: p in s.made)
    && (forall p | p in s.made && p !in s.gone :: exists c :: Holds(s, c, p))
  }

  // Where a payload that stays is after the step.
  lemma StepMoves(s: Cells, op: Op, c: CellId, p: Payload)
    requires Legal(s, op) && OneOwner(s) && Holds(s, c, p) && p !in Step(s, op).gone
    ensures Holds(Step(s, op), if op.CopyTo? && c == op.from then op.to else if op.AssignTo? && c == op.from then op.to else c, p)
  {
  }

  lemma StepKeepsOneOwner(s: Cells, op: Op)
    requires Legal(s, op) && OneOwner(s)
    ensures OneOwner(Step(s, op))
  {
    var s' := Step(s, op);
    forall p | p in s'.gone ensures p in s'.made {
      assert p in s.gone || (exists c :: Holds(s, c, p)) by {
        if p !in s.gone {
          assert Holds(s, if op.AssignTo? then op.to else op.c, p);
        }
      }
    }
    forall p | p in s'.made && p !in s'.gone ensures exists c :: Holds(s', c, p) {
      if p in s.made {
        var c :| Holds(s, c, p);
        StepMoves(s, op, c, p);
      } else {
        assert Holds(s', op.c, p);
      }
    }
    forall c, p | Holds(s', c, p) ensures p in s'.made && p !in s'.gone {
      ComesFrom(s, op, c, p);
    }
    forall c, d, p | Holds(s', c, p) && Holds(s', d, p) ensures c == d {
      ComesFrom(s, op, c, p);
      ComesFrom(s, op, d, p);
    }
  }

  // The wrapper that held the content of c before the step, if it is not new.
  function Source(op: Op, c: CellId): CellId {
    if (op.CopyTo? || op.AssignTo?) && c == op.to then op.from else c
  }

  lemma ComesFrom(s: Cells, op: Op, c: CellId, p: Payload)
    requires Legal(s, op) && OneOwner(s) && Holds(Step(s, op), c, p)
    ensures if op.Make? && op.c == c then p == op.p && p !in s.made else Holds(s, Source(op, c), p)
    ensures p in Step(s, op).made && p !in Step(s, op).gone
    ensures (op.CopyTo? || op.AssignTo?) && op.from != op.to ==> c != op.from
  {
    if op.Make? && op.c == c {
      assert p !in s.gone;
    } else {
      assert Holds(s, Source(op, c), p);
      assert forall d | Holds(s, d, p) :: d == Source(op, c);
      assert op.AssignTo? && op.from != op.to ==> !Holds(s, op.to, p);
      assert op.ReleaseOf? || op.DestroyOf? ==> !Holds(s, op.c, p);
    }
  }

  // The wrapper whose content a step does away with: released, destroyed, or assigned to from another.
  predicate Loses(op: Op, c: CellId) {
    match op
    case ReleaseOf(d) => c == d
    case DestroyOf(d) => c == d
    case AssignTo(from, to) => c == to && from != to
    case _ => false
  }

  // A payload goes exactly when its wrapper loses it, and the wrapper that was copied or assigned from, or
  // released, is left empty.
  lemma GoesExactly(s: Cells, op: Op, p: Payload)
    requires Legal(s, op) && OneOwner(s)
    ensures p in Step(s, op).gone <==> p in s.gone || exists c :: Holds(s, c, p) && Loses(op, c)
    ensures op.ReleaseOf? ==> Step(s, op).cells == s.cells[op.c := None]
    ensures op.DestroyOf? ==> op.c !in Step(s, op).cells
    ensures (op.CopyTo? || op.AssignTo?) && op.from != op.to ==>
              op.from in Step(s, op).cells && Step(s, op).cells[op.from] == None
  {
    if op.AssignTo? {
      assert forall c | Holds(s, c, p) && Loses(op, c) :: c == op.to;
      assert op.from != op.to && p in Content(s.cells[op.to]) ==> Holds(s, op.to, p) && Loses(op, op.to);
    } else if op.ReleaseOf? || op.DestroyOf? {
      assert p in Content(s.cells[op.c]) ==> Holds(s, op.c, p) && Loses(op, op.c);
    }
  }

  // Through any chain of copies, assignments, releases and destructions, every payload that is not
  // gone has exactly one owner.
  lemma {:induction false} EveryPayloadHasOneOwner(ops: seq<Op>, s: Cells, p: Payload)
    requires Run(ops) == Some(s) && p in s.made
    ensures p !in s.gone ==> exists c :: Holds(s, c, p) && forall d | Holds(s, d, p) :: d == c
    ensures p in s.gone ==> forall c :: !Holds(s, c, p)
  {
    RunKeepsOneOwner(ops, s);
  }

  lemma {:induction false} RunKeepsOneOwner(ops: seq<Op>, s: Cells)
    requires Run(ops) == Some(s)
    ensures OneOwner(s)
    decreases |ops|
  {
    if ops != [] {
      var b := Run(ops[..|ops| - 1]).value;
      RunKeepsOneOwner(ops[..|ops| - 1], b);
      StepKeepsOneOwner(b, ops[|ops| - 1]);
    }
  }

  // A chain of copies hands the payload to the last copy, and only there.
  lemma {:induction false} ChainEndsInOneCell(s: Cells, chain: seq<CellId>, p: Payload)
    requires OneOwner(s) && chain != [] && Holds(s, chain[0], p)
    requires forall i | 1 <= i < |chain| :: chain[i] !in s.cells
    requires forall i, j :: 0 <= i < j < |chain| ==> chain[i] != chain[j]
    ensures var t := CopyChain(s, chain);
            Holds(t, chain[|chain| - 1], p) && forall c | Holds(t, c, p) :: c == chain[|chain| - 1]
    decreases |chain|
  {
    if |chain| > 1 {
      var op := CopyTo(chain[0], chain[1]);
      StepKeepsOneOwner(s, op);
      ChainEndsInOneCell(Step(s, op), chain[1..], p);
    }
  }

  function CopyChain(s: Cells, chain: seq<CellId>): Cells
    requires chain != [] && chain[0] in s.cells
    requires forall i | 1 <= i < |chain| :: chain[i] !in s.cells
    requires forall i, j :: 0 <= i < j < |chain| ==> chain[i] != chain[j]
    decreases |chain|
  {
    if |chain| == 1 then s else CopyChain(Step(s, CopyTo(chain[0], chain[1])), chain[1..])
  }
}
