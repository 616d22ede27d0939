/**
  sql/cond.go: the condition tree of a WHERE/ON clause and the `Or` builder.

  `Expr` is an interface of which no implementation is part of this model; an
  expression is represented by the writer calls its `write` makes.
 */
module SqlCond {
  import opened Wrappers
  import opened CodeWriter

  /** An SQL expression, given by the calls its `write` makes. */
  datatype Expr = Expr(cmds: seq<Cmd>)

  type BinOp = string
  type UnOp = string

  const EqOp: BinOp := "="
  const NeqOp: BinOp := "<>"
  const LtOp: BinOp := "<"
  const LeqOp: BinOp := "<="
  const MtOp: BinOp := ">"
  const MeqOp: BinOp := ">="

  const IsNullOp: UnOp := "isnull"
  const IsNotNullOp: UnOp := "isnotnull"

  /** The five `Cond` implementations; nil conditions are `None` where they may occur. */
  datatype Cond =
    | OrCond(ops: seq<Cond>)
    | AndCond(ops: seq<Cond>)
    | NotCond(op: Cond)
    | BinCond(bop: BinOp, lhs: Expr, rhs: Expr)
    | UnCond(uop: UnOp, expr: Expr)

  /**
    `condPrec`: how tightly a condition binds. OR binds loosest, then AND,
    then NOT; comparisons and unary tests bind tightest.
   */
  function CondPrec(c: Cond): (p: nat)
    ensures p <= 3
    ensures p == 0 <==> c.OrCond?
    ensures p == 3 <==> c.BinCond? || c.UnCond?
  {
    match c
    case OrCond(_) => 0
    case AndCond(_) => 1
    case NotCond(_) => 2
    case BinCond(_, _, _) => 3
    case UnCond(_, _) => 3
  }

  // ---------------------------------------------------------------------------
  // Or

  /** What one non-nil operand contributes to the operand list of `Or`: an OR's own operands, or itself. */
  function Spliced(c: Cond): seq<Cond>
  {
    if c.OrCond? then c.ops else [c]
  }

  /** The operand list `o` once `Or`'s loop has gone over `ops` (nil is `None`). */
  function Collect(ops: seq<Option<Cond>>): seq<Cond>
  {
    if |ops| == 0 then []
    else
      Collect(ops[..|ops| - 1]) +
      match ops[|ops| - 1]
      case None => []
      case Some(c) => Spliced(c)
  }

  /** The result chosen from the collected operands: nil, the only one, or an OR of them all. */
  function OrOf(o: seq<Cond>): (r: Option<Cond>)
  {
    if |o| == 0 then None else if |o| == 1 then Some(o[0]) else Some(OrCond(o))
  }

  /** `Or(ops...)`. */
  method Or(ops: seq<Option<Cond>>) returns (r: Option<Cond>)
    ensures r == OrOf(Collect(ops))
  {
    var o: seq<Cond> := [];
    var idx := 0;
    while idx < |ops|
      invariant 0 <= idx <= |ops|
      invariant o == Collect(ops[..idx])
    {
      assert ops[..idx + 1][..idx] == ops[..idx];
      if ops[idx].Some? {
        var op := ops[idx].value;
        if op.OrCond? {
          o := o + op.ops;
        } else {
          o := o + [op];
        }
      }
      idx := idx + 1;
    }
    assert ops[..idx] == ops;
    if |o| == 0 {
      return None;
    } else if |o| == 1 {
      return Some(o[0]);
    }
    return Some(OrCond(o));
  }

  /** `OrCond.Operands`. */
  function Operands(c: Cond): (ops: seq<Cond>)
    requires c.OrCond?
    ensures OrCond(ops) == c
  {
    c.ops
  }

  /** Operand lists split anywhere collect piecewise: `Or` keeps the order of its operands. */
  lemma {:induction false} CollectAppend(a: seq<Option<Cond>>, b: seq<Option<Cond>>)
    ensures Collect(a + b) == Collect(a) + Collect(b)
    decreases |b|
  {
    if |b| == 0 {
      assert a + b == a;
    } else {
      var init, last := b[..|b| - 1], b[|b| - 1];
      var m := match last
        case None => []
        case Some(c) => Spliced(c);
      assert (a + b)[..|a + b| - 1] == a + init;
      assert (a + b)[|a + b| - 1] == last;
      assert Collect(a + b) == Collect(a + init) + m;
      assert Collect(b) == Collect(init) + m;
      CollectAppend(a, init);
      assert Collect(a) + (Collect(init) + m) == Collect(a) + Collect(init) + m;
    }
  }

  /** A condition appears among the collected operands exactly when it was passed itself, or inside a passed OR. */
  lemma {:induction false} CollectMembers(ops: seq<Option<Cond>>, c: Cond)
    ensures c in Collect(ops) <==>
      exists i :: 0 <= i < |ops| && ops[i].Some? && c in Spliced(ops[i].value)
    decreases |ops|
  {
    if |ops| > 0 {
      var init := ops[..|ops| - 1];
      CollectMembers(init, c);
      if c in Collect(ops) {
        if c in Collect(init) {
          var i :| 0 <= i < |init| && init[i].Some? && c in Spliced(init[i].value);
          assert ops[i] == init[i];
        }
      }
      if exists i :: 0 <= i < |ops| && ops[i].Some? && c in Spliced(ops[i].value) {
        var i :| 0 <= i < |ops| && ops[i].Some? && c in Spliced(ops[i].value);
        if i < |ops| - 1 {
          assert init[i] == ops[i];
        }
      }
    }
  }

  /** `Or` gives nil exactly when every operand is nil or an OR without operands. */
  lemma OrNil(ops: seq<Option<Cond>>)
    ensures OrOf(Collect(ops)).None? <==>
      forall i :: 0 <= i < |ops| ==> ops[i].None? || ops[i].value == OrCond([])
  {
    if OrOf(Collect(ops)).None? {
      forall i | 0 <= i < |ops| ensures ops[i].None? || ops[i].value == OrCond([]) {
        if ops[i].Some? && ops[i].value != OrCond([]) {
          var c := ops[i].value;
          var x := if c.OrCond? then c.ops[0] else c;
          assert x in Spliced(c);
          CollectMembers(ops, x);
        }
      }
    } else {
      var x := Collect(ops)[0];
      CollectMembers(ops, x);
    }
  }

  /** A condition whose OR, if it is one, holds no OR directly: what `Or` builds from such conditions. */
  predicate Normal(c: Cond)
  {
    c.OrCond? ==> forall k :: 0 <= k < |c.ops| ==> !c.ops[k].OrCond?
  }

  /** From normal operands, `Or` collects no OR: every OR it receives has been spliced. */
  lemma {:induction false} CollectNoOr(ops: seq<Option<Cond>>)
    requires forall i :: 0 <= i < |ops| ==> ops[i].None? || Normal(ops[i].value)
    ensures forall k :: 0 <= k < |Collect(ops)| ==> !Collect(ops)[k].OrCond?
    decreases |ops|
  {
    if |ops| > 0 {
      var init := ops[..|ops| - 1];
      assert forall i :: 0 <= i < |init| ==> init[i] == ops[i];
      CollectNoOr(init);
    }
  }

  /** From normal operands `Or` builds a normal condition, and an OR it builds has at least two operands. */
  lemma OrNormal(ops: seq<Option<Cond>>)
    requires forall i :: 0 <= i < |ops| ==> ops[i].None? || Normal(ops[i].value)
    ensures OrOf(Collect(ops)).Some? ==> Normal(OrOf(Collect(ops)).value)
    ensures OrOf(Collect(ops)).Some? && OrOf(Collect(ops)).value.OrCond? ==> |OrOf(Collect(ops)).value.ops| >= 2
  {
    CollectNoOr(ops);
  }

  /** `Or` of a single operand that `Or` built gives that operand back. */
  lemma OrIdempotent(ops: seq<Option<Cond>>)
    requires forall i :: 0 <= i < |ops| ==> ops[i].None? || Normal(ops[i].value)
    ensures OrOf(Collect([OrOf(Collect(ops))])) == OrOf(Collect(ops))
  {
    CollectNoOr(ops);
    CollectOr(Collect(ops));
  }

  /** What `Or` built, passed on to `Or` again, contributes the operands it was built from. */
  lemma CollectOr(o: seq<Cond>)
    requires forall k :: 0 <= k < |o| ==> !o[k].OrCond?
    ensures Collect([OrOf(o)]) == o
  {
    assert [OrOf(o)][..0] == [];
    if |o| == 1 {
      assert !o[0].OrCond?;
      assert [o[0]] == o;
    }
  }

  /** Nesting does not matter: the OR of two ORs of normal operands is the OR of all the operands. */
  lemma OrNested(a: seq<Option<Cond>>, b: seq<Option<Cond>>)
    requires forall i :: 0 <= i < |a| ==> a[i].None? || Normal(a[i].value)
    requires forall i :: 0 <= i < |b| ==> b[i].None? || Normal(b[i].value)
    ensures OrOf(Collect([OrOf(Collect(a)), OrOf(Collect(b))])) == OrOf(Collect(a + b))
  {
    CollectNoOr(a);
    CollectNoOr(b);
    CollectOr(Collect(a));
    CollectOr(Collect(b));
    CollectAppend([OrOf(Collect(a))], [OrOf(Collect(b))]);
    assert [OrOf(Collect(a))] + [OrOf(Collect(b))] == [OrOf(Collect(a)), OrOf(Collect(b))];
    CollectAppend(a, b);
  }
}
