/**
  Statements of the unfinished go/ rewrite (go/stmt.go): constructors,
  `newLineAfter` and the `write` methods, given as the writer calls they make.

  Unlike golang/stmt.go, a block of the rewrite is never written inline: a
  non-empty block always goes on its own indented lines, and a blank line
  follows every statement whose `newLineAfter` holds, unless it is the last.
 */
module GoStmt {
  import opened Wrappers
  import opened Text
  import opened CodeWriter
  import opened GoAst
  import opened GoAstText

  /**
    A statement. The `init` of an `IfStmt` is an assignment (Go's `initStmt`)
    and its `estmt` a block or another `if` (Go's `elseStmt`); `IsInit` and
    `IsElse` say so.
   */
  datatype Stmt =
    | AssignStmt(op: string, dest: seq<Expr>, src: seq<Expr>)
    | BlockStmt(stmts: seq<Stmt>)
    | BreakStmt
    | ContinueStmt
    | IfStmt(init: Option<Stmt>, cond: Option<Expr>, tstmt: seq<Stmt>, estmt: Option<Stmt>)
    | ReturnStmt(val: Option<Expr>)

  predicate IsInit(s: Option<Stmt>) { s.Some? ==> s.value.AssignStmt? }
  predicate IsElse(s: Option<Stmt>) { s.Some? ==> s.value.BlockStmt? || s.value.IfStmt? }

  const SimpleAssignOp := "="
  const DeclAssignOp := ":="
  const AddAssignOp := "+="
  const SubAssignOp := "-="
  const MulAssignOp := "*="
  const DivAssignOp := "/="
  const ModAssignOp := "%="
  const AndAssignOp := "&="
  const OrAssignOp := "|="
  const XorAssignOp := "^="
  const ShlAssignOp := "<<="
  const ShrAssignOp := ">>="

  // ---------------------------------------------------------------------------
  // Constructors.

  function Assign(dest: seq<Expr>, src: seq<Expr>): Stmt { AssignStmt(SimpleAssignOp, dest, src) }
  function DeclAssign(dest: seq<Expr>, src: seq<Expr>): Stmt { AssignStmt(DeclAssignOp, dest, src) }

  /** The shape of the ten compound assignments: one destination, one source. */
  function CompoundAssign(op: string, dest: Expr, src: Expr): Stmt { AssignStmt(op, [dest], [src]) }

  function AddAssign(dest: Expr, src: Expr): Stmt { CompoundAssign(AddAssignOp, dest, src) }
  function SubAssign(dest: Expr, src: Expr): Stmt { CompoundAssign(SubAssignOp, dest, src) }
  function MulAssign(dest: Expr, src: Expr): Stmt { CompoundAssign(MulAssignOp, dest, src) }
  function DivAssign(dest: Expr, src: Expr): Stmt { CompoundAssign(DivAssignOp, dest, src) }
  function ModAssign(dest: Expr, src: Expr): Stmt { CompoundAssign(ModAssignOp, dest, src) }
  function AndAssign(dest: Expr, src: Expr): Stmt { CompoundAssign(AndAssignOp, dest, src) }
  function OrAssign(dest: Expr, src: Expr): Stmt { CompoundAssign(OrAssignOp, dest, src) }
  function XorAssign(dest: Expr, src: Expr): Stmt { CompoundAssign(XorAssignOp, dest, src) }
  function ShiftLeftAssign(dest: Expr, src: Expr): Stmt { CompoundAssign(ShlAssignOp, dest, src) }
  function ShiftRightAssign(dest: Expr, src: Expr): Stmt { CompoundAssign(ShrAssignOp, dest, src) }

  function Block(stmts: seq<Stmt>): Stmt { BlockStmt(stmts) }

  /** `If(init, cond, then, else)`: the init argument is dropped. */
  function If(init: Option<Stmt>, cond: Option<Expr>, thenStmt: seq<Stmt>, elseStmt: Option<Stmt>): (s: Stmt)
    requires IsInit(init) && IsElse(elseStmt)
    ensures s.IfStmt? && s.init.None?
    ensures s.cond == cond && s.tstmt == thenStmt && s.estmt == elseStmt
  {
    IfStmt(None, cond, thenStmt, elseStmt)
  }

  function Return(val: Option<Expr>): Stmt { ReturnStmt(val) }

  const Break: Stmt := BreakStmt
  const Continue: Stmt := ContinueStmt

  /** `newLineAfter`: a blank line follows an `if` and a non-empty block. */
  predicate NewLineAfter(s: Stmt)
  {
    match s
    case AssignStmt(_, _, _) => false
    case BlockStmt(stmts) => |stmts| > 0
    case BreakStmt => false
    case ContinueStmt => false
    case IfStmt(_, _, _, _) => true
    case ReturnStmt(_) => false
  }

  // ---------------------------------------------------------------------------
  // The `write` methods.

  /** `write` of each statement. */
  function StmtCmds(s: Stmt): seq<Cmd>
    decreases s, 2
  {
    match s
    case AssignStmt(op, dest, src) => ExprListCmds(dest) + [Space, Str(op), Space] + ExprListCmds(src)
    case BlockStmt(stmts) => BlockCmds(stmts)
    case BreakStmt => [Str("break")]
    case ContinueStmt => [Str("continue")]
    case IfStmt(init, cond, tstmt, estmt) =>
      [Str("if ")] +
      (if init.Some? then StmtCmds(init.value) + [Str("; ")] else []) +
      (if cond.Some? then ExprCmds(cond.value) + [Space] else []) +
      BlockCmds(tstmt) +
      (if estmt.Some? then [Str(" else ")] + StmtCmds(estmt.value) else [])
    case ReturnStmt(val) => [Str("return")] + (if val.Some? then [Space] + ExprCmds(val.value) else [])
  }

  /** `BlockStmt.write`: "{", and for a non-empty block a newline and the indented lines, then "}". */
  function BlockCmds(stmts: seq<Stmt>): seq<Cmd>
    decreases stmts, 1
  {
    [Byte('{')] + (if |stmts| > 0 then [Newline, Indented(BlockLinesCmds(stmts))] else []) + [Byte('}')]
  }

  /**
    The loop of `BlockStmt.write`: each statement then a newline, with one
    more newline first when the previous statement's `newLineAfter` holds.
   */
  function BlockLinesCmds(stmts: seq<Stmt>): seq<Cmd>
    decreases stmts, 0
  {
    if |stmts| == 0 then []
    else
      BlockLinesCmds(stmts[..|stmts| - 1]) +
      (if |stmts| > 1 && NewLineAfter(stmts[|stmts| - 2]) then [Newline] else []) +
      StmtCmds(stmts[|stmts| - 1]) + [Newline]
  }
}
