/**
  The text the statement writers of the go/ rewrite produce.
 */
module GoStmtText {
  import opened Wrappers
  import opened Text
  import opened CodeWriter
  import opened GoAst
  import opened GoAstText
  import opened GoStmt

  /** Line i of a block: a blank line when statement i - 1's `newLineAfter` holds, the statement, a newline. */
  function LineText(stmts: seq<Stmt>, i: nat): string
    requires i < |stmts|
  {
    (if i > 0 && NewLineAfter(stmts[i - 1]) then "\n" else "") + Plain(StmtCmds(stmts[i])) + "\n"
  }

  function LineTexts(stmts: seq<Stmt>): (r: seq<string>)
  {
    seq(|stmts|, i requires 0 <= i < |stmts| => LineText(stmts, i))
  }

  /** The loop of `BlockStmt.write` writes the lines of `LineTexts`, one after the other. */
  lemma {:induction false} BlockLinesText(stmts: seq<Stmt>)
    ensures Plain(BlockLinesCmds(stmts)) == Concat(LineTexts(stmts))
    decreases |stmts|
  {
    if |stmts| > 0 {
      var i := |stmts| - 1;
      var t := LineTexts(stmts);
      var tail := LastLineCmds(stmts);
      BlockLinesText(stmts[..i]);
      LineTextsPrefix(stmts);
      PlainAppend(BlockLinesCmds(stmts[..i]), tail);
      assert Concat(t) == Concat(t[..i]) + t[i];
    }
  }

  /** What the loop writes for the last statement of a non-empty block. */
  function LastLineCmds(stmts: seq<Stmt>): (tail: seq<Cmd>)
    requires |stmts| > 0
    ensures BlockLinesCmds(stmts) == BlockLinesCmds(stmts[..|stmts| - 1]) + tail
    ensures Plain(tail) == LineText(stmts, |stmts| - 1)
  {
    var i := |stmts| - 1;
    var blank := i > 0 && NewLineAfter(stmts[i - 1]);
    var gap: seq<Cmd> := if blank then [Newline] else [];
    var body := StmtCmds(stmts[i]);
    Plain3(gap, body, [Newline]);
    PlainOne(Newline);
    assert Plain(gap) == if blank then "\n" else "";
    var prev := BlockLinesCmds(stmts[..i]);
    assert BlockLinesCmds(stmts) == prev + gap + body + [Newline];
    assert prev + gap + body + [Newline] == prev + (gap + body + [Newline]);
    gap + body + [Newline]
  }

  lemma LineTextsPrefix(stmts: seq<Stmt>)
    requires |stmts| > 0
    ensures LineTexts(stmts[..|stmts| - 1]) == LineTexts(stmts)[..|stmts| - 1]
  {
    var i := |stmts| - 1;
    var init := stmts[..i];
    forall k | 0 <= k < i ensures LineTexts(init)[k] == LineTexts(stmts)[k] {
      assert init[k] == stmts[k];
      if k > 0 {
        assert init[k - 1] == stmts[k - 1];
      }
    }
  }

  /** `BlockStmt.write`: "{}" when empty, else "{", a newline, the lines (indented), "}". */
  lemma BlockText(stmts: seq<Stmt>)
    ensures |stmts| == 0 ==> Plain(BlockCmds(stmts)) == "{}"
    ensures |stmts| > 0 ==> Plain(BlockCmds(stmts)) == "{" + ("\n" + Concat(LineTexts(stmts))) + "}"
  {
    var mid: seq<Cmd> := if |stmts| > 0 then [Newline, Indented(BlockLinesCmds(stmts))] else [];
    assert BlockCmds(stmts) == [Byte('{')] + mid + [Byte('}')];
    PlainWrap('{', mid, '}');
    if |stmts| > 0 {
      PlainBlock(BlockLinesCmds(stmts));
      BlockLinesText(stmts);
    }
  }

  /** A block's lines are written one level deeper, and the depth is restored after the block. */
  lemma BlockDepth(st: State, stmts: seq<Stmt>)
    ensures Exec(st, BlockCmds(stmts)).depth == st.depth
  {
    ExecKeepsDepth(st, BlockCmds(stmts));
  }

  /** `AssignStmt.write`: destinations joined by ", ", " op ", sources joined by ", ". */
  lemma AssignText(op: string, dest: seq<Expr>, src: seq<Expr>)
    ensures Plain(StmtCmds(AssignStmt(op, dest, src))) ==
      Join(ExprTexts(dest), ", ") + " " + op + " " + Join(ExprTexts(src), ", ")
  {
    assert StmtCmds(AssignStmt(op, dest, src)) == ExprListCmds(dest) + [Space, Str(op), Space] + ExprListCmds(src);
    PlainInfix(ExprListCmds(dest), op, ExprListCmds(src));
    ExprListText(dest);
    ExprListText(src);
  }

  /** A compound assignment writes its one destination, " op ", its one source. */
  lemma CompoundText(op: string, dest: Expr, src: Expr)
    ensures Plain(StmtCmds(CompoundAssign(op, dest, src))) ==
      Plain(ExprCmds(dest)) + " " + op + " " + Plain(ExprCmds(src))
  {
    AssignText(op, [dest], [src]);
    assert ExprTexts([dest]) == [Plain(ExprCmds(dest))];
    assert ExprTexts([src]) == [Plain(ExprCmds(src))];
  }

  /** Each compound-assignment constructor wraps its operands in one-element lists, with its own operator. */
  lemma CompoundConstructors(d: Expr, s: Expr)
    ensures AddAssign(d, s) == AssignStmt("+=", [d], [s])
    ensures SubAssign(d, s) == AssignStmt("-=", [d], [s])
    ensures MulAssign(d, s) == AssignStmt("*=", [d], [s])
    ensures DivAssign(d, s) == AssignStmt("/=", [d], [s])
    ensures ModAssign(d, s) == AssignStmt("%=", [d], [s])
    ensures AndAssign(d, s) == AssignStmt("&=", [d], [s])
    ensures OrAssign(d, s) == AssignStmt("|=", [d], [s])
    ensures XorAssign(d, s) == AssignStmt("^=", [d], [s])
    ensures ShiftLeftAssign(d, s) == AssignStmt("<<=", [d], [s])
    ensures ShiftRightAssign(d, s) == AssignStmt(">>=", [d], [s])
  {
  }

  /**
    `IfStmt.write`: "if ", "init; " when there is an init, "cond " when there
    is a condition, the then-block, and " else " + else when there is one.
   */
  lemma IfText(init: Option<Stmt>, cond: Option<Expr>, tstmt: seq<Stmt>, estmt: Option<Stmt>)
    ensures Plain(StmtCmds(IfStmt(init, cond, tstmt, estmt))) ==
      "if " +
      (if init.Some? then Plain(StmtCmds(init.value)) + "; " else "") +
      (if cond.Some? then Plain(ExprCmds(cond.value)) + " " else "") +
      Plain(BlockCmds(tstmt)) +
      (if estmt.Some? then " else " + Plain(StmtCmds(estmt.value)) else "")
  {
    var i: seq<Cmd> := if init.Some? then StmtCmds(init.value) + [Str("; ")] else [];
    var c: seq<Cmd> := if cond.Some? then ExprCmds(cond.value) + [Space] else [];
    var e: seq<Cmd> := if estmt.Some? then [Str(" else ")] + StmtCmds(estmt.value) else [];
    assert StmtCmds(IfStmt(init, cond, tstmt, estmt)) == [Str("if ")] + i + c + BlockCmds(tstmt) + e;
    PlainAppend([Str("if ")] + i + c + BlockCmds(tstmt), e);
    Plain4([Str("if ")], i, c, BlockCmds(tstmt));
    PlainOne(Str("if "));
    if init.Some? {
      PlainAppend(StmtCmds(init.value), [Str("; ")]);
      PlainOne(Str("; "));
    }
    if cond.Some? {
      PlainAppend(ExprCmds(cond.value), [Space]);
      PlainOne(Space);
    }
    if estmt.Some? {
      PlainPrefix(" else ", StmtCmds(estmt.value));
    }
  }

  /** An `if` built by `If` never writes an init, whatever init it was given. */
  lemma IfConstructorText(init: Option<Stmt>, cond: Option<Expr>, tstmt: seq<Stmt>, estmt: Option<Stmt>)
    requires IsInit(init) && IsElse(estmt)
    ensures Plain(StmtCmds(If(init, cond, tstmt, estmt))) ==
      "if " +
      (if cond.Some? then Plain(ExprCmds(cond.value)) + " " else "") +
      Plain(BlockCmds(tstmt)) +
      (if estmt.Some? then " else " + Plain(StmtCmds(estmt.value)) else "")
  {
    IfText(None, cond, tstmt, estmt);
  }

  /** `ReturnStmt.write`: "return", then " value" only when there is a value. */
  lemma ReturnText(val: Option<Expr>)
    ensures val.None? ==> Plain(StmtCmds(Return(val))) == "return"
    ensures val.Some? ==> Plain(StmtCmds(Return(val))) == "return " + Plain(ExprCmds(val.value))
  {
    var v: seq<Cmd> := if val.Some? then [Space] + ExprCmds(val.value) else [];
    assert StmtCmds(Return(val)) == [Str("return")] + v;
    PlainPrefix("return", v);
    if val.Some? {
      PlainAppend([Space], ExprCmds(val.value));
      PlainOne(Space);
    }
  }

  /** `Break` and `Continue` write their keyword. */
  lemma KeywordStmtText()
    ensures Plain(StmtCmds(Break)) == "break"
    ensures Plain(StmtCmds(Continue)) == "continue"
  {
    PlainOne(Str("break"));
    PlainOne(Str("continue"));
  }
}
