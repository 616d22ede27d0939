/**
  What the `simple` predicates of the golang/ catalogue mean for layout.

  A node is written inline or as an indented block according to `simple`.
  The lemmas here prove that `simple` never lets a block through: a node that
  is not simple is always written with an indented block, so every node that
  is written without one is simple.  The converse does not hold, and the last
  two lemmas show why: `BlockStmt.simpleStmt` looks only at the first
  statement (golang/stmt.go:65-67), and a symbol is simple whatever its
  generic arguments are (golang/expr.go:308).
 */
module GolangLayout {
  import opened Wrappers
  import opened CodeWriter
  import opened GolangBase
  import opened Tables
  import opened Golang

  /** A block opener `[Newline, Indented(...)]` is not flat. */
  lemma BlockOpener(body: seq<Cmd>)
    ensures !Flat([Newline, Indented(body)])
  {
    assert [Newline, Indented(body)][1].Indented?;
  }

  // ---------------------------------------------------------------------------
  // Expressions (golang/expr.go)

  /** An expression that is not simple is written with an indented block. */
  lemma {:induction false} ExprIndents(e: Expr)
    requires !SimpleExpr(e)
    ensures !Flat(ExprCmds(e))
    decreases e, 2
  {
    match e
    case StructExpr(typ, fields) =>
      BlockOpener(FieldValuesCmds(fields));
      Flat4(if typ.Some? then TypeCmds(typ.value) else [], [Byte('{')],
            [Newline, Indented(FieldValuesCmds(fields))], [Byte('}')]);
    case MapExpr(typ, values) =>
      BlockOpener(MapValuesCmds(values));
      Flat4(if typ.Some? then TypeCmds(typ.value) else [], [Byte('{')],
            [Newline, Indented(MapValuesCmds(values))], [Byte('}')]);
    case FuncExpr(params, ret, body) =>
      BlockIndents(body);
      Flat5([Str("func ")], ParamsCmds(params), ReturnCmds(ret), [Space], BlockCmds(body));
    case MemberExpr(x, id) =>
      ExprIndents(x);
      Flat3(ExprCmds(x), [Byte('.')], IDCmds(id));
    case CallExpr(f, args) =>
      if !SimpleExpr(f) {
        ExprIndents(f);
      } else {
        ArgsIndent(args);
      }
      FlatAppend(ExprCmds(f), ArgsCmds(args));
    case UnaryExpr(op, x) =>
      ExprIndents(x);
      FlatAppend([Str(op)], ExprCmds(x));
    case BinaryExpr(op, l, r) =>
      if !SimpleExpr(l) {
        ExprIndents(l);
      } else {
        ExprIndents(r);
      }
      Flat3(ExprCmds(l), [Space, Str(op), Space], ExprCmds(r));
  }

  /** Arguments that are not all simple are written one per line, in an indented block. */
  lemma ArgsIndent(args: seq<Expr>)
    requires !SimpleExprs(args)
    ensures !Flat(ArgsCmds(args))
  {
    BlockOpener(ArgLinesCmds(args));
    Flat3([Byte('(')], [Newline, Indented(ArgLinesCmds(args))], [Byte(')')]);
  }

  /** A list with an expression that is not simple is written with an indented block. */
  lemma {:induction false} ExprsIndent(es: seq<Expr>)
    requires !SimpleExprs(es)
    ensures !Flat(ExprsCmds(es))
    decreases es, 0
  {
    var n := |es|;
    var init := es[..n - 1];
    var sep: seq<Cmd> := if n > 1 then [Str(", ")] else [];
    if SimpleExpr(es[n - 1]) {
      assert !SimpleExprs(init) by {
        var i :| 0 <= i < n && !SimpleExpr(es[i]);
        assert init[i] == es[i];
      }
      ExprsIndent(init);
    } else {
      ExprIndents(es[n - 1]);
    }
    Flat3(ExprsCmds(init), sep, ExprCmds(es[n - 1]));
  }

  // ---------------------------------------------------------------------------
  // Types (golang/type.go)

  /** A type that is not simple is written with an indented block. */
  lemma {:induction false} TypeIndents(t: Type)
    requires !SimpleType(t)
    ensures !Flat(TypeCmds(t))
    decreases t, 2
  {
    match t
    case NamedType(pkg, id, args) =>
      TypesIndent(args);
      Flat3([Byte('[')], TypeListCmds(args), [Byte(']')]);
      Flat3(if pkg != "" then [Str(pkg), Byte('.')] else [], IDCmds(id), GenArgsCmds(args));
    case PtrType(target) =>
      TypeIndents(target);
      FlatAppend([Byte('*')], TypeCmds(target));
    case SliceType(len, item) =>
      if len.Some? && !SimpleExpr(len.value) {
        ExprIndents(len.value);
      } else {
        TypeIndents(item);
      }
      Flat4([Byte('[')], if len.Some? then ExprCmds(len.value) else [], [Byte(']')], TypeCmds(item));
    case MapType(k, v) =>
      if !SimpleType(k) {
        TypeIndents(k);
      } else {
        TypeIndents(v);
      }
      Flat4([Str("map[")], TypeCmds(k), [Byte(']')], TypeCmds(v));
    case StructType(fields) =>
      BlockOpener(Tabulate(FieldRows(fields)));
      Flat3([Str("struct {")], [Newline, Indented(Tabulate(FieldRows(fields)))], [Byte('}')]);
    case InterfaceType(consts, funcs) =>
      var body := TypeConstsCmds(consts) + (if |consts| > 0 && |funcs| > 0 then [Newline] else []) +
                  InterfaceFuncsCmds(funcs);
      BlockOpener(body);
      Flat3([Str("interface {")], [Newline, Indented(body)], [Byte('}')]);
    case FuncType(params, ret) =>
      if !SimpleParams(params) {
        ParamsIndent(params);
      } else {
        ReturnIndents(ret);
      }
      Flat3([Str("func")], ParamsCmds(params), ReturnCmds(ret));
  }

  /** A list with a type that is not simple is written with an indented block. */
  lemma {:induction false} TypesIndent(ts: seq<Type>)
    requires !SimpleTypes(ts)
    ensures !Flat(TypeListCmds(ts))
    decreases ts, 0
  {
    var n := |ts|;
    var init := ts[..n - 1];
    var sep: seq<Cmd> := if n > 1 then [Str(", ")] else [];
    if SimpleType(ts[n - 1]) {
      assert !SimpleTypes(init) by {
        var i :| 0 <= i < n && !SimpleType(ts[i]);
        assert init[i] == ts[i];
      }
      TypesIndent(init);
    } else {
      TypeIndents(ts[n - 1]);
    }
    Flat3(TypeListCmds(init), sep, TypeCmds(ts[n - 1]));
  }

  lemma ParamIndents(p: Param)
    requires !SimpleType(p.typ)
    ensures !Flat(ParamCmds(p))
    decreases p, 2
  {
    TypeIndents(p.typ);
    Flat4(IDCmds(p.id), if p.variadic then [Str("...")] else [], [Space], TypeCmds(p.typ));
  }

  /** Parameters whose types are not all simple are written with an indented block. */
  lemma {:induction false} ParamListIndents(ps: seq<Param>)
    requires !SimpleParams(ps)
    ensures !Flat(ParamListCmds(ps))
    decreases ps, 0
  {
    var n := |ps|;
    var init := ps[..n - 1];
    var sep: seq<Cmd> := if n > 1 then [Str(", ")] else [];
    var i :| 0 <= i < n && !SimpleType(ps[i].typ);
    if i < n - 1 {
      assert init[i] == ps[i];
      ParamListIndents(init);
    } else {
      ParamIndents(ps[n - 1]);
    }
    assert ParamListCmds(ps) == ParamListCmds(init) + sep + ParamCmds(ps[n - 1]);
    Flat3(ParamListCmds(init), sep, ParamCmds(ps[n - 1]));
  }

  lemma ParamsIndent(ps: seq<Param>)
    requires !SimpleParams(ps)
    ensures !Flat(ParamsCmds(ps))
    decreases ps, 1
  {
    ParamListIndents(ps);
    Flat3([Byte('(')], ParamListCmds(ps), [Byte(')')]);
  }

  lemma ReturnIndents(ps: seq<Param>)
    requires !SimpleParams(ps)
    ensures !Flat(ReturnCmds(ps))
    decreases ps, 1
  {
    if |ps| == 1 && ps[0].id == "" {
      TypeIndents(ps[0].typ);
      FlatAppend([Space], TypeCmds(ps[0].typ));
    } else {
      ParamListIndents(ps);
      Flat3([Space, Byte('(')], ParamListCmds(ps), [Byte(')')]);
    }
  }

  // ---------------------------------------------------------------------------
  // Statements (golang/stmt.go)

  /** A statement that is not simple is written with an indented block. */
  lemma {:induction false} StmtIndents(s: Stmt)
    requires !SimpleStmt(s)
    ensures !Flat(StmtCmds(s))
    decreases s, 2
  {
    match s
    case AssignStmt(a) => AssignIndents(a);
    case BlockStmt(stmts) => BlockIndents(stmts);
    case ExprStmt(e) => ExprIndents(e);
    case IfStmt(i) => IfIndents(i);
    case ReturnStmt(v) =>
      ExprIndents(v.value);
      FlatAppend([Space], ExprCmds(v.value));
      FlatAppend([Str("return")], [Space] + ExprCmds(v.value));
    case DeclStmt(d) => LocalDeclIndents(d);
  }

  lemma AssignIndents(a: Assignment)
    requires !SimpleAssign(a)
    ensures !Flat(AssignCmds(a))
    decreases a, 2
  {
    if !SimpleExprs(a.dest) {
      ExprsIndent(a.dest);
    } else {
      ExprsIndent(a.src);
    }
    Flat3(ExprsCmds(a.dest), [Space, Str(a.op), Space], ExprsCmds(a.src));
  }

  /** A block that is not simple (its first statement is not) is written as an indented block. */
  lemma BlockIndents(stmts: seq<Stmt>)
    requires !SimpleBlock(stmts)
    ensures !Flat(BlockCmds(stmts))
    decreases stmts, 2
  {
    BlockOpener(BlockLinesCmds(stmts));
    Flat3([Byte('{')], [Newline, Indented(BlockLinesCmds(stmts))], [Byte('}')]);
  }

  lemma {:induction false} IfIndents(i: If)
    requires !SimpleIf(i)
    ensures !Flat(IfCmds(i))
    decreases i, 2
  {
    var init: seq<Cmd> := if i.init.Some? then AssignCmds(i.init.value) + [Str("; ")] else [];
    var els: seq<Cmd> := if i.els.Some? then [Str(" else ")] + ElseCmds(i.els.value) else [];
    if i.init.Some? && !SimpleAssign(i.init.value) {
      AssignIndents(i.init.value);
      FlatAppend(AssignCmds(i.init.value), [Str("; ")]);
    } else if !SimpleExpr(i.cond) {
      ExprIndents(i.cond);
    } else if !SimpleBlock(i.body) {
      BlockIndents(i.body);
    } else {
      ElseIndents(i.els.value);
      FlatAppend([Str(" else ")], ElseCmds(i.els.value));
    }
    Flat6([Str("if ")], init, ExprCmds(i.cond), [Space], BlockCmds(i.body), els);
  }

  lemma {:induction false} ElseIndents(e: Else)
    requires !SimpleElse(e)
    ensures !Flat(ElseCmds(e))
    decreases e, 2
  {
    match e
    case ElseBlock(stmts) => BlockIndents(stmts);
    case ElseIf(i) => IfIndents(i);
  }

  // ---------------------------------------------------------------------------
  // Declarations (golang/decl.go)

  /** A declaration group that is not simple is written with an indented block. */
  lemma {:induction false} LocalDeclIndents(d: LocalDecl)
    requires !SimpleLocalDecl(d)
    ensures !Flat(LocalDeclCmds(d))
    decreases d, 2
  {
    match d
    case TypeDecls(types) =>
      if |types| == 1 {
        TypeDeclIndents(types[0]);
        Flat3(CommentCmds(types[0].doc), [Str("type ")], TypeDeclCmds(types[0]));
      } else {
        assert LocalDeclCmds(d)[2].Indented?;
      }
    case FuncDecl(f) => FuncIndents(f);
    case VarDecls(vars) => VarsIndent("var", vars);
    case ConstDecls(consts) => VarsIndent("const", consts);
  }

  lemma TypeDeclIndents(t: TypeDecl)
    requires !SimpleType(t.typ)
    ensures !Flat(TypeDeclCmds(t))
    decreases t, 2
  {
    TypeIndents(t.typ);
    Flat4(IDCmds(t.id), GenParamsCmds(t.params), [Space], TypeCmds(t.typ));
  }

  lemma FuncIndents(f: Func)
    requires !SimpleLocalDecl(FuncDecl(f))
    ensures !Flat(FuncCmds(f))
    decreases f, 2
  {
    if f.rcv.Some? && !SimpleType(f.rcv.value.typ) {
      ParamIndents(f.rcv.value);
      Flat3([Byte('(')], ParamCmds(f.rcv.value), [Str(") ")]);
    } else if !SimpleParams(f.params) {
      ParamsIndent(f.params);
    } else if !SimpleParams(f.ret) {
      ReturnIndents(f.ret);
    } else {
      BlockIndents(f.body);
    }
    var head := CommentCmds(f.doc) + [Str("func ")] + ReceiverCmds(f.rcv) + IDCmds(f.id) +
                GenParamsCmds(f.genParams) + ParamsCmds(f.params) + ReturnCmds(f.ret) + [Space];
    Flat8(CommentCmds(f.doc), [Str("func ")], ReceiverCmds(f.rcv), IDCmds(f.id),
          GenParamsCmds(f.genParams), ParamsCmds(f.params), ReturnCmds(f.ret), [Space]);
    FlatAppend(head, BlockCmds(f.body));
  }

  lemma VarsIndent(kw: string, vars: seq<VarDecl>)
    requires !(|vars| == 0 || (|vars| == 1 && SimpleVarDecl(vars[0])))
    ensures !Flat(VarsCmds(kw, vars))
    decreases vars, 2
  {
    if |vars| == 1 {
      var v := vars[0];
      var value: seq<Cmd> := if v.value.Some? then [Str(" = ")] + ExprCmds(v.value.value) else [];
      if !SimpleType(v.typ) {
        TypeIndents(v.typ);
      } else {
        ExprIndents(v.value.value);
        FlatAppend([Str(" = ")], ExprCmds(v.value.value));
      }
      Flat6(CommentCmds(v.doc), [Str(kw + " ")], IDCmds(v.id), [Space], TypeCmds(v.typ), value);
    } else {
      assert VarsCmds(kw, vars)[2].Indented?;
    }
  }

  /** Every declaration but a comment: not simple means written with an indented block. */
  lemma DeclIndents(d: Decl)
    requires !d.CommentDecl? && !SimpleDecl(d)
    ensures !Flat(DeclCmds(d))
  {
    match d
    case ImportDecls(imports) =>
      assert DeclCmds(d)[2].Indented?;
    case Local(l) => LocalDeclIndents(l);
  }

  // ---------------------------------------------------------------------------
  // Where `simple` does not mean inline.

  /**
    `BlockStmt.simpleStmt` looks at the first statement only: a block of two
    simple statements is simple, yet it is written as an indented block, and
    so is a function literal with that body.
   */
  lemma SimpleBlockOfTwo()
    ensures var stmts := [BreakStmt, ContinueStmt];
      SimpleBlock(stmts) && !Flat(BlockCmds(stmts)) &&
      SimpleExpr(FuncExpr([], [], stmts)) && !Flat(ExprCmds(FuncExpr([], [], stmts)))
  {
    var stmts := [BreakStmt, ContinueStmt];
    BlockOpener(BlockLinesCmds(stmts));
    Flat3([Byte('{')], [Newline, Indented(BlockLinesCmds(stmts))], [Byte('}')]);
    Flat5([Str("func ")], ParamsCmds([]), ReturnCmds([]), [Space], BlockCmds(stmts));
  }

  /**
    A symbol is simple whatever its generic arguments: one instantiated with a
    struct type that has fields is simple, yet written with an indented block.
   */
  lemma SimpleSymbolWithStructArg()
    ensures var arg := StructType([Field("", "X", IntType, [])]);
      var e := SymbolExpr("List", "", [arg]);
      SimpleExpr(e) && !SimpleType(arg) && !Flat(ExprCmds(e))
  {
    var arg := StructType([Field("", "X", IntType, [])]);
    assert !SimpleTypes([arg]);
    TypesIndent([arg]);
    Flat3([Byte('[')], TypeListCmds([arg]), [Byte(']')]);
    Flat3([], IDCmds("List"), GenArgsCmds([arg]));
  }
}
