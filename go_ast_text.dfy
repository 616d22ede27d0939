/**
  The text the expression and type writers of the go/ rewrite produce, and
  the fact that none of them opens an indented block.
 */
module GoAstText {
  import opened Wrappers
  import opened Text
  import opened CodeWriter
  import opened Strconv
  import opened GoAst

  /** The text of each expression of a list. */
  function ExprTexts(es: seq<Expr>): (r: seq<string>)
  {
    seq(|es|, i requires 0 <= i < |es| => Plain(ExprCmds(es[i])))
  }

  /** The text of each type of a list. */
  function TypeTexts(ts: seq<Type>): (r: seq<string>)
  {
    seq(|ts|, i requires 0 <= i < |ts| => Plain(TypeCmds(ts[i])))
  }

  /** The text of generic arguments: "" when there are none, else "[a, b]". */
  function ArgsText(args: seq<Type>): string
  {
    if |args| > 0 then "[" + Join(TypeTexts(args), ", ") + "]" else ""
  }

  // ---------------------------------------------------------------------------
  // Lists and names.

  /** The loop over call arguments writes them joined by ", ". */
  lemma {:induction false} ExprListText(es: seq<Expr>)
    ensures Plain(ExprListCmds(es)) == Join(ExprTexts(es), ", ")
    decreases |es|
  {
    if |es| > 0 {
      var init := es[..|es| - 1];
      ExprListText(init);
      assert ExprTexts(es)[..|es| - 1] == ExprTexts(init);
      PlainJoinStep(ExprListCmds(init), ", ", ExprCmds(es[|es| - 1]), ExprTexts(es));
    }
  }

  /** The loop over generic arguments writes them joined by ", ". */
  lemma {:induction false} TypeListText(ts: seq<Type>)
    ensures Plain(TypeListCmds(ts)) == Join(TypeTexts(ts), ", ")
    decreases |ts|
  {
    if |ts| > 0 {
      var init := ts[..|ts| - 1];
      TypeListText(init);
      assert TypeTexts(ts)[..|ts| - 1] == TypeTexts(init);
      PlainJoinStep(TypeListCmds(init), ", ", TypeCmds(ts[|ts| - 1]), TypeTexts(ts));
    }
  }

  /** Generic arguments: nothing when there are none, else "[a, b]". */
  lemma TypeArgsText(args: seq<Type>)
    ensures |args| == 0 ==> TypeArgsCmds(args) == []
    ensures Plain(TypeArgsCmds(args)) == ArgsText(args)
  {
    if |args| > 0 {
      TypeListText(args);
      PlainWrap('[', TypeListCmds(args), ']');
    }
  }

  /** "pkg." only when the package is not empty, then the identifier. */
  lemma QualifiedText(pkg: string, id: string)
    ensures pkg == "" ==> Plain(QualifiedCmds(pkg, id)) == id
    ensures pkg != "" ==> Plain(QualifiedCmds(pkg, id)) == pkg + "." + id
  {
    PlainAppend(if pkg != "" then [Str(pkg), Byte('.')] else [], [Str(id)]);
    PlainTwo(Str(pkg), Byte('.'));
    PlainOne(Str(pkg));
    PlainOne(Byte('.'));
    PlainOne(Str(id));
  }

  /** `"pkg." + id + "[a, b]"`, each part only when present. */
  lemma QualifiedArgsText(pkg: string, id: string, args: seq<Type>)
    ensures pkg == "" ==> Plain(QualifiedCmds(pkg, id) + TypeArgsCmds(args)) == id + ArgsText(args)
    ensures pkg != "" ==> Plain(QualifiedCmds(pkg, id) + TypeArgsCmds(args)) == pkg + "." + id + ArgsText(args)
  {
    PlainAppend(QualifiedCmds(pkg, id), TypeArgsCmds(args));
    QualifiedText(pkg, id);
    TypeArgsText(args);
  }

  // ---------------------------------------------------------------------------
  // go/expr.go

  /** A call list of one string writes that string. */
  lemma StrText(cmds: seq<Cmd>, t: string)
    requires cmds == [Str(t)]
    ensures Plain(cmds) == t
  {
    PlainOne(Str(t));
  }

  /** `NilExpr` writes "nil" and `LitBoolExpr` writes "true" or "false". */
  lemma KeywordText(b: bool)
    ensures Plain(ExprCmds(Nil)) == "nil"
    ensures Plain(ExprCmds(LitBool(b))) == (if b then "true" else "false")
    ensures Plain(ExprCmds(True)) == "true" && Plain(ExprCmds(False)) == "false"
  {
    StrText(ExprCmds(Nil), "nil");
    StrText(ExprCmds(LitBool(b)), if b then "true" else "false");
    StrText(ExprCmds(True), "true");
    StrText(ExprCmds(False), "false");
  }

  /** A literal is written as the text its formatting function gives. */
  lemma LiteralText(e: Expr)
    ensures e.LitRuneExpr? ==> Plain(ExprCmds(e)) == QuoteRune(e.r)
    ensures e.LitIntExpr? ==> Plain(ExprCmds(e)) == FormatInt(e.i)
    ensures e.LitUintExpr? ==> Plain(ExprCmds(e)) == Decimal(e.u)
    ensures e.LitFloatExpr? ==> Plain(ExprCmds(e)) == e.formatted
    ensures e.LitStringExpr? ==> Plain(ExprCmds(e)) == Quote(e.s)
  {
    match e
    case LitRuneExpr(r) => StrText(ExprCmds(e), QuoteRune(r));
    case LitIntExpr(i) => StrText(ExprCmds(e), FormatInt(i));
    case LitUintExpr(u) => StrText(ExprCmds(e), Decimal(u));
    case LitFloatExpr(f) => StrText(ExprCmds(e), f);
    case LitStringExpr(s) => StrText(ExprCmds(e), Quote(s));
    case _ =>
  }

  /** `RangeExpr` writes the lower bound if present, ':', then the upper bound if present. */
  lemma RangeText(low: Option<Expr>, upp: Option<Expr>)
    ensures Plain(ExprCmds(Range(low, upp))) ==
      (if low.Some? then Plain(ExprCmds(low.value)) else "") + ":" +
      (if upp.Some? then Plain(ExprCmds(upp.value)) else "")
  {
    var l := if low.Some? then ExprCmds(low.value) else [];
    var u := if upp.Some? then ExprCmds(upp.value) else [];
    assert ExprCmds(Range(low, upp)) == l + [Byte(':')] + u;
    Plain3(l, [Byte(':')], u);
    PlainOne(Byte(':'));
  }

  /** `SymbolExpr` writes "pkg." only for a package, and "[a, b]" only for generic arguments. */
  lemma SymbolText(pkg: string, id: string, args: seq<Type>)
    ensures pkg == "" ==> Plain(ExprCmds(SymbolExpr(pkg, id, args))) == id + ArgsText(args)
    ensures pkg != "" ==> Plain(ExprCmds(SymbolExpr(pkg, id, args))) == pkg + "." + id + ArgsText(args)
  {
    assert ExprCmds(SymbolExpr(pkg, id, args)) == QualifiedCmds(pkg, id) + TypeArgsCmds(args);
    QualifiedArgsText(pkg, id, args);
  }

  /** A symbol built by `Symbol` never has a package: it is written as the bare identifier and its arguments. */
  lemma SymbolConstructorText(id: string, args: seq<Type>)
    ensures Symbol(id, args).pkg == ""
    ensures Plain(ExprCmds(Symbol(id, args))) == id + ArgsText(args)
  {
    assert Symbol(id, args) == SymbolExpr("", id, args);
    SymbolText("", id, args);
  }

  /** `ParenExpr` writes "(" e ")". */
  lemma ParenText(x: Expr)
    ensures Plain(ExprCmds(Paren(x))) == "(" + Plain(ExprCmds(x)) + ")"
  {
    PlainWrap('(', ExprCmds(x), ')');
  }

  /** `MemberExpr` writes e "." id. */
  lemma MemberText(x: Expr, id: string)
    ensures Plain(ExprCmds(Member(x, id))) == Plain(ExprCmds(x)) + "." + id
  {
    PlainAppend(ExprCmds(x), [Byte('.'), Str(id)]);
    PlainTwo(Byte('.'), Str(id));
    PlainOne(Byte('.'));
    PlainOne(Str(id));
  }

  /** `IndexExpr` writes e "[" i "]". */
  lemma IndexText(x: Expr, idx: Expr)
    ensures Plain(ExprCmds(Index(x, idx))) == Plain(ExprCmds(x)) + "[" + Plain(ExprCmds(idx)) + "]"
  {
    Plain4(ExprCmds(x), [Byte('[')], ExprCmds(idx), [Byte(']')]);
    PlainOne(Byte('['));
    PlainOne(Byte(']'));
  }

  /** `CallExpr` is always inline: the callee, "(", the arguments joined by ", ", ")". */
  lemma CallText(callee: Expr, args: seq<Expr>)
    ensures Plain(ExprCmds(Call(callee, args))) ==
      Plain(ExprCmds(callee)) + "(" + Join(ExprTexts(args), ", ") + ")"
  {
    Plain4(ExprCmds(callee), [Byte('(')], ExprListCmds(args), [Byte(')')]);
    PlainOne(Byte('('));
    PlainOne(Byte(')'));
    ExprListText(args);
  }

  /** `UnaryExpr` writes its operator immediately followed by its operand. */
  lemma UnaryText(op: string, x: Expr)
    ensures Plain(ExprCmds(UnaryExpr(op, x))) == op + Plain(ExprCmds(x))
  {
    PlainPrefix(op, ExprCmds(x));
  }

  /** The six unary constructors write "+", "-", "!", "^", "&" and "*" before their operand. */
  lemma UnaryConstructorsText(x: Expr)
    ensures Plain(ExprCmds(Identity(x))) == "+" + Plain(ExprCmds(x))
    ensures Plain(ExprCmds(Negate(x))) == "-" + Plain(ExprCmds(x))
    ensures Plain(ExprCmds(Not(x))) == "!" + Plain(ExprCmds(x))
    ensures Plain(ExprCmds(Compl(x))) == "^" + Plain(ExprCmds(x))
    ensures Plain(ExprCmds(AddrOf(x))) == "&" + Plain(ExprCmds(x))
    ensures Plain(ExprCmds(Indirect(x))) == "*" + Plain(ExprCmds(x))
  {
    UnaryText(IdentityOp, x);
    UnaryText(NegateOp, x);
    UnaryText(NotOp, x);
    UnaryText(ComplOp, x);
    UnaryText(AddrOp, x);
    UnaryText(IndirOp, x);
  }

  // ---------------------------------------------------------------------------
  // go/type.go

  /** `NamedType` writes "pkg." only for a package, and "[a, b]" only for generic arguments. */
  lemma NamedText(pkg: string, id: string, args: seq<Type>)
    ensures pkg == "" ==> Plain(TypeCmds(NamedType(pkg, id, args))) == id + ArgsText(args)
    ensures pkg != "" ==> Plain(TypeCmds(NamedType(pkg, id, args))) == pkg + "." + id + ArgsText(args)
  {
    assert TypeCmds(NamedType(pkg, id, args)) == QualifiedCmds(pkg, id) + TypeArgsCmds(args);
    QualifiedArgsText(pkg, id, args);
  }

  /** A type built by `Named`, and each predeclared type, is written without a package. */
  lemma NamedConstructorText(id: string, args: seq<Type>, k: nat)
    requires k < |PredeclaredIds|
    ensures Named(id, args).pkg == ""
    ensures Plain(TypeCmds(Named(id, args))) == id + ArgsText(args)
    ensures Plain(TypeCmds(Predeclared(k))) == PredeclaredIds[k]
  {
    assert Named(id, args) == NamedType("", id, args);
    assert Predeclared(k) == NamedType("", PredeclaredIds[k], []);
    NamedText("", id, args);
    NamedText("", PredeclaredIds[k], []);
  }

  /** `PtrType` writes "*" and its target. */
  lemma PtrText(t: Type)
    ensures Plain(TypeCmds(Ptr(t))) == "*" + Plain(TypeCmds(t))
  {
    PlainAppend([Byte('*')], TypeCmds(t));
    PlainOne(Byte('*'));
  }

  /** `SliceType` writes "[", the size when present, "]" and the item type. */
  lemma SliceText(size: Option<Expr>, t: Type)
    ensures Plain(TypeCmds(Slice(size, t))) ==
      "[" + (if size.Some? then Plain(ExprCmds(size.value)) else "") + "]" + Plain(TypeCmds(t))
  {
    var s := if size.Some? then ExprCmds(size.value) else [];
    PlainAppend([Byte('[')] + s + [Byte(']')], TypeCmds(t));
    PlainWrap('[', s, ']');
  }

  /** `MapType` writes "map[", the key, "]" and the item type. */
  lemma MapText(k: Type, v: Type)
    ensures Plain(TypeCmds(Map(k, v))) == "map[" + Plain(TypeCmds(k)) + "]" + Plain(TypeCmds(v))
  {
    Plain4([Str("map[")], TypeCmds(k), [Byte(']')], TypeCmds(v));
    PlainOne(Str("map["));
    PlainOne(Byte(']'));
  }

  // ---------------------------------------------------------------------------
  // No indented block.

  /** No expression opens an indented block. */
  lemma {:induction false} ExprFlat(e: Expr)
    ensures Flat(ExprCmds(e))
    decreases e, 1
  {
    match e
    case RangeExpr(low, upp) =>
      var l := if low.Some? then ExprCmds(low.value) else [];
      var u := if upp.Some? then ExprCmds(upp.value) else [];
      if low.Some? { ExprFlat(low.value); }
      if upp.Some? { ExprFlat(upp.value); }
      assert ExprCmds(e) == l + [Byte(':')] + u;
      Flat3(l, [Byte(':')], u);
    case SymbolExpr(pkg, id, args) =>
      TypeArgsFlat(args);
      assert ExprCmds(e) == QualifiedCmds(pkg, id) + TypeArgsCmds(args);
      FlatAppend(QualifiedCmds(pkg, id), TypeArgsCmds(args));
    case ParenExpr(x) =>
      ExprFlat(x);
      assert ExprCmds(e) == [Byte('(')] + ExprCmds(x) + [Byte(')')];
      Flat3([Byte('(')], ExprCmds(x), [Byte(')')]);
    case MemberExpr(x, id) =>
      ExprFlat(x);
      assert ExprCmds(e) == ExprCmds(x) + [Byte('.'), Str(id)];
      FlatAppend(ExprCmds(x), [Byte('.'), Str(id)]);
    case CallExpr(callee, args) =>
      ExprFlat(callee);
      ExprListFlat(args);
      assert ExprCmds(e) == ExprCmds(callee) + [Byte('(')] + ExprListCmds(args) + [Byte(')')];
      Flat4(ExprCmds(callee), [Byte('(')], ExprListCmds(args), [Byte(')')]);
    case IndexExpr(x, idx) =>
      ExprFlat(x);
      ExprFlat(idx);
      assert ExprCmds(e) == ExprCmds(x) + [Byte('[')] + ExprCmds(idx) + [Byte(']')];
      Flat4(ExprCmds(x), [Byte('[')], ExprCmds(idx), [Byte(']')]);
    case UnaryExpr(op, x) =>
      ExprFlat(x);
      assert ExprCmds(e) == [Str(op)] + ExprCmds(x);
      FlatAppend([Str(op)], ExprCmds(x));
    case _ =>
      assert |ExprCmds(e)| == 1 && ExprCmds(e)[0].Str?;
  }

  lemma {:induction false} ExprListFlat(es: seq<Expr>)
    ensures Flat(ExprListCmds(es))
    decreases es, 0
  {
    if |es| > 0 {
      var init := es[..|es| - 1];
      ExprListFlat(init);
      ExprFlat(es[|es| - 1]);
      Flat3(ExprListCmds(init), if |es| > 1 then [Str(", ")] else [], ExprCmds(es[|es| - 1]));
    }
  }

  /** No type opens an indented block. */
  lemma {:induction false} TypeFlat(t: Type)
    ensures Flat(TypeCmds(t))
    decreases t, 2
  {
    match t
    case NamedType(pkg, id, args) =>
      TypeArgsFlat(args);
      FlatAppend(QualifiedCmds(pkg, id), TypeArgsCmds(args));
    case PtrType(tgt) =>
      TypeFlat(tgt);
      FlatAppend([Byte('*')], TypeCmds(tgt));
    case SliceType(size, itm) =>
      var s := if size.Some? then ExprCmds(size.value) else [];
      if size.Some? { ExprFlat(size.value); }
      TypeFlat(itm);
      Flat4([Byte('[')], s, [Byte(']')], TypeCmds(itm));
    case MapType(key, itm) =>
      TypeFlat(key);
      TypeFlat(itm);
      Flat4([Str("map[")], TypeCmds(key), [Byte(']')], TypeCmds(itm));
  }

  lemma {:induction false} TypeListFlat(ts: seq<Type>)
    ensures Flat(TypeListCmds(ts))
    decreases ts, 0
  {
    if |ts| > 0 {
      var init := ts[..|ts| - 1];
      TypeListFlat(init);
      TypeFlat(ts[|ts| - 1]);
      Flat3(TypeListCmds(init), if |ts| > 1 then [Str(", ")] else [], TypeCmds(ts[|ts| - 1]));
    }
  }

  lemma {:induction false} TypeArgsFlat(args: seq<Type>)
    ensures Flat(TypeArgsCmds(args))
    decreases args, 1
  {
    if |args| > 0 {
      TypeListFlat(args);
      Flat3([Byte('[')], TypeListCmds(args), [Byte(']')]);
    }
  }

  /**
    Written at depth zero, an expression or a type adds exactly its plain
    text to the output, whatever the indent string.
   */
  lemma WrittenAsText(st: State, e: Expr, t: Type)
    requires st.depth <= 0
    ensures Exec(st, ExprCmds(e)).out == st.out + Plain(ExprCmds(e))
    ensures Exec(st, TypeCmds(t)).out == st.out + Plain(TypeCmds(t))
  {
    ExprFlat(e);
    TypeFlat(t);
    ExecFlat(st, ExprCmds(e));
    ExecFlat(st, TypeCmds(t));
  }
}
