/**
  The text the golang/ expression and type writers produce.

  `Plain(cmds)` is the text of a call list with the indentation left out;
  where a node is laid out as an indented block, `GolangLayout` says so and
  `CodeWriter.IndentRestoresDepth` says at which depth the block is written.
 */
module GolangText {
  import opened Wrappers
  import opened Text
  import opened CodeWriter
  import opened Strconv
  import opened Tables
  import opened GolangBase
  import opened Golang

  /** The text of each expression of a list. */
  function ExprTexts(es: seq<Expr>): (r: seq<string>)
  {
    seq(|es|, i requires 0 <= i < |es| => Plain(ExprCmds(es[i])))
  }

  /** The text of each type of a list. */
  function TypeTexts(ts: seq<Type>): (r: seq<string>)
  {
    seq(|ts|, i requires 0 <= i < |ts| => Plain(TypeCmds(ts[i])))
  }

  // ---------------------------------------------------------------------------
  // golang/expr.go

  /** `Exprs.write`: the expressions joined by ", ". */
  lemma {:induction false} ExprsText(es: seq<Expr>)
    ensures Plain(ExprsCmds(es)) == Join(ExprTexts(es), ", ")
    decreases |es|
  {
    if |es| > 0 {
      var init := es[..|es| - 1];
      ExprsText(init);
      assert ExprTexts(es)[..|es| - 1] == ExprTexts(init);
      PlainJoinStep(ExprsCmds(init), ", ", ExprCmds(es[|es| - 1]), ExprTexts(es));
    }
  }

  /** The block form of `Args.write`: each argument followed by ",\n". */
  lemma {:induction false} ArgLinesText(args: seq<Expr>)
    ensures |args| == 0 ==> Plain(ArgLinesCmds(args)) == ""
    ensures |args| > 0 ==> Plain(ArgLinesCmds(args)) == Join(ExprTexts(args), ",\n") + ",\n"
    decreases |args|
  {
    if |args| > 0 {
      var init := args[..|args| - 1];
      ArgLinesText(init);
      PlainAppend(ArgLinesCmds(init), ArgLineCmds(args[|args| - 1]));
      CommaLineText(ExprCmds(args[|args| - 1]));
      assert ExprTexts(args)[..|args| - 1] == ExprTexts(init);
      TerminatedStep(ExprTexts(args), ",\n", Plain(ArgLinesCmds(init)));
    }
  }

  /**
    `Args.write`: "(" + the arguments joined by ", " + ")" when all are simple;
    otherwise "(", a newline, each argument followed by ",\n" (in an indented
    block, see `GolangLayout.ArgsIndent`), then ")".
   */
  lemma ArgsText(args: seq<Expr>)
    ensures SimpleExprs(args) ==> Plain(ArgsCmds(args)) == "(" + Join(ExprTexts(args), ", ") + ")"
    ensures !SimpleExprs(args) ==>
      Plain(ArgsCmds(args)) == "(" + ("\n" + (Join(ExprTexts(args), ",\n") + ",\n")) + ")"
  {
    if SimpleExprs(args) {
      PlainWrap('(', ExprsCmds(args), ')');
      ExprsText(args);
    } else {
      PlainWrap('(', [Newline, Indented(ArgLinesCmds(args))], ')');
      PlainBlock(ArgLinesCmds(args));
      ArgLinesText(args);
    }
  }

  /** A single string renders as itself. */
  lemma RenderStr(t: string)
    ensures Render(Some([Str(t)])) == t
  {
    RenderFlat(Some([Str(t)]));
    PlainOne(Str(t));
  }

  /** `NilExpr` and `BoolExpr` render as "nil", "true" and "false". */
  lemma KeywordLiteralText(b: bool)
    ensures Render(Some(ExprCmds(NilExpr))) == "nil"
    ensures Render(Some(ExprCmds(BoolExpr(b)))) == (if b then "true" else "false")
  {
    assert ExprCmds(NilExpr) == [Str("nil")];
    RenderStr("nil");
    assert ExprCmds(BoolExpr(b)) == [Str(if b then "true" else "false")];
    RenderStr(if b then "true" else "false");
  }

  /** A rune literal renders as its quoted form. */
  lemma RuneLiteralText(r: int)
    ensures Render(Some(ExprCmds(RuneExpr(r)))) == QuoteRune(r)
  {
    assert ExprCmds(RuneExpr(r)) == [Str(QuoteRune(r))];
    RenderStr(QuoteRune(r));
  }

  /** An int literal renders as its decimal form, with a '-' when negative. */
  lemma IntLiteralText(i: int)
    ensures Render(Some(ExprCmds(IntExpr(i)))) == FormatInt(i)
  {
    assert ExprCmds(IntExpr(i)) == [Str(FormatInt(i))];
    RenderStr(FormatInt(i));
  }

  /** A uint literal renders as its decimal form. */
  lemma UintLiteralText(u: nat)
    ensures Render(Some(ExprCmds(UintExpr(u)))) == Decimal(u)
  {
    assert ExprCmds(UintExpr(u)) == [Str(Decimal(u))];
    RenderStr(Decimal(u));
  }

  /** A string literal renders as the quoted string, which unquotes back to it. */
  lemma StringLiteralText(s: string)
    ensures Render(Some(ExprCmds(StringExpr(s)))) == Quote(s)
    ensures Unquote(Render(Some(ExprCmds(StringExpr(s))))) == Some(s)
  {
    assert ExprCmds(StringExpr(s)) == [Str(Quote(s))];
    RenderStr(Quote(s));
    UnquoteQuote(s);
  }

  /**
    A unary expression is its operator immediately followed by the operand;
    a binary one is lhs, " ", op, " ", rhs.
   */
  lemma OperatorText(op: string, x: Expr, l: Expr, r: Expr)
    ensures Plain(ExprCmds(UnaryExpr(op, x))) == op + Plain(ExprCmds(x))
    ensures Plain(ExprCmds(BinaryExpr(op, l, r))) == Plain(ExprCmds(l)) + " " + op + " " + Plain(ExprCmds(r))
  {
    assert ExprCmds(UnaryExpr(op, x)) == [Str(op)] + ExprCmds(x);
    assert ExprCmds(BinaryExpr(op, l, r)) == ExprCmds(l) + [Space, Str(op), Space] + ExprCmds(r);
    PlainPrefix(op, ExprCmds(x));
    PlainInfix(ExprCmds(l), op, ExprCmds(r));
  }

  /** The text of the optional type of a composite literal. */
  function LiteralTypeText(typ: Option<Type>): string
  {
    if typ.Some? then Plain(TypeCmds(typ.value)) else ""
  }

  /** The lines of a struct literal: "id: value,\n" each. */
  function FieldValueTexts(fields: seq<StructExprField>): (r: seq<string>)
  {
    seq(|fields|, i requires 0 <= i < |fields| => fields[i].id + ": " + Plain(ExprCmds(fields[i].value)) + ",\n")
  }

  /** The lines of a map literal: "key: value,\n" each. */
  function MapValueTexts(values: seq<MapExprValue>): (r: seq<string>)
  {
    seq(|values|, i requires 0 <= i < |values| => Plain(ExprCmds(values[i].key)) + ": " + Plain(ExprCmds(values[i].value)) + ",\n")
  }

  /** One entry line: the key, ": ", the value, ",\n". */
  lemma EntryLine(key: seq<Cmd>, value: seq<Cmd>)
    ensures Plain(key + [Str(": ")] + value + [Byte(','), Newline]) == Plain(key) + ": " + Plain(value) + ",\n"
  {
    Plain4(key, [Str(": ")], value, [Byte(','), Newline]);
    PlainOne(Str(": "));
    PlainTwo(Byte(','), Newline);
    PlainOne(Byte(','));
    PlainOne(Newline);
  }

  /** One more entry line after `prev`. */
  lemma EntryText(prev: seq<Cmd>, key: seq<Cmd>, value: seq<Cmd>)
    ensures Plain(prev + key + [Str(": ")] + value + [Byte(','), Newline]) ==
            Plain(prev) + (Plain(key) + ": " + Plain(value) + ",\n")
  {
    Plain4(prev + key, [Str(": ")], value, [Byte(','), Newline]);
    PlainAppend(prev, key);
    PlainOne(Str(": "));
    PlainTwo(Byte(','), Newline);
    PlainOne(Byte(','));
    PlainOne(Newline);
    var p, k, v := Plain(prev), Plain(key), Plain(value);
    Assoc(p, k, ": ");
    Assoc(p, k + ": ", v);
    Assoc(p, k + ": " + v, ",\n");
  }

  lemma {:induction false} FieldValuesText(fields: seq<StructExprField>)
    ensures Plain(FieldValuesCmds(fields)) == Concat(FieldValueTexts(fields))
    decreases |fields|
  {
    if |fields| > 0 {
      var init := fields[..|fields| - 1];
      var f := fields[|fields| - 1];
      FieldValuesText(init);
      EntryText(FieldValuesCmds(init), IDCmds(f.id), ExprCmds(f.value));
      assert FieldValueTexts(fields)[..|fields| - 1] == FieldValueTexts(init);
    }
  }

  lemma {:induction false} MapValuesText(values: seq<MapExprValue>)
    ensures Plain(MapValuesCmds(values)) == Concat(MapValueTexts(values))
    decreases |values|
  {
    if |values| > 0 {
      var n := |values|;
      var init := values[..n - 1];
      var v := values[n - 1];
      var texts := MapValueTexts(values);
      MapValuesText(init);
      assert texts[..n - 1] == MapValueTexts(init);
      assert MapValuesCmds(values) == MapValuesCmds(init) + MapValueCmds(v);
      PlainAppend(MapValuesCmds(init), MapValueCmds(v));
      EntryLine(ExprCmds(v.key), ExprCmds(v.value));
      assert Plain(MapValueCmds(v)) == texts[n - 1];
      ConcatStep(texts, Plain(MapValuesCmds(init)), Plain(MapValueCmds(v)));
    }
  }

  /** The braces of a composite literal: "{}" with no entries, "{\n" + lines + "}" otherwise. */
  lemma BracesText(t: seq<Cmd>, body: seq<Cmd>, nonEmpty: bool)
    ensures Plain(t + [Byte('{')] + (if nonEmpty then [Newline, Indented(body)] else []) + [Byte('}')]) ==
            Plain(t) + "{" + (if nonEmpty then "\n" + Plain(body) else "") + "}"
  {
    Plain4(t, [Byte('{')], if nonEmpty then [Newline, Indented(body)] else [], [Byte('}')]);
    PlainOne(Byte('{'));
    PlainOne(Byte('}'));
    PlainBlock(body);
    PlainNone();
  }

  /**
    A struct literal with no fields is its type followed by "{}"; otherwise
    its type, "{", a newline, one "id: value,\n" line per field (indented,
    see `GolangLayout.ExprIndents`), then "}".
   */
  lemma StructLiteralText(typ: Option<Type>, fields: seq<StructExprField>)
    ensures Plain(ExprCmds(StructExpr(typ, fields))) ==
      LiteralTypeText(typ) + "{" + (if |fields| > 0 then "\n" + Concat(FieldValueTexts(fields)) else "") + "}"
  {
    var t: seq<Cmd> := if typ.Some? then TypeCmds(typ.value) else [];
    var inner: seq<Cmd> := if |fields| > 0 then [Newline, Indented(FieldValuesCmds(fields))] else [];
    assert ExprCmds(StructExpr(typ, fields)) == t + [Byte('{')] + inner + [Byte('}')];
    BracesText(t, FieldValuesCmds(fields), |fields| > 0);
    PlainNone();
    FieldValuesText(fields);
  }

  /** The same for a map literal, with one "key: value,\n" line per entry. */
  lemma MapLiteralText(typ: Option<Type>, values: seq<MapExprValue>)
    ensures Plain(ExprCmds(MapExpr(typ, values))) ==
      LiteralTypeText(typ) + "{" + (if |values| > 0 then "\n" + Concat(MapValueTexts(values)) else "") + "}"
  {
    var t: seq<Cmd> := if typ.Some? then TypeCmds(typ.value) else [];
    var inner: seq<Cmd> := if |values| > 0 then [Newline, Indented(MapValuesCmds(values))] else [];
    assert ExprCmds(MapExpr(typ, values)) == t + [Byte('{')] + inner + [Byte('}')];
    BracesText(t, MapValuesCmds(values), |values| > 0);
    PlainNone();
    MapValuesText(values);
  }

  // ---------------------------------------------------------------------------
  // golang/type.go

  lemma {:induction false} TypeListText(ts: seq<Type>)
    ensures Plain(TypeListCmds(ts)) == Join(TypeTexts(ts), ", ")
    decreases |ts|
  {
    if |ts| > 0 {
      var init := ts[..|ts| - 1];
      TypeListText(init);
      assert TypeTexts(ts)[..|ts| - 1] == TypeTexts(init);
      PlainJoinStep(TypeListCmds(init), ", ", TypeCmds(ts[|ts| - 1]), TypeTexts(ts));
    }
  }

  /** `GenArgs.write`: nothing when empty, else "[" + the types joined by ", " + "]". */
  lemma GenArgsText(args: seq<Type>)
    ensures |args| == 0 ==> GenArgsCmds(args) == []
    ensures |args| > 0 ==> Plain(GenArgsCmds(args)) == "[" + Join(TypeTexts(args), ", ") + "]"
  {
    if |args| > 0 {
      TypeListText(args);
      PlainWrap('[', TypeListCmds(args), ']');
    }
  }

  /** `NamedType.write`: "pkg." only when the package is not empty, then the id and generic arguments. */
  lemma NamedTypeText(pkg: string, id: string, args: seq<Type>)
    ensures Plain(TypeCmds(NamedType(pkg, id, args))) ==
      (if pkg != "" then pkg + "." else "") + id + Plain(GenArgsCmds(args))
  {
    Plain3(if pkg != "" then [Str(pkg), Byte('.')] else [], IDCmds(id), GenArgsCmds(args));
    PlainTwo(Str(pkg), Byte('.'));
    PlainOne(Str(pkg));
    PlainOne(Byte('.'));
    PlainNone();
  }

  /** `PtrType.write`: "*" and the target. */
  lemma PtrTypeText(t: Type)
    ensures Plain(TypeCmds(PtrType(t))) == "*" + Plain(TypeCmds(t))
  {
    PlainAppend([Byte('*')], TypeCmds(t));
    PlainOne(Byte('*'));
  }

  /** `SliceType.write`: "[", the length when there is one, "]", the item type. */
  lemma SliceTypeText(len: Option<Expr>, t: Type)
    ensures Plain(TypeCmds(SliceType(len, t))) ==
      "[" + (if len.Some? then Plain(ExprCmds(len.value)) else "") + "]" + Plain(TypeCmds(t))
  {
    var l: seq<Cmd> := if len.Some? then ExprCmds(len.value) else [];
    PlainAppend([Byte('[')] + l + [Byte(']')], TypeCmds(t));
    PlainWrap('[', l, ']');
    PlainNone();
  }

  /** `MapType.write`: "map[", the key, "]", the value. */
  lemma MapTypeText(k: Type, v: Type)
    ensures Plain(TypeCmds(MapType(k, v))) == "map[" + Plain(TypeCmds(k)) + "]" + Plain(TypeCmds(v))
  {
    Plain4([Str("map[")], TypeCmds(k), [Byte(']')], TypeCmds(v));
    PlainOne(Str("map["));
    PlainOne(Byte(']'));
  }

  /** Empty struct and interface types are written "struct {}" and "interface {}". */
  lemma EmptyTypeText()
    ensures Plain(TypeCmds(StructType([]))) == "struct {}"
    ensures Plain(TypeCmds(InterfaceType([], []))) == "interface {}"
  {
    EmptyBraces(TypeCmds(StructType([])), "struct {");
    EmptyBraces(TypeCmds(InterfaceType([], [])), "interface {");
  }

  /** An opening text followed by '}' alone. */
  lemma EmptyBraces(cmds: seq<Cmd>, open: string)
    requires cmds == [Str(open)] + [] + [Byte('}')]
    ensures Plain(cmds) == open + "}"
  {
    assert cmds == [Str(open), Byte('}')];
    PlainTwo(Str(open), Byte('}'));
    PlainOne(Str(open));
    PlainOne(Byte('}'));
  }

  /** The text of each constraint of a list: "~" before a derived one. */
  function ConstTexts(consts: seq<TypeConst>): (r: seq<string>)
  {
    seq(|consts|, i requires 0 <= i < |consts| => (if consts[i].derived then "~" else "") + Plain(TypeCmds(consts[i].typ)))
  }

  /** `TypeConsts.write`: the constraints joined by " | ", each with "~" when derived. */
  lemma {:induction false} TypeConstsText(consts: seq<TypeConst>)
    ensures Plain(TypeConstsCmds(consts)) == Join(ConstTexts(consts), " | ")
    decreases |consts|
  {
    if |consts| > 0 {
      var init := consts[..|consts| - 1];
      var c := consts[|consts| - 1];
      var prev, item := TypeConstsCmds(init), TypeConstCmds(c);
      assert TypeConstsCmds(consts) == prev + (if |consts| > 1 then [Str(" | ")] else []) + item;
      TypeConstsText(init);
      assert ConstTexts(consts)[..|consts| - 1] == ConstTexts(init);
      TypeConstText(c);
      PlainJoinStep(prev, " | ", item, ConstTexts(consts));
    }
  }

  lemma TypeConstText(c: TypeConst)
    ensures Plain(TypeConstCmds(c)) == (if c.derived then "~" else "") + Plain(TypeCmds(c.typ))
  {
    PlainAppend(if c.derived then [Byte('~')] else [], TypeCmds(c.typ));
    PlainOne(Byte('~'));
    PlainNone();
  }

  /** The text of each method line of an interface. */
  function FuncLineTexts(funcs: seq<InterfaceFunc>): (r: seq<string>)
  {
    seq(|funcs|, i requires 0 <= i < |funcs| => Plain(InterfaceFuncCmds(funcs[i])) + "\n")
  }

  /** `InterfaceFuncs.write`: every method is followed by a newline. */
  lemma {:induction false} InterfaceFuncsText(funcs: seq<InterfaceFunc>)
    ensures Plain(InterfaceFuncsCmds(funcs)) == Concat(FuncLineTexts(funcs))
    decreases |funcs|
  {
    if |funcs| > 0 {
      var init := funcs[..|funcs| - 1];
      var f := funcs[|funcs| - 1];
      var a, b := InterfaceFuncsCmds(init), InterfaceFuncCmds(f);
      assert InterfaceFuncsCmds(funcs) == a + b + [Newline];
      InterfaceFuncsText(init);
      PlainAppend(a + b, [Newline]);
      PlainAppend(a, b);
      PlainOne(Newline);
      assert FuncLineTexts(funcs)[..|funcs| - 1] == FuncLineTexts(init);
      Assoc(Plain(a), Plain(b), "\n");
      ConcatStep(FuncLineTexts(funcs), Plain(a), Plain(b) + "\n");
    }
  }

  /**
    A non-empty interface: "interface {", a newline, the constraints joined by
    " | ", a newline between constraints and methods only when both exist, the
    method lines, then "}".
   */
  lemma InterfaceText(consts: seq<TypeConst>, funcs: seq<InterfaceFunc>)
    requires |consts| > 0 || |funcs| > 0
    ensures Plain(TypeCmds(InterfaceType(consts, funcs))) ==
      "interface {" + ("\n" + InterfaceBodyText(consts, funcs)) + "}"
  {
    var sep: seq<Cmd> := if |consts| > 0 && |funcs| > 0 then [Newline] else [];
    var body := TypeConstsCmds(consts) + sep + InterfaceFuncsCmds(funcs);
    InterfaceBody(consts, funcs);
    Plain3([Str("interface {")], [Newline, Indented(body)], [Byte('}')]);
    PlainBlock(body);
    PlainOne(Str("interface {"));
    PlainOne(Byte('}'));
  }

  /** The constraints joined by " | ", "\n" when there are methods too, then the method lines. */
  function InterfaceBodyText(consts: seq<TypeConst>, funcs: seq<InterfaceFunc>): string
  {
    Join(ConstTexts(consts), " | ") + (if |consts| > 0 && |funcs| > 0 then "\n" else "") +
    Concat(FuncLineTexts(funcs))
  }

  lemma InterfaceBody(consts: seq<TypeConst>, funcs: seq<InterfaceFunc>)
    ensures Plain(TypeConstsCmds(consts) + (if |consts| > 0 && |funcs| > 0 then [Newline] else []) +
                  InterfaceFuncsCmds(funcs)) == InterfaceBodyText(consts, funcs)
  {
    TypeConstsText(consts);
    InterfaceFuncsText(funcs);
    Plain3(TypeConstsCmds(consts), if |consts| > 0 && |funcs| > 0 then [Newline] else [], InterfaceFuncsCmds(funcs));
    PlainOne(Newline);
    PlainNone();
  }

  /** The text of each tag of a list: name + ":" + the quoted value. */
  function TagTexts(tags: seq<Tag>): (r: seq<string>)
  {
    seq(|tags|, i requires 0 <= i < |tags| => tags[i].name + ":" + Quote(tags[i].val))
  }

  lemma TagText(t: Tag)
    ensures Flat(TagCmds(t)) && Plain(TagCmds(t)) == t.name + ":" + Quote(t.val)
  {
    assert TagCmds(t) == [Str(t.name), Byte(':')] + [Str(Quote(t.val))];
    PlainAppend([Str(t.name), Byte(':')], [Str(Quote(t.val))]);
    PlainTwo(Str(t.name), Byte(':'));
    PlainOne(Str(t.name));
    PlainOne(Byte(':'));
    PlainOne(Str(Quote(t.val)));
  }

  lemma {:induction false} TagListText(tags: seq<Tag>)
    ensures Plain(TagListCmds(tags)) == Join(TagTexts(tags), " ")
    decreases |tags|
  {
    if |tags| > 0 {
      var n := |tags|;
      var init := tags[..n - 1];
      TagListText(init);
      TagText(tags[n - 1]);
      assert TagTexts(tags)[..n - 1] == TagTexts(init);
      SpaceJoinStep(TagListCmds(init), TagCmds(tags[n - 1]), TagTexts(tags));
    }
  }

  /** The tags are written on one line. */
  lemma {:induction false} TagListFlat(tags: seq<Tag>)
    ensures Flat(TagListCmds(tags))
    decreases |tags|
  {
    if |tags| > 0 {
      var n := |tags|;
      var sep: seq<Cmd> := if n > 1 then [Space] else [];
      TagListFlat(tags[..n - 1]);
      TagText(tags[n - 1]);
      Flat3(TagListCmds(tags[..n - 1]), sep, TagCmds(tags[n - 1]));
    }
  }

  /** One more item after items separated by single spaces. */
  lemma SpaceJoinStep(prev: seq<Cmd>, item: seq<Cmd>, texts: seq<string>)
    requires |texts| >= 1 && texts[|texts| - 1] == Plain(item)
    requires |texts| == 1 ==> prev == []
    requires |texts| > 1 ==> Plain(prev) == Join(texts[..|texts| - 1], " ")
    ensures Plain(prev + (if |texts| > 1 then [Space] else []) + item) == Join(texts, " ")
  {
    var s: seq<Cmd> := if |texts| > 1 then [Space] else [];
    Plain3(prev, s, item);
    if |texts| > 1 {
      PlainOne(Space);
      JoinSnoc(texts, " ");
    } else {
      PlainNone();
    }
  }

  /**
    `Tags.write`: nothing when there are no tags; otherwise the tags between
    backquotes, separated by single spaces, each as name:"value".
   */
  lemma TagsText(tags: seq<Tag>)
    ensures |tags| == 0 ==> TagsCmds(tags) == []
    ensures |tags| > 0 ==> Plain(TagsCmds(tags)) == "`" + Join(TagTexts(tags), " ") + "`"
  {
    if |tags| > 0 {
      TagListText(tags);
      PlainWrap('`', TagListCmds(tags), '`');
    }
  }

  /** Tags are written on one line, without an indented block. */
  lemma TagsFlat(tags: seq<Tag>)
    ensures Flat(TagsCmds(tags))
  {
    if |tags| > 0 {
      TagListFlat(tags);
      Flat3([Byte('`')], TagListCmds(tags), [Byte('`')]);
    }
  }

  /** The rendered tags: empty exactly when there are no tags. */
  lemma TagsRender(tags: seq<Tag>)
    ensures Render(Some(TagsCmds(tags))) == Plain(TagsCmds(tags))
    ensures Render(Some(TagsCmds(tags))) == "" <==> |tags| == 0
  {
    TagsText(tags);
    TagsFlat(tags);
    RenderFlat(Some(TagsCmds(tags)));
    if |tags| == 0 {
      PlainNone();
    }
  }

  /**
    The row of a struct field: a named field gives [id, type] and an embedded
    one [type]; tags, when present, are always the third column (an embedded
    field gets an empty second column), and the doc comment is the prefix.
   */
  lemma FieldRowColumns(f: Field)
    ensures FieldRow(f).pfx == Render(Some(CommentCmds(f.doc)))
    ensures var typ := Render(Some(TypeCmds(f.typ)));
      |f.tags| == 0 ==> FieldRow(f).cols == (if f.id == "" then [typ] else [f.id, typ])
  {
    RenderFlat(Some(IDCmds(f.id)));
    assert Render(Some(IDCmds(f.id))) == f.id;
    TagsRender(f.tags);
  }

  /** A field with tags has them as its third column. */
  lemma FieldRowTagColumns(f: Field)
    requires |f.tags| > 0
    ensures var typ := Render(Some(TypeCmds(f.typ)));
      FieldRow(f).cols == (if f.id == "" then [typ, ""] else [f.id, typ]) + [Render(Some(TagsCmds(f.tags)))]
  {
    RenderFlat(Some(IDCmds(f.id)));
    assert Render(Some(IDCmds(f.id))) == f.id;
    TagsRender(f.tags);
  }
}
