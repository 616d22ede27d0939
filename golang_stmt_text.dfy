/**
  The text the golang/ statement and declaration writers produce, with the
  indentation left out (see `GolangText`).
 */
module GolangStmtText {
  import opened Wrappers
  import opened Text
  import opened CodeWriter
  import opened Strconv
  import opened Tables
  import opened GolangBase
  import opened Golang
  import opened GolangText

  /** The text of each statement of a list. */
  function StmtTexts(stmts: seq<Stmt>): (r: seq<string>)
  {
    seq(|stmts|, i requires 0 <= i < |stmts| => Plain(StmtCmds(stmts[i])))
  }

  /** A blank line is two newlines. */
  lemma BlankLine(a: string, b: string)
    ensures a + "\n" + "\n" + b + "\n" == a + "\n\n" + b + "\n"
  {
    Assoc(a, "\n", "\n");
  }

  // ---------------------------------------------------------------------------
  // golang/stmt.go

  /** The lines of a block: the statements joined by a blank line, the last one ending in a newline. */
  lemma {:induction false} BlockLinesText(stmts: seq<Stmt>)
    ensures |stmts| == 0 ==> BlockLinesCmds(stmts) == []
    ensures |stmts| > 0 ==> Plain(BlockLinesCmds(stmts)) == Join(StmtTexts(stmts), "\n\n") + "\n"
    decreases |stmts|
  {
    if |stmts| > 0 {
      var init := stmts[..|stmts| - 1];
      var sep: seq<Cmd> := if |stmts| > 1 then [Newline] else [];
      BlockLinesText(init);
      Plain4(BlockLinesCmds(init), sep, StmtCmds(stmts[|stmts| - 1]), [Newline]);
      PlainOne(Newline);
      PlainNone();
      if |stmts| > 1 {
        assert StmtTexts(stmts)[..|stmts| - 1] == StmtTexts(init);
        JoinSnoc(StmtTexts(stmts), "\n\n");
        BlankLine(Join(StmtTexts(init), "\n\n"), Plain(StmtCmds(stmts[|stmts| - 1])));
      }
    }
  }

  /**
    `BlockStmt.write`: "{}" for no statement; "{ stmt }" for one simple
    statement; otherwise "{", a newline, the statements each ending in a
    newline with a blank line between consecutive ones (in an indented block),
    then "}".
   */
  lemma BlockText(stmts: seq<Stmt>)
    ensures |stmts| == 0 ==> Plain(BlockCmds(stmts)) == "{}"
    ensures |stmts| == 1 && SimpleStmt(stmts[0]) ==>
      Plain(BlockCmds(stmts)) == "{" + (" " + Plain(StmtCmds(stmts[0])) + " ") + "}"
    ensures |stmts| >= 1 && !(|stmts| == 1 && SimpleStmt(stmts[0])) ==>
      Plain(BlockCmds(stmts)) == "{" + ("\n" + (Join(StmtTexts(stmts), "\n\n") + "\n")) + "}"
  {
    if |stmts| == 0 {
      PlainWrap('{', [], '}');
      PlainNone();
    } else if |stmts| == 1 && SimpleStmt(stmts[0]) {
      PlainWrap('{', [Space] + StmtCmds(stmts[0]) + [Space], '}');
      Plain3([Space], StmtCmds(stmts[0]), [Space]);
      PlainOne(Space);
    } else {
      PlainWrap('{', [Newline, Indented(BlockLinesCmds(stmts))], '}');
      PlainBlock(BlockLinesCmds(stmts));
      BlockLinesText(stmts);
    }
  }

  /** `AssignStmt.write`: the destinations joined by ", ", " op ", the sources joined by ", ". */
  lemma AssignText(a: Assignment)
    ensures Plain(AssignCmds(a)) ==
      Join(ExprTexts(a.dest), ", ") + " " + a.op + " " + Join(ExprTexts(a.src), ", ")
  {
    PlainInfix(ExprsCmds(a.dest), a.op, ExprsCmds(a.src));
    ExprsText(a.dest);
    ExprsText(a.src);
  }

  /**
    `ReturnStmt.write`: "return", then " value" only when there is a value;
    `Break` and `Continue` write their keyword.
   */
  lemma KeywordStmtText(v: Option<Expr>)
    ensures Plain(StmtCmds(ReturnStmt(v))) == "return" + (if v.Some? then " " + Plain(ExprCmds(v.value)) else "")
    ensures Plain(StmtCmds(BreakStmt)) == "break"
    ensures Plain(StmtCmds(ContinueStmt)) == "continue"
  {
    PlainAppend([Str("return")], if v.Some? then [Space] + ExprCmds(v.value) else []);
    PlainOne(Str("return"));
    PlainNone();
    if v.Some? {
      PlainAppend([Space], ExprCmds(v.value));
      PlainOne(Space);
    }
    PlainOne(Str("break"));
    PlainOne(Str("continue"));
  }

  /**
    `IfStmt.write`: "if ", "init; " only with an init, the condition, " ",
    the then-block, and " else " with the else part only when there is one.
   */
  lemma IfText(i: If)
    ensures Plain(IfCmds(i)) ==
      "if " + (if i.init.Some? then Plain(AssignCmds(i.init.value)) + "; " else "") +
      Plain(ExprCmds(i.cond)) + " " + Plain(BlockCmds(i.body)) +
      (if i.els.Some? then " else " + Plain(ElseCmds(i.els.value)) else "")
  {
    var init: seq<Cmd> := if i.init.Some? then AssignCmds(i.init.value) + [Str("; ")] else [];
    var els: seq<Cmd> := if i.els.Some? then [Str(" else ")] + ElseCmds(i.els.value) else [];
    Plain4([Str("if ")], init, ExprCmds(i.cond), [Space]);
    PlainAppend([Str("if ")] + init + ExprCmds(i.cond) + [Space], BlockCmds(i.body));
    PlainAppend([Str("if ")] + init + ExprCmds(i.cond) + [Space] + BlockCmds(i.body), els);
    PlainOne(Str("if "));
    PlainOne(Space);
    PlainNone();
    if i.init.Some? {
      PlainAppend(AssignCmds(i.init.value), [Str("; ")]);
      PlainOne(Str("; "));
    }
    if i.els.Some? {
      PlainPrefix(" else ", ElseCmds(i.els.value));
    }
  }

  // ---------------------------------------------------------------------------
  // golang/decl.go: parameters

  /** The text of each parameter of a list. */
  function ParamTexts(ps: seq<Param>): (r: seq<string>)
  {
    seq(|ps|, i requires 0 <= i < |ps| => Plain(ParamCmds(ps[i])))
  }

  /** `Param.write`: the name, "..." when variadic, a space, the type. */
  lemma ParamText(p: Param)
    ensures Plain(ParamCmds(p)) == p.id + (if p.variadic then "..." else "") + " " + Plain(TypeCmds(p.typ))
  {
    Plain4(IDCmds(p.id), if p.variadic then [Str("...")] else [], [Space], TypeCmds(p.typ));
    PlainOne(Str("..."));
    PlainOne(Space);
    PlainNone();
  }

  lemma {:induction false} ParamListText(ps: seq<Param>)
    ensures Plain(ParamListCmds(ps)) == Join(ParamTexts(ps), ", ")
    decreases |ps|
  {
    if |ps| > 0 {
      var init := ps[..|ps| - 1];
      ParamListText(init);
      assert ParamTexts(ps)[..|ps| - 1] == ParamTexts(init);
      PlainJoinStep(ParamListCmds(init), ", ", ParamCmds(ps[|ps| - 1]), ParamTexts(ps));
    }
  }

  /** `Params.write`: the parameters joined by ", ", always in parentheses. */
  lemma ParamsText(ps: seq<Param>)
    ensures Plain(ParamsCmds(ps)) == "(" + Join(ParamTexts(ps), ", ") + ")"
  {
    ParamListText(ps);
    PlainWrap('(', ParamListCmds(ps), ')');
  }

  /**
    `Return.write`: nothing without results; " T" for a single unnamed
    result; otherwise " (" + the results joined by ", " + ")".
   */
  lemma ReturnText(ps: seq<Param>)
    ensures |ps| == 0 ==> ReturnCmds(ps) == []
    ensures |ps| == 1 && ps[0].id == "" ==> Plain(ReturnCmds(ps)) == " " + Plain(TypeCmds(ps[0].typ))
    ensures |ps| >= 1 && !(|ps| == 1 && ps[0].id == "") ==>
      Plain(ReturnCmds(ps)) == " (" + Join(ParamTexts(ps), ", ") + ")"
  {
    if |ps| == 1 && ps[0].id == "" {
      PlainAppend([Space], TypeCmds(ps[0].typ));
      PlainOne(Space);
    } else if |ps| >= 1 {
      ParamListText(ps);
      PlainSpacedParens(ParamListCmds(ps));
    }
  }

  /** The text of each generic parameter of a list: the name, a space, the constraint. */
  function GenParamTexts(ps: seq<GenParam>): (r: seq<string>)
  {
    seq(|ps|, i requires 0 <= i < |ps| => Plain(GenParamCmds(ps[i])))
  }

  lemma GenParamText(p: GenParam)
    ensures Plain(GenParamCmds(p)) ==
      p.id + " " + (if p.constraint.derived then "~" else "") + Plain(TypeCmds(p.constraint.typ))
  {
    Plain3(IDCmds(p.id), [Space], TypeConstCmds(p.constraint));
    PlainOne(Space);
    TypeConstText(p.constraint);
    Assoc(p.id + " ", if p.constraint.derived then "~" else "", Plain(TypeCmds(p.constraint.typ)));
  }

  lemma {:induction false} GenParamListText(ps: seq<GenParam>)
    ensures Plain(GenParamListCmds(ps)) == Join(GenParamTexts(ps), ", ")
    decreases |ps|
  {
    if |ps| > 0 {
      var init := ps[..|ps| - 1];
      GenParamListText(init);
      assert GenParamTexts(ps)[..|ps| - 1] == GenParamTexts(init);
      PlainJoinStep(GenParamListCmds(init), ", ", GenParamCmds(ps[|ps| - 1]), GenParamTexts(ps));
    }
  }

  /** `GenParams.write`: nothing when empty, else "[" + the parameters joined by ", " + "]". */
  lemma GenParamsText(ps: seq<GenParam>)
    ensures |ps| == 0 ==> GenParamsCmds(ps) == []
    ensures |ps| > 0 ==> Plain(GenParamsCmds(ps)) == "[" + Join(GenParamTexts(ps), ", ") + "]"
  {
    if |ps| > 0 {
      GenParamListText(ps);
      PlainWrap('[', GenParamListCmds(ps), ']');
    }
  }

  /** The receiver of a method: "(" + the parameter + ") "; nothing for a plain function. */
  lemma ReceiverText(rcv: Option<Param>)
    ensures rcv.None? ==> ReceiverCmds(rcv) == []
    ensures rcv.Some? ==> Plain(ReceiverCmds(rcv)) == "(" + Plain(ParamCmds(rcv.value)) + ") "
  {
    if rcv.Some? {
      Plain3([Byte('(')], ParamCmds(rcv.value), [Str(") ")]);
      PlainOne(Byte('('));
      PlainOne(Str(") "));
    }
  }

  // ---------------------------------------------------------------------------
  // golang/decl.go: declaration groups

  /** The package clause is "package " and the name. */
  lemma PackageText(name: string)
    ensures Flat(DeclCmds(PackageDecl(name)))
    ensures Plain(DeclCmds(PackageDecl(name))) == "package " + name
  {
    PlainTwo(Str("package "), Str(name));
    PlainOne(Str("package "));
    PlainOne(Str(name));
  }

  /**
    `ImportDecls.write` of one import: "import ", the alias and a space only
    when the alias is not empty, the quoted path; all on one line.
   */
  lemma SingleImportText(imp: ImportDecl)
    ensures Flat(ImportsCmds([imp]))
    ensures Plain(ImportsCmds([imp])) ==
      "import " + (if imp.alias != "" then imp.alias + " " else "") + Quote(imp.path)
  {
    var a: seq<Cmd> := if imp.alias != "" then [Str(imp.alias), Space] else [];
    Plain3([Str("import ")], a, [Str(Quote(imp.path))]);
    Flat3([Str("import ")], a, [Str(Quote(imp.path))]);
    PlainTwo(Str(imp.alias), Space);
    PlainOne(Str(imp.alias));
    PlainOne(Space);
    PlainOne(Str("import "));
    PlainOne(Str(Quote(imp.path)));
    PlainNone();
  }

  /**
    `ImportDecls.write` of several imports: "import (", a newline, the import
    table (indented), then ")"; of none, nothing.
   */
  lemma ImportGroupText(imports: seq<ImportDecl>)
    ensures |imports| == 0 ==> ImportsCmds(imports) == []
    ensures |imports| >= 2 ==>
      Plain(ImportsCmds(imports)) == "import (" + ("\n" + Plain(Tabulate(ImportRows(imports, AnyAlias(imports))))) + ")"
  {
    if |imports| >= 2 {
      var body := Tabulate(ImportRows(imports, AnyAlias(imports)));
      ImportGroupCmds(imports);
      GroupCmds("import (", body);
      PlainGroup("import (", body);
    }
  }

  lemma ImportGroupCmds(imports: seq<ImportDecl>)
    requires |imports| >= 2
    ensures ImportsCmds(imports) ==
      [Str("import ("), Newline, Indented(Tabulate(ImportRows(imports, AnyAlias(imports)))), Byte(')')]
  {
  }

  lemma GroupCmds(head: string, body: seq<Cmd>)
    ensures [Str(head), Newline, Indented(body), Byte(')')] == [Str(head)] + [Newline, Indented(body)] + [Byte(')')]
  {
  }

  /**
    The rows of an import table: one per import, in order, each ending in the
    quoted path; as soon as one import has an alias, every row has an alias
    column in front (empty for imports without one).
   */
  lemma ImportRowsColumns(imports: seq<ImportDecl>, withAlias: bool)
    ensures |ImportRows(imports, withAlias)| == |imports|
    ensures forall i :: 0 <= i < |imports| ==>
      var row := ImportRows(imports, withAlias)[i];
      row.pfx == "" && |row.cols| == (if withAlias then 2 else 1) &&
      row.cols[|row.cols| - 1] == Quote(imports[i].path) &&
      (withAlias ==> row.cols[0] == imports[i].alias)
  {
    ImportRowsAt(imports, withAlias);
  }

  /** The table has one row per import, in order. */
  lemma {:induction false} ImportRowsAt(imports: seq<ImportDecl>, withAlias: bool)
    ensures |ImportRows(imports, withAlias)| == |imports|
    ensures forall i :: 0 <= i < |imports| ==> ImportRows(imports, withAlias)[i] == ImportRow(imports[i], withAlias)
    decreases |imports|
  {
    if |imports| > 0 {
      var init := imports[..|imports| - 1];
      var rows := ImportRows(imports, withAlias);
      ImportRowsAt(init, withAlias);
      assert rows == ImportRows(init, withAlias) + [ImportRow(imports[|imports| - 1], withAlias)];
      forall i | 0 <= i < |imports|
        ensures rows[i] == ImportRow(imports[i], withAlias)
      {
        if i < |init| {
          assert rows[i] == ImportRows(init, withAlias)[i];
          assert init[i] == imports[i];
        }
      }
    }
  }

  /** The alias column is there exactly when some import has an alias. */
  lemma AliasColumn(imports: seq<ImportDecl>)
    ensures AnyAlias(imports) <==> exists i :: 0 <= i < |imports| && imports[i].alias != ""
    ensures !AnyAlias(imports) ==> forall i :: 0 <= i < |imports| ==> imports[i].alias == ""
  {
  }

  /**
    The row of one declaration of a var or const group: the rendered doc as
    prefix, then the columns id, type and, only when there is a value, "= value".
   */
  lemma VarRowColumns(v: VarDecl)
    ensures VarRow(v).pfx == Render(Some(CommentCmds(v.doc)))
    ensures |VarRow(v).cols| == (if v.value.Some? then 3 else 2)
    ensures VarRow(v).cols[0] == v.id && VarRow(v).cols[1] == Render(Some(TypeCmds(v.typ)))
    ensures v.value.Some? ==> VarRow(v).cols[2] == "= " + Render(Some(ExprCmds(v.value.value)))
  {
    RenderFlat(Some(IDCmds(v.id)));
    var cols := [Render(Some(IDCmds(v.id))), Render(Some(TypeCmds(v.typ)))];
    if v.value.Some? {
      var all := cols + ["= " + Render(Some(ExprCmds(v.value.value)))];
      assert VarRow(v).cols == all;
      assert all[..2] == cols;
    } else {
      assert VarRow(v).cols == cols;
    }
  }

  /**
    One var or const declaration on its line: the doc comment, the keyword
    and a space, the id, a space, the type, and " = value" only with a value.
   */
  lemma SingleVarText(kw: string, v: VarDecl)
    ensures Plain(VarsCmds(kw, [v])) ==
      Plain(CommentCmds(v.doc)) + (kw + " ") + v.id + " " + Plain(TypeCmds(v.typ)) +
      (if v.value.Some? then " = " + Plain(ExprCmds(v.value.value)) else "")
  {
    var value: seq<Cmd> := if v.value.Some? then [Str(" = ")] + ExprCmds(v.value.value) else [];
    Plain4(CommentCmds(v.doc), [Str(kw + " ")], IDCmds(v.id), [Space]);
    PlainAppend(CommentCmds(v.doc) + [Str(kw + " ")] + IDCmds(v.id) + [Space], TypeCmds(v.typ));
    PlainAppend(CommentCmds(v.doc) + [Str(kw + " ")] + IDCmds(v.id) + [Space] + TypeCmds(v.typ), value);
    PlainOne(Str(kw + " "));
    PlainOne(Space);
    PlainNone();
    if v.value.Some? {
      PlainPrefix(" = ", ExprCmds(v.value.value));
    }
  }

  /** A group of several vars or consts: the keyword, " (", a newline, the table (indented), ")". */
  lemma VarGroupText(kw: string, vars: seq<VarDecl>)
    requires |vars| >= 2
    ensures Plain(VarsCmds(kw, vars)) == (kw + " (") + ("\n" + Plain(Tabulate(VarRows(vars)))) + ")"
  {
    var body := Tabulate(VarRows(vars));
    assert VarsCmds(kw, vars) == [Str(kw + " (")] + [Newline, Indented(body)] + [Byte(')')];
    PlainGroup(kw + " (", body);
  }

  /** The text of each entry of a type group: its doc comment and its declaration. */
  function TypeDeclTexts(types: seq<TypeDecl>): (r: seq<string>)
  {
    seq(|types|, i requires 0 <= i < |types| => Plain(CommentCmds(types[i].doc)) + Plain(TypeDeclCmds(types[i])))
  }

  lemma {:induction false} TypeDeclLinesText(types: seq<TypeDecl>)
    ensures |types| > 0 ==> Plain(TypeDeclLinesCmds(types)) == Join(TypeDeclTexts(types), "\n\n") + "\n"
    decreases |types|
  {
    if |types| > 0 {
      var n := |types|;
      var init := types[..n - 1];
      var texts := TypeDeclTexts(types);
      var prev := Plain(TypeDeclLinesCmds(init));
      TypeDeclLinesText(init);
      assert texts[..n - 1] == TypeDeclTexts(init);
      if n == 1 {
        assert TypeDeclLinesCmds(init) == [];
        PlainNone();
      } else {
        assert prev == Join(texts[..n - 1], "\n\n") + "\n";
      }
      assert TypeDeclLinesCmds(types) == TypeDeclLinesCmds(init) + TypeEntryCmds(types[n - 1], n > 1);
      PlainAppend(TypeDeclLinesCmds(init), TypeEntryCmds(types[n - 1], n > 1));
      TypeEntryText(types[n - 1], n > 1);
      assert Plain(TypeEntryCmds(types[n - 1], n > 1)) == (if n > 1 then "\n" else "") + texts[n - 1] + "\n";
      BlankJoinStep(texts, prev);
    }
  }

  /** The text of one entry of a type group. */
  lemma TypeEntryText(t: TypeDecl, sep: bool)
    ensures Plain(TypeEntryCmds(t, sep)) ==
      (if sep then "\n" else "") + (Plain(CommentCmds(t.doc)) + Plain(TypeDeclCmds(t))) + "\n"
  {
    var s: seq<Cmd> := if sep then [Newline] else [];
    Plain4(s, CommentCmds(t.doc), TypeDeclCmds(t), [Newline]);
    PlainOne(Newline);
    PlainNone();
    Assoc(Plain(s), Plain(CommentCmds(t.doc)), Plain(TypeDeclCmds(t)));
  }

  /** A newline ending one entry and a newline opening the next make a blank line. */
  lemma BlankSep(a: string, last: string)
    ensures a + "\n" + ("\n" + last + "\n") == a + "\n\n" + last + "\n"
  {
    Assoc(a, "\n", "\n" + last + "\n");
    assert "\n" + ("\n" + last + "\n") == "\n\n" + last + "\n";
    assert "\n\n" + last + "\n" == "\n\n" + (last + "\n");
    Assoc(a, "\n\n", last + "\n");
    Assoc(a + "\n\n", last, "\n");
  }

  /** Appending one more entry to entries joined by blank lines. */
  lemma BlankJoinStep(texts: seq<string>, prev: string)
    requires |texts| >= 1
    requires |texts| == 1 ==> prev == ""
    requires |texts| > 1 ==> prev == Join(texts[..|texts| - 1], "\n\n") + "\n"
    ensures prev + ((if |texts| > 1 then "\n" else "") + texts[|texts| - 1] + "\n") == Join(texts, "\n\n") + "\n"
  {
    var last := texts[|texts| - 1];
    if |texts| > 1 {
      var a := Join(texts[..|texts| - 1], "\n\n");
      JoinSnoc(texts, "\n\n");
      BlankSep(a, last);
    }
  }

  /**
    A group of several type declarations: "type (", a newline, the entries each
    ending in a newline with a blank line between them (indented), then ")".
   */
  lemma TypeGroupText(types: seq<TypeDecl>)
    requires |types| >= 2
    ensures Plain(LocalDeclCmds(TypeDecls(types))) ==
      "type (" + ("\n" + (Join(TypeDeclTexts(types), "\n\n") + "\n")) + ")"
  {
    TypeGroupCmds(types);
    GroupCmds("type (", TypeDeclLinesCmds(types));
    PlainGroup("type (", TypeDeclLinesCmds(types));
    TypeDeclLinesText(types);
  }

  lemma TypeGroupCmds(types: seq<TypeDecl>)
    requires |types| >= 2
    ensures LocalDeclCmds(TypeDecls(types)) == [Str("type ("), Newline, Indented(TypeDeclLinesCmds(types)), Byte(')')]
  {
  }
}
