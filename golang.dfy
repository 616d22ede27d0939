/**
  The node catalogue of the golang/ package: expressions (golang/expr.go),
  types (golang/type.go), statements (golang/stmt.go) and declarations
  (golang/decl.go).

  Each Go interface (`Expr`, `Type`, `Stmt`, `Decl`) becomes a datatype whose
  variants are the structs implementing it.  A nil interface value the source
  tests for becomes an `Option`.  Every node has its `simple` predicate, which
  chooses between inline and block layout, and its `write` method, given as
  the list of writer calls it makes (`seq<Cmd>`, performed by `Writer.Do`).
  The four node families refer to one another, so they live in one module.
 */
module Golang {
  import opened Wrappers
  import opened Text
  import opened CodeWriter
  import opened Strconv
  import opened Tables
  import opened GolangBase

  // ---------------------------------------------------------------------------
  // golang/expr.go

  datatype Expr =
    | NilExpr
    | BoolExpr(b: bool)
    | RuneExpr(r: int)
    | IntExpr(i: int)
    | UintExpr(u: nat)
    | FloatExpr(formatted: string)   // the text strconv.FormatFloat gives for the value
    | StringExpr(s: string)
    | StructExpr(typ: Option<Type>, fields: seq<StructExprField>)
    | MapExpr(typ: Option<Type>, values: seq<MapExprValue>)
    | FuncExpr(params: seq<Param>, ret: seq<Param>, body: seq<Stmt>)
    | SymbolExpr(id: string, pkg: string, genArgs: seq<Type>)
    | MemberExpr(operand: Expr, member: string)
    | CallExpr(callee: Expr, args: seq<Expr>)
    | UnaryExpr(unOp: string, operand: Expr)
    | BinaryExpr(binOp: string, lhs: Expr, rhs: Expr)

  datatype StructExprField = StructExprField(id: string, value: Expr)

  datatype MapExprValue = MapExprValue(key: Expr, value: Expr)

  const Identity := "+"
  const Negate := "-"
  const Not := "!"
  const Compl := "^"
  const AddrOf := "&"
  const Deref := "*"

  const Multiply := "*"
  const Divide := "/"
  const Remainder := "%"
  const Add := "+"
  const Subtract := "-"
  const ShiftLeft := "<<"
  const ShiftRight := ">>"
  const BitAnd := "&"
  const BitXor := "^"
  const BitOr := "|"
  const Equal := "=="
  const NotEqual := "!="
  const LessThan := "<"
  const LessEqual := "<="
  const MoreThan := ">"
  const MoreEqual := ">="
  const LogAnd := "&&"
  const LogOr := "||"

  const Nil: Expr := NilExpr
  const False: Expr := BoolExpr(false)
  const True: Expr := BoolExpr(true)
  const Ignore: Expr := SymbolExpr("_", "", [])

  // ---------------------------------------------------------------------------
  // golang/type.go

  datatype Type =
    | NamedType(pkg: string, id: string, args: seq<Type>)
    | PtrType(target: Type)
    | SliceType(len: Option<Expr>, item: Type)
    | MapType(key: Type, val: Type)
    | StructType(fields: seq<Field>)
    | InterfaceType(consts: seq<TypeConst>, funcs: seq<InterfaceFunc>)
    | FuncType(params: seq<Param>, ret: seq<Param>)

  datatype Field = Field(doc: string, id: string, typ: Type, tags: seq<Tag>)

  datatype Tag = Tag(name: string, val: string)

  datatype TypeConst = TypeConst(derived: bool, typ: Type)

  datatype InterfaceFunc = InterfaceFunc(id: string, params: seq<Param>, ret: seq<Param>)

  const AnyType: Type := NamedType("", "any", [])
  const BoolType: Type := NamedType("", "bool", [])
  const ByteType: Type := NamedType("", "byte", [])
  const RuneType: Type := NamedType("", "rune", [])
  const IntType: Type := NamedType("", "int", [])
  const Int8Type: Type := NamedType("", "int8", [])
  const Int16Type: Type := NamedType("", "int16", [])
  const Int32Type: Type := NamedType("", "int32", [])
  const Int64Type: Type := NamedType("", "int64", [])
  const UintType: Type := NamedType("", "uint", [])
  const Uint8Type: Type := NamedType("", "uint8", [])
  const Uint16Type: Type := NamedType("", "uint16", [])
  const Uint32Type: Type := NamedType("", "uint32", [])
  const Uint64Type: Type := NamedType("", "uint64", [])
  const Float32Type: Type := NamedType("", "float32", [])
  const Float64Type: Type := NamedType("", "float64", [])
  const StringType: Type := NamedType("", "string", [])

  // ---------------------------------------------------------------------------
  // golang/stmt.go

  /** `AssignStmt`; also the optional init clause of an `if`. */
  datatype Assignment = Assignment(dest: seq<Expr>, src: seq<Expr>, op: string)

  const Assign := "="
  const DeclAssign := ":="
  const AddAssign := "+="
  const SubAssign := "-="

  datatype Stmt =
    | AssignStmt(assign: Assignment)
    | BlockStmt(stmts: seq<Stmt>)
    | BreakStmt
    | ContinueStmt
    | ExprStmt(expr: Expr)
    | IfStmt(ifStmt: If)
    | ReturnStmt(value: Option<Expr>)
    | DeclStmt(decl: LocalDecl)   // the declaration groups that are statements too

  datatype If = If(init: Option<Assignment>, cond: Expr, body: seq<Stmt>, els: Option<Else>)

  /** `ElseStmt`: only a block or another `if` may follow `else`. */
  datatype Else = ElseBlock(stmts: seq<Stmt>) | ElseIf(elseIf: If)

  // ---------------------------------------------------------------------------
  // golang/decl.go

  /** The declarations that implement `Stmt` as well as `Decl`. */
  datatype LocalDecl =
    | TypeDecls(types: seq<TypeDecl>)
    | FuncDecl(fn: Func)
    | VarDecls(vars: seq<VarDecl>)
    | ConstDecls(consts: seq<VarDecl>)

  datatype Decl =
    | CommentDecl(text: string)
    | PackageDecl(name: string)
    | ImportDecls(imports: seq<ImportDecl>)
    | Local(local: LocalDecl)

  datatype ImportDecl = ImportDecl(path: string, alias: string)

  datatype TypeDecl = TypeDecl(doc: string, id: string, params: seq<GenParam>, typ: Type)

  datatype Func = Func(doc: string, rcv: Option<Param>, id: string, genParams: seq<GenParam>,
                       params: seq<Param>, ret: seq<Param>, body: seq<Stmt>)

  datatype VarDecl = VarDecl(doc: string, id: string, typ: Type, value: Option<Expr>)

  datatype GenParam = GenParam(id: string, constraint: TypeConst)

  datatype Param = Param(id: string, variadic: bool, typ: Type)

  // ---------------------------------------------------------------------------
  // The `simple` predicates.

  /** `simpleExpr`. */
  predicate SimpleExpr(e: Expr)
  {
    match e
    case StructExpr(_, fields) => |fields| < 1
    case MapExpr(_, values) => |values| < 1
    case FuncExpr(_, _, body) => SimpleBlock(body)
    case MemberExpr(x, _) => SimpleExpr(x)
    case CallExpr(f, args) => SimpleExpr(f) && SimpleExprs(args)
    case UnaryExpr(_, x) => SimpleExpr(x)
    case BinaryExpr(_, l, r) => SimpleExpr(l) && SimpleExpr(r)
    case _ => true
  }

  /** `Exprs.simple` and `Args.simple`. */
  predicate SimpleExprs(es: seq<Expr>)
  {
    forall i | 0 <= i < |es| :: SimpleExpr(es[i])
  }

  /** `simpleType`. */
  predicate SimpleType(t: Type)
  {
    match t
    case NamedType(_, _, args) => SimpleTypes(args)
    case PtrType(target) => SimpleType(target)
    case SliceType(len, item) => (len.None? || SimpleExpr(len.value)) && SimpleType(item)
    case MapType(k, v) => SimpleType(k) && SimpleType(v)
    case StructType(fields) => |fields| < 1
    case InterfaceType(consts, funcs) => |consts| < 1 && |funcs| < 1
    case FuncType(params, ret) => SimpleParams(params) && SimpleParams(ret)
  }

  /** `GenArgs.simple`. */
  predicate SimpleTypes(ts: seq<Type>)
  {
    forall i | 0 <= i < |ts| :: SimpleType(ts[i])
  }

  /** `Params.simple` and `Return.simple`: every parameter's type is simple. */
  predicate SimpleParams(ps: seq<Param>)
  {
    forall i | 0 <= i < |ps| :: SimpleType(ps[i].typ)
  }

  /** `simpleStmt`. */
  predicate SimpleStmt(s: Stmt)
  {
    match s
    case AssignStmt(a) => SimpleAssign(a)
    case BlockStmt(stmts) => SimpleBlock(stmts)
    case BreakStmt => true
    case ContinueStmt => true
    case ExprStmt(e) => SimpleExpr(e)
    case IfStmt(i) => SimpleIf(i)
    case ReturnStmt(v) => v.None? || SimpleExpr(v.value)
    case DeclStmt(d) => SimpleLocalDecl(d)
  }

  predicate SimpleAssign(a: Assignment)
  {
    SimpleExprs(a.dest) && SimpleExprs(a.src)
  }

  /** `BlockStmt.simpleStmt`: empty, or its FIRST statement is simple; the others are not looked at. */
  predicate SimpleBlock(stmts: seq<Stmt>)
  {
    |stmts| == 0 || SimpleStmt(stmts[0])
  }

  predicate SimpleIf(i: If)
  {
    (i.init.None? || SimpleAssign(i.init.value)) &&
    SimpleExpr(i.cond) && SimpleBlock(i.body) &&
    (i.els.None? || SimpleElse(i.els.value))
  }

  predicate SimpleElse(e: Else)
  {
    match e
    case ElseBlock(stmts) => SimpleBlock(stmts)
    case ElseIf(i) => SimpleIf(i)
  }

  /** `simpleDecl` (equal to `simpleStmt`) of the groups that are statements. */
  predicate SimpleLocalDecl(d: LocalDecl)
  {
    match d
    case TypeDecls(types) => |types| == 0 || (|types| == 1 && SimpleType(types[0].typ))
    case FuncDecl(f) =>
      (f.rcv.None? || SimpleType(f.rcv.value.typ)) &&
      SimpleParams(f.params) && SimpleParams(f.ret) && SimpleBlock(f.body)
    case VarDecls(vars) => |vars| == 0 || (|vars| == 1 && SimpleVarDecl(vars[0]))
    case ConstDecls(consts) => |consts| == 0 || (|consts| == 1 && SimpleVarDecl(consts[0]))
  }

  /** `VarDecl.simple`. */
  predicate SimpleVarDecl(v: VarDecl)
  {
    SimpleType(v.typ) && (v.value.None? || SimpleExpr(v.value.value))
  }

  /** `simpleDecl`: a comment never, a package clause always, imports when fewer than two. */
  predicate SimpleDecl(d: Decl)
  {
    match d
    case CommentDecl(_) => false
    case PackageDecl(_) => true
    case ImportDecls(imports) => |imports| < 2
    case Local(l) => SimpleLocalDecl(l)
  }

  // ---------------------------------------------------------------------------
  // The `write` methods, as the writer calls they make.

  /** `write` of each expression. */
  function ExprCmds(e: Expr): seq<Cmd>
    decreases e, 0
  {
    match e
    case NilExpr => [Str("nil")]
    case BoolExpr(b) => [Str(if b then "true" else "false")]
    case RuneExpr(r) => [Str(QuoteRune(r))]
    case IntExpr(i) => [Str(FormatInt(i))]
    case UintExpr(u) => [Str(Decimal(u))]
    case FloatExpr(formatted) => [Str(formatted)]
    case StringExpr(s) => [Str(Quote(s))]
    case StructExpr(typ, fields) =>
      (if typ.Some? then TypeCmds(typ.value) else []) + [Byte('{')] +
      (if |fields| > 0 then [Newline, Indented(FieldValuesCmds(fields))] else []) +
      [Byte('}')]
    case MapExpr(typ, values) =>
      (if typ.Some? then TypeCmds(typ.value) else []) + [Byte('{')] +
      (if |values| > 0 then [Newline, Indented(MapValuesCmds(values))] else []) +
      [Byte('}')]
    case FuncExpr(params, ret, body) =>
      [Str("func ")] + ParamsCmds(params) + ReturnCmds(ret) + [Space] + BlockCmds(body)
    case SymbolExpr(id, pkg, args) =>
      (if pkg != "" then [Str(pkg), Byte('.')] else []) + IDCmds(id) + GenArgsCmds(args)
    case MemberExpr(x, id) => ExprCmds(x) + [Byte('.')] + IDCmds(id)
    case CallExpr(f, args) => ExprCmds(f) + ArgsCmds(args)
    case UnaryExpr(op, x) => [Str(op)] + ExprCmds(x)
    case BinaryExpr(op, l, r) => ExprCmds(l) + [Space, Str(op), Space] + ExprCmds(r)
  }

  /** The lines of a struct literal: "id: value," each. */
  function FieldValuesCmds(fields: seq<StructExprField>): seq<Cmd>
  {
    if |fields| == 0 then []
    else
      var f := fields[|fields| - 1];
      FieldValuesCmds(fields[..|fields| - 1]) + IDCmds(f.id) + [Str(": ")] + ExprCmds(f.value) + [Byte(','), Newline]
  }

  /** One line of a map literal: "key: value,". */
  function MapValueCmds(v: MapExprValue): seq<Cmd>
  {
    ExprCmds(v.key) + [Str(": ")] + ExprCmds(v.value) + [Byte(','), Newline]
  }

  /** The lines of a map literal. */
  function MapValuesCmds(values: seq<MapExprValue>): seq<Cmd>
  {
    if |values| == 0 then [] else MapValuesCmds(values[..|values| - 1]) + MapValueCmds(values[|values| - 1])
  }

  /** `Exprs.write`, and the inline form of `Args.write`: the expressions separated by ", ". */
  function ExprsCmds(es: seq<Expr>): seq<Cmd>
    decreases es, 0
  {
    if |es| == 0 then []
    else ExprsCmds(es[..|es| - 1]) + (if |es| > 1 then [Str(", ")] else []) + ExprCmds(es[|es| - 1])
  }

  /** The block form of `Args.write`: each argument, then "," and a newline. */
  function ArgLinesCmds(args: seq<Expr>): seq<Cmd>
    decreases args, 0
  {
    if |args| == 0 then []
    else ArgLinesCmds(args[..|args| - 1]) + ArgLineCmds(args[|args| - 1])
  }

  /** One line of the block form: the argument, then "," and a newline. */
  function ArgLineCmds(arg: Expr): seq<Cmd>
    decreases arg, 1
  {
    ExprCmds(arg) + [Byte(','), Newline]
  }

  /** `Args.write`: inline when every argument is simple, one argument per line otherwise. */
  function ArgsCmds(args: seq<Expr>): seq<Cmd>
    decreases args, 1
  {
    [Byte('(')] +
    (if SimpleExprs(args) then ExprsCmds(args) else [Newline, Indented(ArgLinesCmds(args))]) +
    [Byte(')')]
  }

  /** `write` of each type. */
  function TypeCmds(t: Type): seq<Cmd>
  {
    match t
    case NamedType(pkg, id, args) =>
      (if pkg != "" then [Str(pkg), Byte('.')] else []) + IDCmds(id) + GenArgsCmds(args)
    case PtrType(target) => [Byte('*')] + TypeCmds(target)
    case SliceType(len, item) =>
      [Byte('[')] + (if len.Some? then ExprCmds(len.value) else []) + [Byte(']')] + TypeCmds(item)
    case MapType(k, v) => [Str("map[")] + TypeCmds(k) + [Byte(']')] + TypeCmds(v)
    case StructType(fields) =>
      [Str("struct {")] +
      (if |fields| > 0 then [Newline, Indented(Tabulate(FieldRows(fields)))] else []) +
      [Byte('}')]
    case InterfaceType(consts, funcs) =>
      [Str("interface {")] +
      (if |consts| > 0 || |funcs| > 0 then
         [Newline, Indented(TypeConstsCmds(consts) +
                            (if |consts| > 0 && |funcs| > 0 then [Newline] else []) +
                            InterfaceFuncsCmds(funcs))]
       else []) +
      [Byte('}')]
    case FuncType(params, ret) => [Str("func")] + ParamsCmds(params) + ReturnCmds(ret)
  }

  /** The table row of one struct field: doc as prefix, then id, type and tags. */
  function FieldRow(f: Field): TableRow
  {
    var col1 := Render(Some(IDCmds(f.id)));
    var col2 := Render(Some(TypeCmds(f.typ)));
    var col3 := Render(Some(TagsCmds(f.tags)));
    var cols :=
      if col1 == "" then [col2] + (if col3 != "" then ["", col3] else [])
      else [col1, col2] + (if col3 != "" then [col3] else []);
    TableRow(Render(Some(CommentCmds(f.doc))), cols)
  }

  function FieldRows(fields: seq<Field>): seq<TableRow>
  {
    if |fields| == 0 then [] else FieldRows(fields[..|fields| - 1]) + [FieldRow(fields[|fields| - 1])]
  }

  /** The types separated by ", ". */
  function TypeListCmds(ts: seq<Type>): seq<Cmd>
    decreases ts, 0
  {
    if |ts| == 0 then []
    else TypeListCmds(ts[..|ts| - 1]) + (if |ts| > 1 then [Str(", ")] else []) + TypeCmds(ts[|ts| - 1])
  }

  /** `GenArgs.write`: nothing when empty, else "[" + the types separated by ", " + "]". */
  function GenArgsCmds(args: seq<Type>): seq<Cmd>
    decreases args, 1
  {
    if |args| < 1 then [] else [Byte('[')] + TypeListCmds(args) + [Byte(']')]
  }

  /** `TypeConst.write`: "~" before a derived constraint. */
  function TypeConstCmds(c: TypeConst): seq<Cmd>
  {
    (if c.derived then [Byte('~')] else []) + TypeCmds(c.typ)
  }

  /** `TypeConsts.write`: the constraints separated by " | ". */
  function TypeConstsCmds(consts: seq<TypeConst>): seq<Cmd>
  {
    if |consts| == 0 then []
    else
      TypeConstsCmds(consts[..|consts| - 1]) + (if |consts| > 1 then [Str(" | ")] else []) +
      TypeConstCmds(consts[|consts| - 1])
  }

  /** `InterfaceFunc.write`. */
  function InterfaceFuncCmds(f: InterfaceFunc): seq<Cmd>
  {
    IDCmds(f.id) + ParamsCmds(f.params) + ReturnCmds(f.ret)
  }

  /** `InterfaceFuncs.write`: each method followed by a newline. */
  function InterfaceFuncsCmds(funcs: seq<InterfaceFunc>): seq<Cmd>
  {
    if |funcs| == 0 then []
    else InterfaceFuncsCmds(funcs[..|funcs| - 1]) + InterfaceFuncCmds(funcs[|funcs| - 1]) + [Newline]
  }

  /** `Tag.write`: name, ':', the quoted value. */
  function TagCmds(t: Tag): seq<Cmd>
  {
    [Str(t.name), Byte(':'), Str(Quote(t.val))]
  }

  /** The tags separated by spaces. */
  function TagListCmds(tags: seq<Tag>): seq<Cmd>
  {
    if |tags| == 0 then []
    else TagListCmds(tags[..|tags| - 1]) + (if |tags| > 1 then [Space] else []) + TagCmds(tags[|tags| - 1])
  }

  /** `Tags.write`: nothing when empty, else the tags between backquotes. */
  function TagsCmds(tags: seq<Tag>): seq<Cmd>
  {
    if |tags| < 1 then [] else [Byte('`')] + TagListCmds(tags) + [Byte('`')]
  }

  /** `write` of each statement. */
  function StmtCmds(s: Stmt): seq<Cmd>
  {
    match s
    case AssignStmt(a) => AssignCmds(a)
    case BlockStmt(stmts) => BlockCmds(stmts)
    case BreakStmt => [Str("break")]
    case ContinueStmt => [Str("continue")]
    case ExprStmt(e) => ExprCmds(e)
    case IfStmt(i) => IfCmds(i)
    case ReturnStmt(v) => [Str("return")] + (if v.Some? then [Space] + ExprCmds(v.value) else [])
    case DeclStmt(d) => LocalDeclCmds(d)
  }

  /** `AssignStmt.write`: destinations, " op ", sources. */
  function AssignCmds(a: Assignment): seq<Cmd>
  {
    ExprsCmds(a.dest) + [Space, Str(a.op), Space] + ExprsCmds(a.src)
  }

  /** The statements of a block laid out as lines, a blank line between consecutive ones. */
  function BlockLinesCmds(stmts: seq<Stmt>): seq<Cmd>
    decreases stmts, 0
  {
    if |stmts| == 0 then []
    else
      BlockLinesCmds(stmts[..|stmts| - 1]) + (if |stmts| > 1 then [Newline] else []) +
      StmtCmds(stmts[|stmts| - 1]) + [Newline]
  }

  /** `BlockStmt.write`: "{}", "{ stmt }" for one simple statement, an indented block otherwise. */
  function BlockCmds(stmts: seq<Stmt>): seq<Cmd>
    decreases stmts, 1
  {
    [Byte('{')] +
    (if |stmts| == 0 then []
     else if |stmts| == 1 && SimpleStmt(stmts[0]) then [Space] + StmtCmds(stmts[0]) + [Space]
     else [Newline, Indented(BlockLinesCmds(stmts))]) +
    [Byte('}')]
  }

  /** `IfStmt.write`. */
  function IfCmds(i: If): seq<Cmd>
  {
    [Str("if ")] +
    (if i.init.Some? then AssignCmds(i.init.value) + [Str("; ")] else []) +
    ExprCmds(i.cond) + [Space] + BlockCmds(i.body) +
    (if i.els.Some? then [Str(" else ")] + ElseCmds(i.els.value) else [])
  }

  function ElseCmds(e: Else): seq<Cmd>
  {
    match e
    case ElseBlock(stmts) => BlockCmds(stmts)
    case ElseIf(i) => IfCmds(i)
  }

  /** `write` of the declaration groups that are statements. */
  function LocalDeclCmds(d: LocalDecl): seq<Cmd>
  {
    match d
    case TypeDecls(types) =>
      if |types| == 0 then []
      else if |types| == 1 then
        CommentCmds(types[0].doc) + [Str("type ")] + TypeDeclCmds(types[0])
      else
        [Str("type ("), Newline, Indented(TypeDeclLinesCmds(types)), Byte(')')]
    case FuncDecl(f) => FuncCmds(f)
    case VarDecls(vars) => VarsCmds("var", vars)
    case ConstDecls(consts) => VarsCmds("const", consts)
  }

  /** One type declaration after its keyword: id, generic parameters, a space, the type. */
  function TypeDeclCmds(t: TypeDecl): seq<Cmd>
    decreases t, 0
  {
    IDCmds(t.id) + GenParamsCmds(t.params) + [Space] + TypeCmds(t.typ)
  }

  /** The entries of a `type (` group: each with its doc and a newline, a blank line between. */
  function TypeDeclLinesCmds(types: seq<TypeDecl>): seq<Cmd>
  {
    if |types| == 0 then []
    else
      TypeDeclLinesCmds(types[..|types| - 1]) + TypeEntryCmds(types[|types| - 1], |types| > 1)
  }

  /** One entry of a `type (` group: a blank line first unless it is the first, its doc, itself, a newline. */
  function TypeEntryCmds(t: TypeDecl, sep: bool): seq<Cmd>
    decreases t, 1
  {
    (if sep then [Newline] else []) + CommentCmds(t.doc) + TypeDeclCmds(t) + [Newline]
  }

  /** The receiver of a method, in parentheses and followed by a space; nothing for a function. */
  function ReceiverCmds(rcv: Option<Param>): seq<Cmd>
  {
    if rcv.Some? then [Byte('(')] + ParamCmds(rcv.value) + [Str(") ")] else []
  }

  /** `FuncDecl.write`. */
  function FuncCmds(f: Func): seq<Cmd>
  {
    CommentCmds(f.doc) + [Str("func ")] + ReceiverCmds(f.rcv) + IDCmds(f.id) + GenParamsCmds(f.genParams) + ParamsCmds(f.params) + ReturnCmds(f.ret) +
    [Space] + BlockCmds(f.body)
  }

  /**
    `VarDecls.write` (keyword "var") and `ConstDecls.write` (keyword "const"):
    nothing, one declaration on its line, or a table inside `kw (` ... `)`.
   */
  function VarsCmds(kw: string, vars: seq<VarDecl>): seq<Cmd>
    decreases vars, 1
  {
    if |vars| == 0 then []
    else if |vars| == 1 then
      var v := vars[0];
      CommentCmds(v.doc) + [Str(kw + " ")] + IDCmds(v.id) + [Space] + TypeCmds(v.typ) +
      (if v.value.Some? then [Str(" = ")] + ExprCmds(v.value.value) else [])
    else
      [Str(kw + " ("), Newline, Indented(Tabulate(VarRows(vars))), Byte(')')]
  }

  /** The table row of one declaration in a group: doc as prefix, then id, type and "= value". */
  function VarRow(v: VarDecl): TableRow
  {
    var cols := [Render(Some(IDCmds(v.id))), Render(Some(TypeCmds(v.typ)))];
    TableRow(Render(Some(CommentCmds(v.doc))),
             if v.value.Some? then cols + ["= " + Render(Some(ExprCmds(v.value.value)))] else cols)
  }

  /** The rows of a group: one per declaration, in order. */
  function VarRows(vars: seq<VarDecl>): seq<TableRow>
    decreases vars, 0
  {
    seq(|vars|, i requires 0 <= i < |vars| => VarRow(vars[i]))
  }

  /** `GenParam.write`: id, a space, the constraint. */
  function GenParamCmds(p: GenParam): seq<Cmd>
  {
    IDCmds(p.id) + [Space] + TypeConstCmds(p.constraint)
  }

  function GenParamListCmds(ps: seq<GenParam>): seq<Cmd>
    decreases ps, 0
  {
    if |ps| == 0 then []
    else GenParamListCmds(ps[..|ps| - 1]) + (if |ps| > 1 then [Str(", ")] else []) + GenParamCmds(ps[|ps| - 1])
  }

  /** `GenParams.write`: nothing when empty, else "[" + the parameters separated by ", " + "]". */
  function GenParamsCmds(ps: seq<GenParam>): seq<Cmd>
    decreases ps, 1
  {
    if |ps| < 1 then [] else [Byte('[')] + GenParamListCmds(ps) + [Byte(']')]
  }

  /** `Param.write`: id, "..." when variadic, a space, the type. */
  function ParamCmds(p: Param): seq<Cmd>
  {
    IDCmds(p.id) + (if p.variadic then [Str("...")] else []) + [Space] + TypeCmds(p.typ)
  }

  /** The parameters separated by ", ". */
  function ParamListCmds(ps: seq<Param>): seq<Cmd>
    decreases ps, 0
  {
    if |ps| == 0 then []
    else ParamListCmds(ps[..|ps| - 1]) + (if |ps| > 1 then [Str(", ")] else []) + ParamCmds(ps[|ps| - 1])
  }

  /** `Params.write`: always parenthesised. */
  function ParamsCmds(ps: seq<Param>): seq<Cmd>
    decreases ps, 1
  {
    [Byte('(')] + ParamListCmds(ps) + [Byte(')')]
  }

  /** `Return.write`: nothing, " T" for one unnamed result, " (" + results + ")" otherwise. */
  function ReturnCmds(ps: seq<Param>): seq<Cmd>
    decreases ps, 1
  {
    if |ps| < 1 then []
    else if |ps| == 1 && ps[0].id == "" then [Space] + TypeCmds(ps[0].typ)
    else [Space, Byte('(')] + ParamListCmds(ps) + [Byte(')')]
  }

  /** `write` of every declaration. */
  function DeclCmds(d: Decl): seq<Cmd>
  {
    match d
    case CommentDecl(text) => CommentCmds(text)
    case PackageDecl(name) => [Str("package "), Str(name)]
    case ImportDecls(imports) => ImportsCmds(imports)
    case Local(l) => LocalDeclCmds(l)
  }

  /** Whether some import of the group has an alias (the `alias` flag of `ImportDecls.write`). */
  predicate AnyAlias(imports: seq<ImportDecl>)
  {
    exists k :: 0 <= k < |imports| && imports[k].alias != ""
  }

  /** The table row of one import in a group: [alias, quoted path] or [quoted path]. */
  function ImportRow(imp: ImportDecl, withAlias: bool): TableRow
  {
    TableRow("", if withAlias then [imp.alias, Quote(imp.path)] else [Quote(imp.path)])
  }

  function ImportRows(imports: seq<ImportDecl>, withAlias: bool): seq<TableRow>
  {
    if |imports| == 0 then []
    else ImportRows(imports[..|imports| - 1], withAlias) + [ImportRow(imports[|imports| - 1], withAlias)]
  }

  /** `ImportDecls.write`. */
  function ImportsCmds(imports: seq<ImportDecl>): seq<Cmd>
  {
    if |imports| == 0 then []
    else if |imports| == 1 then
      [Str("import ")] +
      (if imports[0].alias != "" then [Str(imports[0].alias), Space] else []) +
      [Str(Quote(imports[0].path))]
    else
      [Str("import ("), Newline, Indented(Tabulate(ImportRows(imports, AnyAlias(imports)))), Byte(')')]
  }
}
