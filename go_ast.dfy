/**
  Expressions (go/expr.go) and types (go/type.go) of the unfinished go/
  rewrite, with their constructors and `write` methods.

  A `write` method is given as the writer calls it makes. None of them opens
  an indented block (`GoAstText.ExprFlat`): a call's arguments, for one, are
  always written inline.
 */
module GoAst {
  import opened Wrappers
  import opened CodeWriter
  import opened Strconv

  datatype Expr =
    | NilExpr
    | LitBoolExpr(b: bool)
    | LitRuneExpr(r: int)
    | LitIntExpr(i: int)
    | LitUintExpr(u: nat)
    | LitFloatExpr(formatted: string)   // the text strconv.FormatFloat gives
    | LitStringExpr(s: string)
    | RangeExpr(low: Option<Expr>, upp: Option<Expr>)
    | SymbolExpr(pkg: string, id: string, typeArgs: seq<Type>)
    | ParenExpr(expr: Expr)
    | MemberExpr(expr: Expr, id: string)
    | CallExpr(callee: Expr, args: seq<Expr>)
    | IndexExpr(expr: Expr, idx: Expr)
    | UnaryExpr(op: string, expr: Expr)

  datatype Type =
    | NamedType(pkg: string, id: string, args: seq<Type>)
    | PtrType(tgt: Type)
    | SliceType(size: Option<Expr>, itm: Type)
    | MapType(key: Type, itm: Type)

  // ---------------------------------------------------------------------------
  // Constructors (go/expr.go, go/type.go).

  const Nil: Expr := NilExpr
  const False: Expr := LitBoolExpr(false)
  const True: Expr := LitBoolExpr(true)

  function LitBool(value: bool): Expr { LitBoolExpr(value) }
  function LitRune(value: int): Expr { LitRuneExpr(value) }
  function LitInt(value: int): Expr { LitIntExpr(value) }
  function LitUint(value: nat): Expr { LitUintExpr(value) }
  function LitString(value: string): Expr { LitStringExpr(value) }
  function Range(lower: Option<Expr>, upper: Option<Expr>): Expr { RangeExpr(lower, upper) }

  /** `Symbol(id, args...)`: the package is left empty. */
  function Symbol(id: string, args: seq<Type>): Expr { SymbolExpr("", id, args) }

  function Paren(expr: Expr): Expr { ParenExpr(expr) }
  function Member(expr: Expr, id: string): Expr { MemberExpr(expr, id) }
  function Call(callee: Expr, args: seq<Expr>): Expr { CallExpr(callee, args) }
  function Index(expr: Expr, index: Expr): Expr { IndexExpr(expr, index) }

  const IdentityOp := "+"
  const NegateOp := "-"
  const NotOp := "!"
  const ComplOp := "^"
  const AddrOp := "&"
  const IndirOp := "*"

  function Identity(expr: Expr): Expr { UnaryExpr(IdentityOp, expr) }
  function Negate(expr: Expr): Expr { UnaryExpr(NegateOp, expr) }
  function Not(expr: Expr): Expr { UnaryExpr(NotOp, expr) }
  function Compl(expr: Expr): Expr { UnaryExpr(ComplOp, expr) }
  function AddrOf(expr: Expr): Expr { UnaryExpr(AddrOp, expr) }
  function Indirect(expr: Expr): Expr { UnaryExpr(IndirOp, expr) }

  /** `Named(id, args...)`: the package is left empty. */
  function Named(id: string, args: seq<Type>): Type { NamedType("", id, args) }
  function Ptr(target: Type): Type { PtrType(target) }
  function Slice(size: Option<Expr>, item: Type): Type { SliceType(size, item) }
  function Map(key: Type, item: Type): Type { MapType(key, item) }

  /** The predeclared types: a bare identifier each. */
  const PredeclaredIds: seq<string> := [
    "any", "bool", "byte", "rune", "int", "int8", "int16", "int32", "int64",
    "uint", "uint8", "uint16", "uint32", "uint64", "float32", "float64", "string"]

  function Predeclared(k: nat): Type
    requires k < |PredeclaredIds|
  {
    NamedType("", PredeclaredIds[k], [])
  }

  // ---------------------------------------------------------------------------
  // The `write` methods, as the writer calls they make.

  /** `write` of each expression. */
  function ExprCmds(e: Expr): seq<Cmd>
  {
    match e
    case NilExpr => [Str("nil")]
    case LitBoolExpr(b) => [Str(if b then "true" else "false")]
    case LitRuneExpr(r) => [Str(QuoteRune(r))]
    case LitIntExpr(i) => [Str(FormatInt(i))]
    case LitUintExpr(u) => [Str(Decimal(u))]
    case LitFloatExpr(formatted) => [Str(formatted)]
    case LitStringExpr(s) => [Str(Quote(s))]
    case RangeExpr(low, upp) =>
      (if low.Some? then ExprCmds(low.value) else []) + [Byte(':')] +
      (if upp.Some? then ExprCmds(upp.value) else [])
    case SymbolExpr(pkg, id, args) => QualifiedCmds(pkg, id) + TypeArgsCmds(args)
    case ParenExpr(x) => [Byte('(')] + ExprCmds(x) + [Byte(')')]
    case MemberExpr(x, id) => ExprCmds(x) + [Byte('.'), Str(id)]
    case CallExpr(callee, args) => ExprCmds(callee) + [Byte('(')] + ExprListCmds(args) + [Byte(')')]
    case IndexExpr(x, idx) => ExprCmds(x) + [Byte('[')] + ExprCmds(idx) + [Byte(']')]
    case UnaryExpr(op, x) => [Str(op)] + ExprCmds(x)
  }

  /** The loop over call arguments: the expressions separated by ", ". */
  function ExprListCmds(es: seq<Expr>): seq<Cmd>
    decreases es, 0
  {
    if |es| == 0 then []
    else ExprListCmds(es[..|es| - 1]) + (if |es| > 1 then [Str(", ")] else []) + ExprCmds(es[|es| - 1])
  }

  /** "pkg." when the package is not empty, then the identifier. */
  function QualifiedCmds(pkg: string, id: string): seq<Cmd>
  {
    (if pkg != "" then [Str(pkg), Byte('.')] else []) + [Str(id)]
  }

  /** `write` of each type. */
  function TypeCmds(t: Type): seq<Cmd>
  {
    match t
    case NamedType(pkg, id, args) => QualifiedCmds(pkg, id) + TypeArgsCmds(args)
    case PtrType(tgt) => [Byte('*')] + TypeCmds(tgt)
    case SliceType(size, itm) =>
      [Byte('[')] + (if size.Some? then ExprCmds(size.value) else []) + [Byte(']')] + TypeCmds(itm)
    case MapType(key, itm) => [Str("map[")] + TypeCmds(key) + [Byte(']')] + TypeCmds(itm)
  }

  /** The loop over generic arguments: the types separated by ", ". */
  function TypeListCmds(ts: seq<Type>): seq<Cmd>
    decreases ts, 0
  {
    if |ts| == 0 then []
    else TypeListCmds(ts[..|ts| - 1]) + (if |ts| > 1 then [Str(", ")] else []) + TypeCmds(ts[|ts| - 1])
  }

  /** Generic arguments: nothing when there are none, else "[" + the list + "]". */
  function TypeArgsCmds(args: seq<Type>): seq<Cmd>
    decreases args, 1
  {
    if |args| > 0 then [Byte('[')] + TypeListCmds(args) + [Byte(']')] else []
  }
}
