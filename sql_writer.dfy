/**
  The SQL writers: sql/dialect.go, sql/postgres.go, sql/sqlserver.go,
  sql/names.go, sql/expr.go, sql/item.go and the writing half of sql/query.go.

  An `sql.Writer` is a code writer paired with a dialect; here the methods take
  the writer and the dialect side by side.  The two dialects share
  `DialectBase` and differ only in how a name is quoted.
 */
module SqlWriter {
  import opened Wrappers
  import opened Text
  import opened CodeWriter
  import opened Tables
  import opened SqlCond

  datatype Dialect = Postgres | SQLServer

  // ---------------------------------------------------------------------------
  // Lists with a separator

  /** The separator written before the item at position `idx`: none before the first. */
  function SepCmds(idx: nat, sep: string): seq<Cmd>
  {
    if idx > 0 then [Str(sep)] else []
  }

  /** Items written one after the other with `sep` between consecutive ones. */
  function Joined(parts: seq<seq<Cmd>>, sep: string): seq<Cmd>
  {
    if |parts| == 0 then []
    else Joined(parts[..|parts| - 1], sep) + SepCmds(|parts| - 1, sep) + parts[|parts| - 1]
  }

  /** The plain text of each item. */
  function Plains(parts: seq<seq<Cmd>>): (texts: seq<string>)
    ensures |texts| == |parts|
  {
    seq(|parts|, i requires 0 <= i < |parts| => Plain(parts[i]))
  }

  /** One more item of a separated list. */
  lemma JoinedStep(st: State, parts: seq<seq<Cmd>>, k: nat, sep: string)
    requires k < |parts|
    ensures Exec(Exec(Exec(st, Joined(parts[..k], sep)), SepCmds(k, sep)), parts[k])
      == Exec(st, Joined(parts[..k + 1], sep))
  {
    var prev := Joined(parts[..k], sep);
    assert parts[..k + 1][..k] == parts[..k];
    assert Joined(parts[..k + 1], sep) == prev + SepCmds(k, sep) + parts[k];
    ExecAppend(st, prev + SepCmds(k, sep), parts[k]);
    ExecAppend(st, prev, SepCmds(k, sep));
  }

  /** A separator before an item: `WriteString(sep)` from the second item on. */
  lemma SepExec(st: State, idx: nat, sep: string)
    ensures Exec(st, SepCmds(idx, sep)) == if idx > 0 then AfterWriteString(st, sep) else st
  {
    if idx > 0 {
      ExecStr(st, [], sep);
      assert [] + [Str(sep)] == [Str(sep)];
    }
  }

  /** A separated list writes the items' texts joined by the separator: exactly one separator between two items. */
  lemma {:induction false} JoinedText(parts: seq<seq<Cmd>>, sep: string)
    ensures Plain(Joined(parts, sep)) == Join(Plains(parts), sep)
    decreases |parts|
  {
    if |parts| > 0 {
      var n := |parts|;
      var init := parts[..n - 1];
      JoinedText(init, sep);
      assert Plains(parts)[..n - 1] == Plains(init);
      PlainJoinStep(Joined(init, sep), sep, parts[n - 1], Plains(parts));
    }
  }

  /** A separated list opens an indented block only if one of its items does. */
  lemma {:induction false} JoinedFlat(parts: seq<seq<Cmd>>, sep: string)
    requires forall i :: 0 <= i < |parts| ==> Flat(parts[i])
    ensures Flat(Joined(parts, sep))
    decreases |parts|
  {
    if |parts| > 0 {
      var n := |parts|;
      var init := parts[..n - 1];
      assert forall i :: 0 <= i < |init| ==> init[i] == parts[i];
      JoinedFlat(init, sep);
      FlatAppend(Joined(init, sep), SepCmds(n - 1, sep));
      FlatAppend(Joined(init, sep) + SepCmds(n - 1, sep), parts[n - 1]);
    }
  }

  /** Each item adds its calls, each separator one call: n items with one-call items give 2n - 1 calls. */
  lemma {:induction false} JoinedLength(parts: seq<seq<Cmd>>, sep: string)
    requires forall i :: 0 <= i < |parts| ==> |parts[i]| == 1
    ensures |Joined(parts, sep)| == if |parts| == 0 then 0 else 2 * |parts| - 1
    decreases |parts|
  {
    if |parts| > 0 {
      var init := parts[..|parts| - 1];
      assert forall i :: 0 <= i < |init| ==> init[i] == parts[i];
      JoinedLength(init, sep);
    }
  }

  // ---------------------------------------------------------------------------
  // Rendering an item to a string (sql/item.go)

  /** `Render(d, item)`: the text the item's calls write on a fresh writer with the indent string "\t". */
  function Render(cmds: seq<Cmd>): string
  {
    Exec(NewState("\t"), cmds).out
  }

  /** An item that opens no indented block renders as its plain text. */
  lemma RenderFlat(cmds: seq<Cmd>)
    requires Flat(cmds)
    ensures Render(cmds) == Plain(cmds)
  {
    ExecFlat(NewState("\t"), cmds);
  }

  /** `Render`: performs the item's calls on a writer of its own and returns what was written. */
  method RenderItem(cmds: seq<Cmd>) returns (text: string)
    ensures text == Render(cmds)
  {
    var w := new Writer("\t");
    w.Do(cmds);
    text := w.out;
  }

  // ---------------------------------------------------------------------------
  // Names (sql/names.go, sql/postgres.go, sql/sqlserver.go)

  /** What `WriteName` emits: the name between double quotes (PostgreSQL) or brackets (SQL Server), verbatim. */
  function QuotedName(d: Dialect, name: string): (q: string)
  {
    match d
    case Postgres => "\"" + name + "\""
    case SQLServer => "[" + name + "]"
  }

  /** The inverse of the quoting: the text between the dialect's delimiters. */
  function UnquoteName(d: Dialect, q: string): (name: Option<string>)
  {
    var (o, c) := match d
      case Postgres => ('"', '"')
      case SQLServer => ('[', ']');
    if |q| >= 2 && q[0] == o && q[|q| - 1] == c then Some(q[1..|q| - 1]) else None
  }

  /** Quoting is undone by unquoting, and every text that unquotes is the quoting of what it unquotes to. */
  lemma QuoteRoundTrip(d: Dialect, name: string, q: string)
    ensures UnquoteName(d, QuotedName(d, name)) == Some(name)
    ensures UnquoteName(d, q) == Some(name) ==> QuotedName(d, name) == q
  {
    var t := QuotedName(d, name);
    assert t[1..|t| - 1] == name;
    if UnquoteName(d, q) == Some(name) {
      assert q == [q[0]] + q[1..|q| - 1] + [q[|q| - 1]];
    }
  }

  /** `d.WriteName(w, name)`: one `fmt.Fprintf`, which makes one `Write` call. */
  function NameCmds(d: Dialect, name: string): seq<Cmd>
  {
    [Bytes(QuotedName(d, name))]
  }

  /** `Render(d, name)` is the quoted name. */
  lemma RenderName(d: Dialect, name: string)
    ensures Render(NameCmds(d, name)) == QuotedName(d, name)
  {
    PlainOne(Bytes(QuotedName(d, name)));
    RenderFlat(NameCmds(d, name));
  }

  /** `Name.write`, which delegates to the dialect's `WriteName`. */
  method WriteName(w: Writer, d: Dialect, name: string)
    modifies w
    ensures w.Snapshot() == Exec(old(w.Snapshot()), NameCmds(d, name))
  {
    var text: string;
    match d {
      case Postgres => text := "\"" + name + "\"";
      case SQLServer => text := "[" + name + "]";
    }
    ghost var st := w.Snapshot();
    var _ := w.Write(text);
    ExecStep(st, [], Bytes(text));
    assert [] + [Bytes(text)] == NameCmds(d, name);
  }

  /** The calls of each name. */
  function NameParts(d: Dialect, names: seq<string>): (parts: seq<seq<Cmd>>)
    ensures |parts| == |names|
  {
    seq(|names|, i requires 0 <= i < |names| => NameCmds(d, names[i]))
  }

  /** `Names.write`: the names separated by ", ". */
  function NamesCmds(d: Dialect, names: seq<string>): seq<Cmd>
  {
    Joined(NameParts(d, names), ", ")
  }

  /** The quoted names. */
  function QuotedNames(d: Dialect, names: seq<string>): (qs: seq<string>)
    ensures |qs| == |names|
  {
    seq(|names|, i requires 0 <= i < |names| => QuotedName(d, names[i]))
  }

  /**
    `Names.write` writes the quoted names joined by ", " (nothing for no name),
    in 2n - 1 calls: n names and n - 1 separators.
   */
  lemma NamesText(d: Dialect, names: seq<string>)
    ensures Plain(NamesCmds(d, names)) == Join(QuotedNames(d, names), ", ")
    ensures |NamesCmds(d, names)| == if |names| == 0 then 0 else 2 * |names| - 1
  {
    var parts := NameParts(d, names);
    JoinedText(parts, ", ");
    forall i | 0 <= i < |names| ensures Plains(parts)[i] == QuotedNames(d, names)[i] {
      PlainOne(Bytes(QuotedName(d, names[i])));
    }
    assert Plains(parts) == QuotedNames(d, names);
    JoinedLength(parts, ", ");
  }

  method WriteNames(w: Writer, d: Dialect, names: seq<string>)
    modifies w
    ensures w.Snapshot() == Exec(old(w.Snapshot()), NamesCmds(d, names))
  {
    ghost var st := w.Snapshot();
    var idx := 0;
    while idx < |names|
      invariant 0 <= idx <= |names|
      invariant w.Snapshot() == Exec(st, NamesCmds(d, names[..idx]))
    {
      ghost var before := w.Snapshot();
      if idx > 0 {
        var _ := w.WriteString(", ");
      }
      SepExec(before, idx, ", ");
      WriteName(w, d, names[idx]);
      NamesStep(st, d, names, idx, before, w.Snapshot());
      idx := idx + 1;
    }
    assert names[..idx] == names;
  }

  /** One more name of `Names.write`. */
  lemma NamesStep(st: State, d: Dialect, names: seq<string>, idx: nat, before: State, after: State)
    requires idx < |names|
    requires before == Exec(st, NamesCmds(d, names[..idx]))
    requires after == Exec(Exec(before, SepCmds(idx, ", ")), NameCmds(d, names[idx]))
    ensures after == Exec(st, NamesCmds(d, names[..idx + 1]))
  {
    var parts := NameParts(d, names[..idx + 1]);
    assert parts[..idx] == NameParts(d, names[..idx]);
    assert parts[idx] == NameCmds(d, names[idx]);
    JoinedStep(st, parts, idx, ", ");
    assert parts[..idx + 1] == parts;
  }

  // ---------------------------------------------------------------------------
  // Object names

  datatype ObjectName = ObjectName(schema: string, name: string)

  /** `ObjectName.write`: the schema and '.' when there is a schema, then the name. */
  function ObjectNameCmds(d: Dialect, n: ObjectName): seq<Cmd>
  {
    (if n.schema != "" then NameCmds(d, n.schema) + [Byte('.')] else []) + NameCmds(d, n.name)
  }

  /** The plain text of an object name: the quoted schema and '.' when there is a schema, then the quoted name. */
  lemma ObjectNamePlain(d: Dialect, n: ObjectName)
    ensures Plain(ObjectNameCmds(d, n)) ==
      (if n.schema != "" then QuotedName(d, n.schema) + "." else "") + QuotedName(d, n.name)
    ensures Flat(ObjectNameCmds(d, n))
  {
    var m := QuotedName(d, n.name);
    var pre: seq<Cmd> := if n.schema != "" then NameCmds(d, n.schema) + [Byte('.')] else [];
    PlainOne(Bytes(m));
    PlainAppend(pre, NameCmds(d, n.name));
    FlatAppend(pre, NameCmds(d, n.name));
    if n.schema != "" {
      var s := QuotedName(d, n.schema);
      assert pre == [Bytes(s), Byte('.')];
      PlainTwo(Bytes(s), Byte('.'));
      PlainOne(Bytes(s));
      PlainOne(Byte('.'));
    } else {
      PlainNone();
    }
  }

  /** A qualified name reads "schema"."name" in PostgreSQL and [schema].[name] in SQL Server; an unqualified one only the quoted name. */
  lemma ObjectNameText(d: Dialect, n: ObjectName)
    ensures n.schema == "" ==> Render(ObjectNameCmds(d, n)) == QuotedName(d, n.name)
    ensures n.schema != "" && d.Postgres? ==>
      Render(ObjectNameCmds(d, n)) == "\"" + n.schema + "\".\"" + n.name + "\""
    ensures n.schema != "" && d.SQLServer? ==>
      Render(ObjectNameCmds(d, n)) == "[" + n.schema + "].[" + n.name + "]"
  {
    ObjectNamePlain(d, n);
    RenderFlat(ObjectNameCmds(d, n));
    var s, m := QuotedName(d, n.schema), QuotedName(d, n.name);
    if n.schema != "" && d.Postgres? {
      assert s + "." + m == "\"" + n.schema + "\".\"" + n.name + "\"";
    } else if n.schema != "" {
      assert s + "." + m == "[" + n.schema + "].[" + n.name + "]";
    }
  }

  method WriteObjectName(w: Writer, d: Dialect, n: ObjectName)
    modifies w
    ensures w.Snapshot() == Exec(old(w.Snapshot()), ObjectNameCmds(d, n))
  {
    ghost var st := w.Snapshot();
    if n.schema != "" {
      WriteName(w, d, n.schema);
      ghost var s1 := w.Snapshot();
      w.WriteByte('.');
      ExecByte(st, NameCmds(d, n.schema), '.');
    }
    ghost var pre: seq<Cmd> := if n.schema != "" then NameCmds(d, n.schema) + [Byte('.')] else [];
    WriteName(w, d, n.name);
    ExecAppend(st, pre, NameCmds(d, n.name));
  }

  // ---------------------------------------------------------------------------
  // Expressions (sql/expr.go)

  /** The calls of each expression. */
  function ExprParts(exprs: seq<Expr>): (parts: seq<seq<Cmd>>)
    ensures |parts| == |exprs|
  {
    seq(|exprs|, i requires 0 <= i < |exprs| => exprs[i].cmds)
  }

  /** `Exprs.write`: the expressions separated by ", ". */
  function ExprsCmds(exprs: seq<Expr>): seq<Cmd>
  {
    Joined(ExprParts(exprs), ", ")
  }

  /** `Exprs.write` writes the expressions' texts joined by ", ". */
  lemma ExprsText(exprs: seq<Expr>)
    ensures Plain(ExprsCmds(exprs)) == Join(Plains(ExprParts(exprs)), ", ")
    ensures |exprs| == 0 ==> ExprsCmds(exprs) == []
  {
    JoinedText(ExprParts(exprs), ", ");
  }

  method WriteExprs(w: Writer, exprs: seq<Expr>)
    modifies w
    ensures w.Snapshot() == Exec(old(w.Snapshot()), ExprsCmds(exprs))
  {
    ghost var st := w.Snapshot();
    ghost var parts := ExprParts(exprs);
    var idx := 0;
    while idx < |exprs|
      invariant 0 <= idx <= |exprs|
      invariant w.Snapshot() == Exec(st, Joined(parts[..idx], ", "))
    {
      ghost var before := w.Snapshot();
      if idx > 0 {
        var _ := w.WriteString(", ");
      }
      SepExec(before, idx, ", ");
      w.Do(exprs[idx].cmds);
      JoinedStep(st, parts, idx, ", ");
      idx := idx + 1;
    }
    assert parts[..idx] == parts;
  }

  // ---------------------------------------------------------------------------
  // Conditions (sql/dialect.go WriteOrCond, WriteCondOperand)

  /**
    `c.write(w)`. Only `OrCond` has a `write`; what the other conditions write
    is given by `leaf`.
   */
  function CondCmds(c: Cond, leaf: Cond -> seq<Cmd>): seq<Cmd>
    decreases c, 0
  {
    if c.OrCond? then OrCmds(c.ops, leaf) else leaf(c)
  }

  /** `WriteOrCond`: each operand at the precedence of OR, separated by " OR ". */
  function OrCmds(ops: seq<Cond>, leaf: Cond -> seq<Cmd>): seq<Cmd>
    decreases ops, 1
  {
    Joined(seq(|ops|, i requires 0 <= i < |ops| => OperandCmds(0, ops[i], leaf)), " OR ")
  }

  /** `WriteCondOperand(w, prec, op)`: the operand, in parentheses when it binds more loosely than `prec`. */
  function OperandCmds(prec: nat, op: Cond, leaf: Cond -> seq<Cmd>): seq<Cmd>
    decreases op, 1
  {
    if CondPrec(op) < prec then [Byte('(')] + CondCmds(op, leaf) + [Byte(')')] else CondCmds(op, leaf)
  }

  /** An operand is parenthesised exactly when its precedence is below the context's. */
  lemma OperandText(prec: nat, op: Cond, leaf: Cond -> seq<Cmd>)
    ensures Plain(OperandCmds(prec, op, leaf)) ==
      if CondPrec(op) < prec then "(" + Plain(CondCmds(op, leaf)) + ")" else Plain(CondCmds(op, leaf))
  {
    if CondPrec(op) < prec {
      PlainWrap('(', CondCmds(op, leaf), ')');
    }
  }

  /** The texts of the operands written bare. */
  function CondTexts(ops: seq<Cond>, leaf: Cond -> seq<Cmd>): (texts: seq<string>)
    ensures |texts| == |ops|
  {
    seq(|ops|, i requires 0 <= i < |ops| => Plain(CondCmds(ops[i], leaf)))
  }

  /** An OR writes its operands joined by " OR ", none of them in parentheses: nothing binds more loosely than OR. */
  lemma OrText(ops: seq<Cond>, leaf: Cond -> seq<Cmd>)
    ensures Plain(CondCmds(OrCond(ops), leaf)) == Join(CondTexts(ops, leaf), " OR ")
  {
    var parts := seq(|ops|, i requires 0 <= i < |ops| => OperandCmds(0, ops[i], leaf));
    JoinedText(parts, " OR ");
    assert Plains(parts) == CondTexts(ops, leaf);
  }

  /** `op.write(w)` for a condition. */
  method WriteCond(w: Writer, c: Cond, leaf: Cond -> seq<Cmd>)
    modifies w
    ensures w.Snapshot() == Exec(old(w.Snapshot()), CondCmds(c, leaf))
    decreases c, 0
  {
    if c.OrCond? {
      WriteOrCond(w, c.ops, leaf);
    } else {
      w.Do(leaf(c));
    }
  }

  /** `DialectBase.WriteOrCond`. */
  method WriteOrCond(w: Writer, ops: seq<Cond>, leaf: Cond -> seq<Cmd>)
    modifies w
    ensures w.Snapshot() == Exec(old(w.Snapshot()), OrCmds(ops, leaf))
    decreases ops, 1
  {
    ghost var st := w.Snapshot();
    ghost var parts := seq(|ops|, i requires 0 <= i < |ops| => OperandCmds(0, ops[i], leaf));
    var idx := 0;
    while idx < |ops|
      invariant 0 <= idx <= |ops|
      invariant w.Snapshot() == Exec(st, Joined(parts[..idx], " OR "))
    {
      ghost var before := w.Snapshot();
      if idx > 0 {
        var _ := w.WriteString(" OR ");
      }
      SepExec(before, idx, " OR ");
      WriteCondOperand(w, CondPrec(OrCond(ops)), ops[idx], leaf);
      JoinedStep(st, parts, idx, " OR ");
      idx := idx + 1;
    }
    assert parts[..idx] == parts;
  }

  /** `DialectBase.WriteCondOperand`. */
  method WriteCondOperand(w: Writer, prec: nat, op: Cond, leaf: Cond -> seq<Cmd>)
    modifies w
    ensures w.Snapshot() == Exec(old(w.Snapshot()), OperandCmds(prec, op, leaf))
    decreases op, 1
  {
    ghost var st := w.Snapshot();
    if CondPrec(op) < prec {
      w.WriteByte('(');
    }
    ghost var s1 := w.Snapshot();
    WriteCond(w, op, leaf);
    ghost var s2 := w.Snapshot();
    if CondPrec(op) < prec {
      w.WriteByte(')');
    }
    OperandExec(st, prec, op, leaf, s1, s2);
  }

  /** The three steps of `WriteCondOperand` perform the operand's calls. */
  lemma OperandExec(st: State, prec: nat, op: Cond, leaf: Cond -> seq<Cmd>, s1: State, s2: State)
    requires s1 == if CondPrec(op) < prec then AfterWriteByte(st, '(') else st
    requires s2 == Exec(s1, CondCmds(op, leaf))
    ensures Exec(st, OperandCmds(prec, op, leaf)) == if CondPrec(op) < prec then AfterWriteByte(s2, ')') else s2
  {
    if CondPrec(op) < prec {
      var body := CondCmds(op, leaf);
      ExecByte(st, [], '(');
      assert [] + [Byte('(')] == [Byte('(')];
      ExecAppend(st, [Byte('(')], body);
      ExecByte(st, [Byte('(')] + body, ')');
    }
  }

  // ---------------------------------------------------------------------------
  // Queries (sql/query.go, DialectBase.WriteQuerySet and WriteSelect)

  datatype SelectColumn = SelectColumn(expr: Expr, alias: string)

  /** A `SelectSource`: an object name or a query. */
  datatype Source = TableSource(obj: ObjectName) | QuerySource(query: Query)

  datatype SelectFrom = SelectFrom(source: Option<Source>, alias: string)

  datatype Select = Select(distinct: bool, columns: seq<SelectColumn>, from: SelectFrom)

  datatype QuerySet = QuerySet(op: string, all: bool, lhs: Query, rhs: Query)

  /** The two implementations of `Query`. */
  datatype Query = SelectQuery(sel: Select) | SetQuery(qset: QuerySet)

  /** The calls a write made, and whether it ended in a panic after them. */
  datatype Outcome = Outcome(cmds: seq<Cmd>, panicked: bool)

  /** The keyword of a query-set operator; `None` for an operator `WriteQuerySet` does not support. */
  function SetOpKeyword(op: string): (kw: Option<string>)
  {
    if op == "union" then Some("UNION")
    else if op == "intersect" then Some("INTERSECT")
    else if op == "except" then Some("EXCEPT")
    else None
  }

  /** ASCII upper case. */
  function Upper(s: string): (u: string)
    ensures |u| == |s|
  {
    seq(|s|, i requires 0 <= i < |s| => if 'a' <= s[i] <= 'z' then (s[i] as int - 32) as char else s[i])
  }

  /** Exactly the three operators have a keyword, and it is the operator in upper case. */
  lemma SetOpKeywords(op: string)
    ensures SetOpKeyword(op).Some? <==> op == "union" || op == "intersect" || op == "except"
    ensures SetOpKeyword(op).Some? ==> SetOpKeyword(op).value == Upper(op)
  {
    if op == "union" {
      assert Upper(op) == "UNION";
    } else if op == "intersect" {
      assert Upper(op) == "INTERSECT";
    } else if op == "except" {
      assert Upper(op) == "EXCEPT";
    }
  }

  /** `q.write(w)` for a query. */
  function QueryOutcome(d: Dialect, q: Query): Outcome
    decreases q
  {
    match q
    case SelectQuery(s) => Outcome([], SelectPanics(d, s))
    case SetQuery(qs) => QuerySetOutcome(d, qs)
  }

  /** `WriteQuerySet`: the left query, the keyword, " ALL" if asked, a newline, the right query. */
  function QuerySetOutcome(d: Dialect, qs: QuerySet): Outcome
    decreases qs
  {
    match qs
    case QuerySet(op, all, lhs, rhs) =>
      var l := QueryOutcome(d, lhs);
      if l.panicked then l
      else
        match SetOpKeyword(op)
        case None => Outcome(l.cmds, true)
        case Some(kw) =>
          var r := QueryOutcome(d, rhs);
          Outcome(l.cmds + SetOpCmds(kw, all) + r.cmds, r.panicked)
  }

  /** `WriteSelect` panics only when rendering its source does. */
  function SelectPanics(d: Dialect, s: Select): bool
    decreases s
  {
    match s
    case Select(_, _, from) =>
      match from
      case SelectFrom(source, _) =>
        match source
        case None => false
        case Some(src) => SourceText(d, src).None?
  }

  /** `Render(d, source)`; `None` when writing the source panics. */
  function SourceText(d: Dialect, src: Source): Option<string>
    decreases src
  {
    match src
    case TableSource(n) => Some(Render(ObjectNameCmds(d, n)))
    case QuerySource(q) =>
      var o := QueryOutcome(d, q);
      if o.panicked then None else Some(Render(o.cmds))
  }

  /** The text of a column: the rendered expression, then " AS " and the rendered alias if there is one. */
  function ColumnText(d: Dialect, col: SelectColumn): string
  {
    Render(col.expr.cmds) + (if col.alias != "" then " AS " + Render(NameCmds(d, col.alias)) else "")
  }

  /** The keyword of the first column's row. */
  function SelectKeyword(distinct: bool): string
  {
    if distinct then "SELECT DISTINCT" else "SELECT"
  }

  /** The row `WriteSelect` adds for column `i`. */
  function ColumnRow(d: Dialect, s: Select, i: nat): TableRow
    requires i < |s.columns|
  {
    TableRow("", [if i == 0 then SelectKeyword(s.distinct) else "",
                  ColumnText(d, s.columns[i]) + (if i < |s.columns| - 1 then "," else "")])
  }

  /** The rows of all the columns. */
  function ColumnRows(d: Dialect, s: Select): (rows: seq<TableRow>)
    ensures |rows| == |s.columns|
  {
    seq(|s.columns|, i requires 0 <= i < |s.columns| => ColumnRow(d, s, i))
  }

  /** The text of the FROM row: the rendered source, then " AS " and the rendered alias if there is one. */
  function FromText(d: Dialect, src: Source, alias: string): Option<string>
  {
    match SourceText(d, src)
    case None => None
    case Some(t) => Some(t + (if alias != "" then " AS " + Render(NameCmds(d, alias)) else ""))
  }

  /** The FROM row, if there is a source and rendering it does not panic. */
  function FromRows(d: Dialect, f: SelectFrom): seq<TableRow>
  {
    match f.source
    case None => []
    case Some(src) =>
      match FromText(d, src, f.alias)
      case None => []
      case Some(t) => [TableRow("", ["FROM", t])]
  }

  /**
    The table `WriteSelect` builds: one row per column and at most one FROM
    row; only the first row and the FROM row have a keyword, every column but
    the last ends with ",", and aliases appear quoted after " AS ".
   */
  lemma SelectRows(d: Dialect, s: Select)
    ensures var rows := ColumnRows(d, s) + FromRows(d, s.from);
      |rows| == |s.columns| + (if s.from.source.Some? && !SelectPanics(d, s) then 1 else 0)
    ensures forall i :: 0 <= i < |ColumnRows(d, s)| ==>
      ColumnRows(d, s)[i].pfx == "" && |ColumnRows(d, s)[i].cols| == 2 &&
      (ColumnRows(d, s)[i].cols[0] != "" <==> i == 0)
    ensures forall i :: 0 <= i < |s.columns| ==>
      var alias := s.columns[i].alias;
      var text := Render(s.columns[i].expr.cmds) + (if alias != "" then " AS " + QuotedName(d, alias) else "");
      ColumnRows(d, s)[i].cols[1] == if i < |s.columns| - 1 then text + "," else text
    ensures |FromRows(d, s.from)| == 1 ==> FromRows(d, s.from)[0].cols[0] == "FROM"
  {
    forall i | 0 <= i < |s.columns|
      ensures var alias := s.columns[i].alias;
        ColumnText(d, s.columns[i]) ==
          Render(s.columns[i].expr.cmds) + (if alias != "" then " AS " + QuotedName(d, alias) else "")
    {
      RenderName(d, s.columns[i].alias);
    }
  }

  /** `q.write(w)`; returns whether it panicked, in which case nothing more is written. */
  method WriteQuery(w: Writer, d: Dialect, q: Query) returns (panicked: bool)
    modifies w
    ensures w.Snapshot() == Exec(old(w.Snapshot()), QueryOutcome(d, q).cmds)
    ensures panicked == QueryOutcome(d, q).panicked
    decreases q
  {
    match q
    case SelectQuery(s) =>
      var _, p := WriteSelect(w, d, s);
      panicked := p;
      assert [] == QueryOutcome(d, q).cmds;
    case SetQuery(qs) =>
      panicked := WriteQuerySet(w, d, qs);
  }

  /** `DialectBase.WriteQuerySet`; an unsupported operator panics once the left query is written. */
  method WriteQuerySet(w: Writer, d: Dialect, qs: QuerySet) returns (panicked: bool)
    modifies w
    ensures w.Snapshot() == Exec(old(w.Snapshot()), QuerySetOutcome(d, qs).cmds)
    ensures panicked == QuerySetOutcome(d, qs).panicked
    decreases qs
  {
    match qs
    case QuerySet(op, all, lhs, rhs) =>
      ghost var st := w.Snapshot();
      panicked := WriteQuery(w, d, lhs);
      if panicked {
        return;
      }
      var kw: string;
      if op == "union" {
        kw := "UNION";
      } else if op == "intersect" {
        kw := "INTERSECT";
      } else if op == "except" {
        kw := "EXCEPT";
      } else {
        return true;
      }
      ghost var s1 := w.Snapshot();
      var _ := w.WriteString(kw);
      if all {
        var _ := w.WriteString(" ALL");
      }
      w.Newline();
      ghost var s2 := w.Snapshot();
      panicked := WriteQuery(w, d, rhs);
      QuerySetExec(st, QueryOutcome(d, lhs).cmds, kw, all, s1, s2, QueryOutcome(d, rhs).cmds);
  }

  /** The steps of `WriteQuerySet` once the left query is written. */
  lemma QuerySetExec(st: State, l: seq<Cmd>, kw: string, all: bool, s1: State, s2: State, r: seq<Cmd>)
    requires s1 == Exec(st, l)
    requires s2 == AfterWriteByte(if all then AfterWriteString(AfterWriteString(s1, kw), " ALL") else AfterWriteString(s1, kw), '\n')
    ensures Exec(st, l + SetOpCmds(kw, all) + r) == Exec(s2, r)
  {
    var mid := SetOpCmds(kw, all);
    ExecAppend(st, l + mid, r);
    ExecAppend(st, l, mid);
    ExecStr(s1, [], kw);
    assert [] + [Str(kw)] == [Str(kw)];
    if all {
      ExecStr(s1, [Str(kw)], " ALL");
    }
    ExecByte(s1, [Str(kw)] + (if all then [Str(" ALL")] else []), '\n');
  }

  /** The calls between the two queries of a query set: the keyword, " ALL" if asked, a newline. */
  function SetOpCmds(kw: string, all: bool): seq<Cmd>
  {
    [Str(kw)] + (if all then [Str(" ALL")] else []) + [Newline]
  }

  lemma SetOpText(kw: string, all: bool)
    ensures Plain(SetOpCmds(kw, all)) == kw + (if all then " ALL" else "") + "\n"
  {
    var a: seq<Cmd> := if all then [Str(" ALL")] else [];
    PlainAppend([Str(kw)] + a, [Newline]);
    PlainAppend([Str(kw)], a);
    PlainOne(Str(kw));
    PlainOne(Newline);
    if all {
      PlainOne(Str(" ALL"));
    } else {
      PlainNone();
    }
  }

  /**
    The text of a query set whose parts do not panic: the left text, the
    keyword (the operator in upper case), " ALL" if asked, a newline, the
    right text.
   */
  lemma QuerySetText(d: Dialect, qs: QuerySet)
    requires !QueryOutcome(d, qs.lhs).panicked && SetOpKeyword(qs.op).Some?
    ensures QuerySetOutcome(d, qs).panicked == QueryOutcome(d, qs.rhs).panicked
    ensures Plain(QuerySetOutcome(d, qs).cmds) ==
      Plain(QueryOutcome(d, qs.lhs).cmds) + (Upper(qs.op) + (if qs.all then " ALL" else "") + "\n") +
      Plain(QueryOutcome(d, qs.rhs).cmds)
  {
    var l, r := QueryOutcome(d, qs.lhs).cmds, QueryOutcome(d, qs.rhs).cmds;
    SetOpKeywords(qs.op);
    var kw := SetOpKeyword(qs.op).value;
    var mid := SetOpCmds(kw, qs.all);
    assert QuerySetOutcome(d, qs).cmds == l + mid + r;
    PlainAppend(l + mid, r);
    PlainAppend(l, mid);
    SetOpText(kw, qs.all);
  }

  /** An unsupported operator panics once the left query is written, and nothing more is written. */
  lemma QuerySetPanic(d: Dialect, qs: QuerySet)
    requires SetOpKeyword(qs.op).None?
    ensures QuerySetOutcome(d, qs).panicked
    ensures !QueryOutcome(d, qs.lhs).panicked ==> QuerySetOutcome(d, qs).cmds == QueryOutcome(d, qs.lhs).cmds
  {
  }

  /**
    `DialectBase.WriteSelect`: builds a table of the SELECT rows and the FROM
    row and never writes it, so the writer is left as it was.
   */
  method WriteSelect(w: Writer, d: Dialect, s: Select) returns (tbl: Table, panicked: bool)
    ensures fresh(tbl) && tbl.Valid()
    ensures tbl.rows == ColumnRows(d, s) + FromRows(d, s.from)
    ensures panicked == SelectPanics(d, s)
    ensures w.Snapshot() == old(w.Snapshot())
    decreases s
  {
    tbl := new Table();
    AddColumnRows(tbl, d, s);
    panicked := false;
    match s.from.source {
      case None =>
      case Some(source) =>
        var src := RenderFrom(d, source, s.from.alias);
        if src.None? {
          panicked := true;
        } else {
          tbl.AddRow("", ["FROM", src.value]);
        }
    }
  }

  /** The loop of `WriteSelect` over the columns: one row each, the keyword in the first only. */
  method AddColumnRows(tbl: Table, d: Dialect, s: Select)
    requires tbl.Valid() && tbl.rows == []
    modifies tbl
    ensures tbl.Valid() && tbl.rows == ColumnRows(d, s)
  {
    var kw := "SELECT";
    if s.distinct {
      kw := kw + " DISTINCT";
    }
    var idx := 0;
    while idx < |s.columns|
      invariant 0 <= idx <= |s.columns|
      invariant tbl.Valid() && tbl.rows == ColumnRows(d, s)[..idx]
      invariant kw == if idx <= 1 then SelectKeyword(s.distinct) else ""
    {
      if idx > 0 {
        kw := "";
      }
      AddColumnRow(tbl, d, s, idx, kw);
      idx := idx + 1;
    }
    assert ColumnRows(d, s)[..idx] == ColumnRows(d, s);
  }

  /** One iteration of the column loop: render the column and add its row. */
  method AddColumnRow(tbl: Table, d: Dialect, s: Select, idx: nat, kw: string)
    requires idx < |s.columns| && kw == if idx == 0 then SelectKeyword(s.distinct) else ""
    requires tbl.Valid() && tbl.rows == ColumnRows(d, s)[..idx]
    modifies tbl
    ensures tbl.Valid() && tbl.rows == ColumnRows(d, s)[..idx + 1]
  {
    var expr := RenderColumn(d, s.columns[idx], idx < |s.columns| - 1);
    ColumnRowsStep(d, s, idx, kw, expr);
    tbl.AddRow("", [kw, expr]);
  }

  /** One more column row. */
  lemma ColumnRowsStep(d: Dialect, s: Select, idx: nat, kw: string, expr: string)
    requires idx < |s.columns|
    requires kw == if idx == 0 then SelectKeyword(s.distinct) else ""
    requires expr == ColumnText(d, s.columns[idx]) + (if idx < |s.columns| - 1 then "," else "")
    ensures ColumnRows(d, s)[..idx] + [TableRow("", [kw, expr])] == ColumnRows(d, s)[..idx + 1]
  {
    var rows := ColumnRows(d, s);
    assert rows[idx] == TableRow("", [kw, expr]);
    assert rows[..idx + 1] == rows[..idx] + [rows[idx]];
  }

  /** The second cell of a column's row: the rendered expression and alias, and "," unless it is the last column. */
  method RenderColumn(d: Dialect, col: SelectColumn, more: bool) returns (expr: string)
    ensures expr == ColumnText(d, col) + (if more then "," else "")
  {
    expr := RenderItem(col.expr.cmds);
    if col.alias != "" {
      var alias := RenderItem(NameCmds(d, col.alias));
      expr := expr + (" AS " + alias);
    } else {
      assert expr + "" == expr;
    }
    if more {
      expr := expr + ",";
    } else {
      assert expr + "" == expr;
    }
  }

  /** The second cell of the FROM row: the rendered source and alias; `None` when rendering the source panics. */
  method RenderFrom(d: Dialect, source: Source, aliasName: string) returns (src: Option<string>)
    ensures src == FromText(d, source, aliasName)
    decreases source, 1
  {
    var text := RenderSource(d, source);
    if text.None? {
      return None;
    }
    var t := text.value;
    if aliasName != "" {
      var alias := RenderItem(NameCmds(d, aliasName));
      t := t + (" AS " + alias);
    } else {
      assert t + "" == t;
    }
    return Some(t);
  }

  /** `Render(d, source)` for a select source; `None` when writing it panics. */
  method RenderSource(d: Dialect, src: Source) returns (text: Option<string>)
    ensures text == SourceText(d, src)
    decreases src, 0
  {
    match src
    case TableSource(n) =>
      var w := new Writer("\t");
      WriteObjectName(w, d, n);
      text := Some(w.out);
    case QuerySource(q) =>
      var w := new Writer("\t");
      var p := WriteQuery(w, d, q);
      text := if p then None else Some(w.out);
  }
}
