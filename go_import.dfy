/**
  Import bookkeeping of the unfinished go/ rewrite (go/import.go): `Ensure`
  registers a package under an explicit or derived alias, and `write` lays
  the imports out, sorted, as a table.

  `Ensure`'s panics are the `Failed` outcomes. The comment renderer and the
  writer's `Table` are not part of this model: `write` takes them as
  parameters (`comment` gives the calls the renderer makes for a comment,
  `table` the calls `w.Table(rows...)` makes).
 */
module GoImport {
  import opened Wrappers
  import opened CodeWriter
  import opened Strconv
  import opened Sorting
  import opened GolangBase

  datatype Import = Import(comm: string, alias: string, path: string, aliasExpl: bool)

  datatype EnsureError =
    | InvalidAlias(alias: string)
    | AliasInUse(alias: string, path: string)

  datatype Outcome = Added(imp: Import) | Failed(err: EnsureError)

  /** A table row: the comment the row's prefix renders (`None` for no prefix) and its cells. */
  datatype Row = Row(prefix: Option<string>, cols: seq<string>)

  /** Go's keywords, which `token.IsIdentifier` rejects. */
  const Keywords: seq<string> := [
    "break", "case", "chan", "const", "continue", "default", "defer", "else",
    "fallthrough", "for", "func", "go", "goto", "if", "import", "interface",
    "map", "package", "range", "return", "select", "struct", "switch", "type", "var"]

  /** `isImportAlias`: an identifier, not a keyword, and not exported. */
  predicate IsImportAlias(alias: string)
  {
    IsIdentifier(alias) && alias !in Keywords && !IsUpper(alias[0])
  }

  /** `strings.LastIndexByte(s, c)`. */
  function LastIndexByte(s: string, c: char): (pos: int)
    ensures -1 <= pos < |s|
    ensures pos >= 0 ==> s[pos] == c && c !in s[pos + 1..]
    ensures pos < 0 ==> c !in s
    decreases |s|
  {
    if |s| == 0 then -1
    else if s[|s| - 1] == c then |s| - 1
    else
      var p := LastIndexByte(s[..|s| - 1], c);
      assert p >= 0 ==> s[p + 1..] == s[..|s| - 1][p + 1..] + [s[|s| - 1]];
      p
  }

  /**
    `detectPkgAlias`: the text after the last '/', or the whole path. The
    Go function has no return for a candidate that is not a valid alias; the
    model returns the candidate, which `Ensure` then rejects.
   */
  function DetectPkgAlias(path: string): (alias: string)
    ensures '/' !in alias
    ensures |alias| <= |path| && path[|path| - |alias|..] == alias
    ensures |alias| < |path| ==> path[|path| - |alias| - 1] == '/'
  {
    var idx := LastIndexByte(path, '/');
    if idx >= 0 then path[idx + 1..] else path
  }

  /** The alias `Ensure` registers: the given one, or the derived one when none is given. */
  function ChosenAlias(pkgPath: string, alias: string): string
  {
    if alias != "" then alias else DetectPkgAlias(pkgPath)
  }

  /** The index of the first import using an alias. */
  function FindAlias(items: seq<Import>, alias: string): (r: Option<nat>)
    ensures r.None? <==> forall k :: 0 <= k < |items| ==> items[k].alias != alias
    ensures r.Some? ==> r.value < |items| && items[r.value].alias == alias
    ensures r.Some? ==> forall k :: 0 <= k < r.value ==> items[k].alias != alias
    decreases |items|
  {
    if |items| == 0 then None
    else if items[0].alias == alias then Some(0)
    else
      var r := FindAlias(items[1..], alias);
      assert forall k :: 1 <= k < |items| ==> items[k] == items[1..][k - 1];
      if r.Some? then Some(r.value + 1) else None
  }

  /**
    What `Ensure` does: an invalid alias and an alias some import already
    uses (the same path included: nothing is deduplicated) are errors;
    otherwise the new import carries the comment, the alias, the path, and
    whether the alias was given.
   */
  function EnsureOutcome(items: seq<Import>, pkgPath: string, alias: string, comment: string): (r: Outcome)
    ensures r.Added? <==>
      IsImportAlias(ChosenAlias(pkgPath, alias)) &&
      forall k :: 0 <= k < |items| ==> items[k].alias != ChosenAlias(pkgPath, alias)
    ensures r.Added? ==> r.imp == Import(comment, ChosenAlias(pkgPath, alias), pkgPath, alias != "")
    ensures r.Failed? && r.err.InvalidAlias? <==> !IsImportAlias(ChosenAlias(pkgPath, alias))
    ensures r.Failed? ==> r.err.alias == ChosenAlias(pkgPath, alias)
    ensures r.Failed? && r.err.AliasInUse? ==>
      exists k :: 0 <= k < |items| && items[k].alias == r.err.alias && items[k].path == r.err.path
  {
    var a := ChosenAlias(pkgPath, alias);
    if !IsImportAlias(a) then Failed(InvalidAlias(a))
    else
      var f := FindAlias(items, a);
      if f.Some? then Failed(AliasInUse(a, items[f.value].path))
      else Added(Import(comment, a, pkgPath, alias != ""))
  }

  /** No two imports share an alias. */
  predicate DistinctAliases(items: seq<Import>)
  {
    forall i, j :: 0 <= i < j < |items| ==> items[i].alias != items[j].alias
  }

  /** Every alias is a valid import alias. */
  predicate ValidAliases(items: seq<Import>)
  {
    forall k :: 0 <= k < |items| ==> IsImportAlias(items[k].alias)
  }

  /** A successful `Ensure` keeps the aliases valid and pairwise distinct. */
  lemma EnsureKeepsAliases(items: seq<Import>, pkgPath: string, alias: string, comment: string)
    requires DistinctAliases(items) && ValidAliases(items)
    requires EnsureOutcome(items, pkgPath, alias, comment).Added?
    ensures DistinctAliases(items + [EnsureOutcome(items, pkgPath, alias, comment).imp])
    ensures ValidAliases(items + [EnsureOutcome(items, pkgPath, alias, comment).imp])
  {
    var n := items + [EnsureOutcome(items, pkgPath, alias, comment).imp];
    forall i, j | 0 <= i < j < |n| ensures n[i].alias != n[j].alias {
      if j < |items| {
        assert n[i] == items[i] && n[j] == items[j];
      } else {
        assert n[i] == items[i];
      }
    }
  }

  /** Registering a path a second time with the same alias argument fails: the alias is taken. */
  lemma EnsureAgainFails(items: seq<Import>, pkgPath: string, alias: string, comment: string, comment2: string)
    requires EnsureOutcome(items, pkgPath, alias, comment).Added?
    ensures var imp := EnsureOutcome(items, pkgPath, alias, comment).imp;
      EnsureOutcome(items + [imp], pkgPath, alias, comment2) ==
      Failed(AliasInUse(imp.alias, pkgPath))
  {
    var imp := EnsureOutcome(items, pkgPath, alias, comment).imp;
    var n := items + [imp];
    assert n[|items|].alias == imp.alias;
    assert forall k :: 0 <= k < |items| ==> n[k] == items[k];
  }

  /** An import without an alias argument is registered under the last element of its path. */
  lemma EnsureDerivedAlias(items: seq<Import>, pkgPath: string, comment: string)
    requires EnsureOutcome(items, pkgPath, "", comment).Added?
    ensures var imp := EnsureOutcome(items, pkgPath, "", comment).imp;
      !imp.aliasExpl && '/' !in imp.alias && IsImportAlias(imp.alias) &&
      (pkgPath == imp.alias || pkgPath == pkgPath[..|pkgPath| - |imp.alias| - 1] + "/" + imp.alias)
  {
    var a := DetectPkgAlias(pkgPath);
    if |a| < |pkgPath| {
      var i := |pkgPath| - |a| - 1;
      assert pkgPath == pkgPath[..i] + [pkgPath[i]] + pkgPath[i + 1..];
    } else {
      assert pkgPath[0..] == pkgPath;
    }
  }

  /** `isSysPkg`: a path without '.' is a standard-library package. */
  predicate IsSysPkg(path: string)
  {
    '.' !in path
  }

  /** The sort of `write`: standard-library packages first, then ascending path. */
  function ImportKey(i: Import): SortKey
  {
    SortKey(IsSysPkg(i.path), i.path)
  }

  /** `hasAlias`: some import was given an explicit alias. */
  predicate HasAlias(items: seq<Import>)
  {
    exists k :: 0 <= k < |items| && items[k].aliasExpl
  }

  /**
    `Import.row`: the comment as prefix; with `hasAlias`, the cells are the
    explicit alias (an empty cell for a derived one) and the quoted path,
    otherwise the quoted path alone.
   */
  function ImportRow(i: Import, hasAlias: bool): (r: Row)
    ensures r.prefix == Some(i.comm)
    ensures hasAlias ==> r.cols == [if i.aliasExpl then i.alias else "", Quote(i.path)]
    ensures !hasAlias ==> r.cols == [Quote(i.path)]
  {
    Row(Some(i.comm), if hasAlias then [if i.aliasExpl then i.alias else "", Quote(i.path)] else [Quote(i.path)])
  }

  /** The rows `write` builds: `prvSys` is never set, so there is no separator row, just one row per import. */
  function ImportRows(items: seq<Import>, hasAlias: bool): (rows: seq<Row>)
    ensures |rows| == |items|
    ensures forall k :: 0 <= k < |items| ==> rows[k] == ImportRow(items[k], hasAlias)
  {
    seq(|items|, k requires 0 <= k < |items| => ImportRow(items[k], hasAlias))
  }

  /** The order `write` leaves the imports in. */
  function SortedImports(items: seq<Import>): (r: seq<Import>)
    ensures multiset(r) == multiset(items)
  {
    if |items| >= 2 then SortByKey(items, ImportKey) else items
  }

  /** A single import: its comment, "import ", "alias " for a non-empty alias, the quoted path, a newline. */
  function SingleImportCmds(imp: Import, comment: string -> seq<Cmd>): seq<Cmd>
  {
    comment(imp.comm) + [Str("import ")] +
    (if imp.alias != "" then [Str(imp.alias), Space] else []) +
    [Str(Quote(imp.path)), Newline]
  }

  /** The frame of an import block: "import (", a newline, the indented body, ")", a newline. */
  function ImportBlockCmds(body: seq<Cmd>): seq<Cmd>
  {
    [Str("import ("), Newline, Indented(body), Byte(')'), Newline]
  }

  /** `Imports.write`, as the calls it makes. */
  function ImportsCmds(items: seq<Import>, table: seq<Row> -> seq<Cmd>, comment: string -> seq<Cmd>): seq<Cmd>
  {
    if |items| == 0 then []
    else if |items| == 1 then SingleImportCmds(items[0], comment)
    else
      var sorted := SortByKey(items, ImportKey);
      ImportBlockCmds(table(ImportRows(sorted, HasAlias(sorted))))
  }

  /**
    After the sort, every standard-library import precedes every other one,
    and within each group the paths ascend.
   */
  lemma SortedImportsOrder(items: seq<Import>)
    ensures var s := SortedImports(items);
      |items| >= 2 ==>
      forall i, j :: 0 <= i < j < |s| ==>
        (IsSysPkg(s[j].path) ==> IsSysPkg(s[i].path)) &&
        (IsSysPkg(s[i].path) == IsSysPkg(s[j].path) ==> !LexLess(s[j].path, s[i].path))
  {
    if |items| >= 2 {
      var s := SortedImports(items);
      forall i, j | 0 <= i < j < |s|
        ensures IsSysPkg(s[j].path) ==> IsSysPkg(s[i].path)
        ensures IsSysPkg(s[i].path) == IsSysPkg(s[j].path) ==> !LexLess(s[j].path, s[i].path)
      {
        assert !KeyLess(ImportKey(s[j]), ImportKey(s[i]));
      }
    }
  }

  /** Every row holds its import's path: unquoting the last cell gives it back. */
  lemma ImportRowsPaths(items: seq<Import>, hasAlias: bool)
    ensures var rows := ImportRows(items, hasAlias);
      forall k :: 0 <= k < |items| ==>
        |rows[k].cols| >= 1 && Unquote(rows[k].cols[|rows[k].cols| - 1]) == Some(items[k].path)
  {
    forall k | 0 <= k < |items|
      ensures var r := ImportRows(items, hasAlias)[k];
        |r.cols| >= 1 && Unquote(r.cols[|r.cols| - 1]) == Some(items[k].path)
    {
      UnquoteQuote(items[k].path);
    }
  }

  /** A single import: its comment, "import ", "alias " for a non-empty alias, the quoted path, a newline. */
  lemma SingleImportText(imp: Import, comment: string -> seq<Cmd>)
    ensures Plain(SingleImportCmds(imp, comment)) ==
      Plain(comment(imp.comm)) + "import " + (if imp.alias != "" then imp.alias + " " else "") + Quote(imp.path) + "\n"
  {
    var a: seq<Cmd> := if imp.alias != "" then [Str(imp.alias), Space] else [];
    var q := Str(Quote(imp.path));
    assert SingleImportCmds(imp, comment) == comment(imp.comm) + [Str("import ")] + a + [q, Newline];
    Plain4(comment(imp.comm), [Str("import ")], a, [q, Newline]);
    PlainOne(Str("import "));
    PlainTwo(q, Newline);
    PlainOne(q);
    PlainOne(Newline);
    if imp.alias != "" {
      PlainTwo(Str(imp.alias), Space);
      PlainOne(Str(imp.alias));
      PlainOne(Space);
    }
  }

  /** The frame of a block: "import (\n", the body, ")\n". */
  lemma ImportBlockText(body: seq<Cmd>)
    ensures Plain(ImportBlockCmds(body)) == "import (\n" + Plain(body) + ")\n"
  {
    assert ImportBlockCmds(body) == [Str("import (")] + [Newline, Indented(body)] + [Byte(')'), Newline];
    Plain3([Str("import (")], [Newline, Indented(body)], [Byte(')'), Newline]);
    PlainOne(Str("import ("));
    PlainBlock(body);
    PlainTwo(Byte(')'), Newline);
    PlainOne(Byte(')'));
    PlainOne(Newline);
  }

  /** The imports of a file (Go's `Imports` slice). */
  class Imports {
    var items: seq<Import>

    constructor ()
      ensures items == []
    {
      items := [];
    }

    /** `Ensure`: on success the one new import is appended and returned; on failure nothing changes. */
    method Ensure(pkgPath: string, alias: string, comment: string) returns (r: Outcome)
      modifies this
      ensures r == EnsureOutcome(old(items), pkgPath, alias, comment)
      ensures r.Added? ==> items == old(items) + [r.imp]
      ensures r.Failed? ==> items == old(items)
    {
      var a := alias;
      var expl := false;
      if alias != "" {
        expl := true;
      } else {
        a := DetectPkgAlias(pkgPath);
      }
      if !IsImportAlias(a) {
        return Failed(InvalidAlias(a));
      }
      var idx := 0;
      while idx < |items|
        invariant 0 <= idx <= |items|
        invariant forall k :: 0 <= k < idx ==> items[k].alias != a
      {
        if items[idx].alias == a {
          assert FindAlias(items, a) == Some(idx);
          return Failed(AliasInUse(a, items[idx].path));
        }
        idx := idx + 1;
      }
      r := Added(Import(comment, a, pkgPath, expl));
      items := items + [r.imp];
    }

    /** `write`: sorts the imports in place (two or more of them) and writes them. */
    method Write(w: Writer, table: seq<Row> -> seq<Cmd>, comment: string -> seq<Cmd>)
      modifies this, w
      ensures items == SortedImports(old(items))
      ensures w.Snapshot() == Exec(old(w.Snapshot()), ImportsCmds(old(items), table, comment))
    {
      if |items| == 0 {
        return;
      }
      if |items| == 1 {
        WriteSingleImport(w, items[0], comment);
        return;
      }
      items := SortByKey(items, ImportKey);
      var hasAlias := exists k | 0 <= k < |items| :: items[k].aliasExpl;
      var rows := BuildRows(items, hasAlias);
      WriteImportBlock(w, table(rows));
    }
  }

  /** The row loop of `write`: one row per import, in order. */
  method BuildRows(items: seq<Import>, hasAlias: bool) returns (rows: seq<Row>)
    ensures rows == ImportRows(items, hasAlias)
  {
    rows := [];
    var idx := 0;
    while idx < |items|
      invariant 0 <= idx <= |items|
      invariant rows == ImportRows(items[..idx], hasAlias)
    {
      rows := rows + [ImportRow(items[idx], hasAlias)];
      idx := idx + 1;
    }
    assert items[..idx] == items;
  }

  /** The single-import branch of `write`. */
  method WriteSingleImport(w: Writer, imp: Import, comment: string -> seq<Cmd>)
    modifies w
    ensures w.Snapshot() == Exec(old(w.Snapshot()), SingleImportCmds(imp, comment))
  {
    ghost var st := w.Snapshot();
    w.Do(comment(imp.comm));
    ghost var s1 := w.Snapshot();
    var _ := w.WriteString("import ");
    ExecStep(s1, [], Str("import "));
    WriteAlias(w, imp.alias);
    ghost var s3 := w.Snapshot();
    var _ := w.WriteString(Quote(imp.path));
    w.Newline();
    ExecPair(s3, Str(Quote(imp.path)), Newline);
    var a: seq<Cmd> := if imp.alias != "" then [Str(imp.alias), Space] else [];
    Exec4(st, comment(imp.comm), [Str("import ")], a, [Str(Quote(imp.path)), Newline]);
  }

  /** "alias " when the alias is not empty. */
  method WriteAlias(w: Writer, alias: string)
    modifies w
    ensures w.Snapshot() == Exec(old(w.Snapshot()), if alias != "" then [Str(alias), Space] else [])
  {
    if alias != "" {
      ghost var st := w.Snapshot();
      var _ := w.WriteString(alias);
      w.Space();
      ExecPair(st, Str(alias), Space);
    }
  }

  lemma ExecPair(st: State, c: Cmd, d: Cmd)
    ensures c.Str? && d.Byte? ==> Exec(st, [c, d]) == AfterWriteByte(AfterWriteString(st, c.s), d.b)
  {
    ExecStep(st, [], c);
    ExecStep(st, [c], d);
    assert [c] + [d] == [c, d];
  }

  lemma Exec4(st: State, a: seq<Cmd>, b: seq<Cmd>, c: seq<Cmd>, d: seq<Cmd>)
    ensures Exec(st, a + b + c + d) == Exec(Exec(Exec(Exec(st, a), b), c), d)
  {
    ExecAppend(st, a + b + c, d);
    ExecAppend(st, a + b, c);
    ExecAppend(st, a, b);
  }

  /** The block branch of `write`, once the rows are built. */
  method WriteImportBlock(w: Writer, body: seq<Cmd>)
    modifies w
    ensures w.Snapshot() == Exec(old(w.Snapshot()), ImportBlockCmds(body))
  {
    ghost var st := w.Snapshot();
    var _ := w.WriteString("import (");
    w.Newline();
    w.Indent(body);
    ghost var s1 := w.Snapshot();
    w.WriteByte(')');
    w.Newline();
    ImportBlockExec(st, body, s1);
  }

  /** The states the block's writes go through. */
  lemma ImportBlockExec(st: State, body: seq<Cmd>, s1: State)
    requires s1 == Exec(AfterWriteByte(AfterWriteString(st, "import ("), '\n'), [Indented(body)])
    ensures Exec(st, ImportBlockCmds(body)) == AfterWriteByte(AfterWriteByte(s1, ')'), '\n')
  {
    var head: seq<Cmd> := [Str("import ("), Newline];
    assert ImportBlockCmds(body) == (head + [Indented(body)]) + [Byte(')'), Newline];
    ExecStrByte(st, "import (", '\n');
    ExecAppend(st, head, [Indented(body)]);
    ExecAppend(st, head + [Indented(body)], [Byte(')'), Newline]);
    ExecByteByte(s1, ')', '\n');
  }
}
