/**
  The file of the unfinished go/ rewrite (go/file.go): the leading comments,
  the package clause and the import list, plus the declaration builders of
  go/decl.go, which append to a `decls` list of the file.

  go/file.go's `File` struct has no `decls` field, although the builders of
  go/decl.go append to one; the model gives the file that field.
 */
module GoFile {
  import opened Wrappers
  import opened Text
  import opened CodeWriter
  import opened Strconv
  import opened Sorting
  import opened GoBase
  import opened GoDecl
  import GoImport

  /**
    An import of the file: the path and the alias ("" for none). The path's
    type (`StringVal`, go/file.go:30) and its `write`/`toString` are not in
    go/file.go; the model takes the path as a string and writes it with
    `strconv.Quote`, as go/import.go does for its own paths.
   */
  datatype ImportItem = ImportItem(path: string, alias: string)

  /** `isSysImport`: true exactly when the path contains a '.'. */
  predicate IsSysImport(path: string)
  {
    '.' in path
  }

  /** The sort of `Imports.write`: paths with a '.' first, then ascending path. */
  function FileImportKey(i: ImportItem): SortKey
  {
    SortKey(IsSysImport(i.path), i.path)
  }

  /** Some import has an alias. */
  predicate HasAlias(items: seq<ImportItem>)
  {
    exists k :: 0 <= k < |items| && items[k].alias != ""
  }

  /** The row of one import: [alias, quoted path] when any import has an alias, else [quoted path]. */
  function FileRow(i: ImportItem, hasAlias: bool): (r: GoImport.Row)
    ensures r.prefix.None?
    ensures |r.cols| >= 1 && r.cols[|r.cols| - 1] == Quote(i.path)
    ensures hasAlias ==> r.cols == [i.alias, Quote(i.path)]
    ensures !hasAlias ==> |r.cols| == 1
  {
    GoImport.Row(None, if hasAlias then [i.alias, Quote(i.path)] else [Quote(i.path)])
  }

  /** The separator row: no prefix, no cells. */
  const EmptyRow: GoImport.Row := GoImport.Row(None, [])

  /**
    The loop's `!curSys && prvSys` test, with `prvSys` true before the first
    import: an import without '.' that comes first or follows one with '.'.
   */
  predicate SeparatorBefore(items: seq<ImportItem>, k: nat)
    requires k < |items|
  {
    !IsSysImport(items[k].path) && (k == 0 || IsSysImport(items[k - 1].path))
  }

  /** The rows the loop of `Imports.write` builds. */
  function FileRows(items: seq<ImportItem>, hasAlias: bool): seq<GoImport.Row>
    decreases |items|
  {
    if |items| == 0 then []
    else
      var k := |items| - 1;
      FileRows(items[..k], hasAlias) + SeparatorRow(items, k) + [FileRow(items[k], hasAlias)]
  }

  /** The empty row the loop puts before import k, if any. */
  function SeparatorRow(items: seq<ImportItem>, k: nat): (r: seq<GoImport.Row>)
    requires k < |items|
    ensures r == [] || r == [EmptyRow]
  {
    if SeparatorBefore(items, k) then [EmptyRow] else []
  }

  /** `Imports.write`, as the calls it makes. */
  function FileImportsCmds(items: seq<ImportItem>, table: seq<GoImport.Row> -> seq<Cmd>): seq<Cmd>
  {
    if |items| == 0 then []
    else if |items| == 1 then SingleFileImportCmds(items[0])
    else SortedImportsCmds(SortByKey(items, FileImportKey), table)
  }

  /** The one-line form: "import", the alias if any, the quoted path. */
  function SingleFileImportCmds(imp: ImportItem): seq<Cmd>
  {
    [Str("import")] + (if imp.alias != "" then [Space] + IDCmds(imp.alias, true) else []) +
    [Space, Str(Quote(imp.path)), Newline]
  }

  /** The block form, over the imports already sorted. */
  function SortedImportsCmds(sorted: seq<ImportItem>, table: seq<GoImport.Row> -> seq<Cmd>): seq<Cmd>
  {
    GoImport.ImportBlockCmds(table(FileRows(sorted, HasAlias(sorted))))
  }

  /** One leading comment: the comment in multi-line form, then a newline. */
  function CommentBlockCmds(c: string): seq<Cmd>
  {
    CommentCmds(c, false) + [Newline]
  }

  /** The leading comments, each in multi-line form followed by a newline. */
  function CommentsCmds(comm: seq<string>): seq<Cmd>
    decreases |comm|
  {
    if |comm| == 0 then []
    else CommentsCmds(comm[..|comm| - 1]) + CommentBlockCmds(comm[|comm| - 1])
  }

  /** `File.Write`, as the calls it makes. */
  function FileCmds(comm: seq<string>, pkg: string, imports: seq<ImportItem>, table: seq<GoImport.Row> -> seq<Cmd>): seq<Cmd>
  {
    CommentsCmds(comm) + [Bytes("package " + pkg), Newline, Newline] + FileImportsCmds(imports, table)
  }

  // ---------------------------------------------------------------------------
  // Properties of the import rows.

  /** The imports with a '.' all come before those without. */
  predicate DottedFirst(items: seq<ImportItem>)
  {
    forall i, j :: 0 <= i < j < |items| && IsSysImport(items[j].path) ==> IsSysImport(items[i].path)
  }

  /**
    After the sort, the imports with a '.' precede the others, and the paths
    ascend within each group.
   */
  lemma SortedFileImports(items: seq<ImportItem>)
    ensures var s := SortByKey(items, FileImportKey);
      DottedFirst(s) &&
      forall i, j :: 0 <= i < j < |s| && IsSysImport(s[i].path) == IsSysImport(s[j].path) ==>
        !LexLess(s[j].path, s[i].path)
  {
    var s := SortByKey(items, FileImportKey);
    forall i, j | 0 <= i < j < |s|
      ensures IsSysImport(s[j].path) ==> IsSysImport(s[i].path)
      ensures IsSysImport(s[i].path) == IsSysImport(s[j].path) ==> !LexLess(s[j].path, s[i].path)
    {
      assert !KeyLess(FileImportKey(s[j]), FileImportKey(s[i]));
    }
  }

  function CountEmpty(rows: seq<GoImport.Row>): nat
    decreases |rows|
  {
    if |rows| == 0 then 0
    else CountEmpty(rows[..|rows| - 1]) + (if rows[|rows| - 1] == EmptyRow then 1 else 0)
  }

  lemma {:induction false} CountEmptyAppend(a: seq<GoImport.Row>, b: seq<GoImport.Row>)
    ensures CountEmpty(a + b) == CountEmpty(a) + CountEmpty(b)
    decreases |b|
  {
    if |b| == 0 {
      assert a + b == a;
    } else {
      assert (a + b)[..|a + b| - 1] == a + b[..|b| - 1];
      CountEmptyAppend(a, b[..|b| - 1]);
    }
  }

  lemma CountStep(prev: seq<GoImport.Row>, sep: seq<GoImport.Row>, row: GoImport.Row)
    requires sep == [] || sep == [EmptyRow]
    requires |row.cols| >= 1
    ensures CountEmpty(prev + sep + [row]) == CountEmpty(prev) + |sep|
  {
    CountEmptyAppend(prev + sep, [row]);
    CountEmptyAppend(prev, sep);
    assert [row][..0] == [];
    if sep != [] {
      assert sep[..0] == [];
    }
  }

  /** Some import has no '.'. */
  predicate HasUndotted(items: seq<ImportItem>)
  {
    exists k :: 0 <= k < |items| && !IsSysImport(items[k].path)
  }

  /**
    On the sorted imports there is exactly one empty row when some import
    has no '.', and none otherwise.
   */
  lemma {:induction false} SeparatorRows(items: seq<ImportItem>, hasAlias: bool)
    requires DottedFirst(items)
    ensures CountEmpty(FileRows(items, hasAlias)) == if HasUndotted(items) then 1 else 0
    decreases |items|
  {
    if |items| > 0 {
      var k := |items| - 1;
      var init := items[..k];
      DottedFirstInit(items);
      SeparatorRows(init, hasAlias);
      FileRowsSnoc(items, hasAlias);
      var sep := SeparatorRow(items, k);
      CountStep(FileRows(init, hasAlias), sep, FileRow(items[k], hasAlias));
      UndottedStep(items);
      assert |sep| == if SeparatorBefore(items, k) then 1 else 0;
    }
  }

  lemma DottedFirstInit(items: seq<ImportItem>)
    requires DottedFirst(items) && |items| > 0
    ensures DottedFirst(items[..|items| - 1])
  {
    var init := items[..|items| - 1];
    forall i, j | 0 <= i < j < |init| && IsSysImport(init[j].path)
      ensures IsSysImport(init[i].path)
    {
      assert init[i] == items[i] && init[j] == items[j];
    }
  }

  /** How `HasUndotted` and the separator test of the last import follow from the imports before it. */
  lemma UndottedStep(items: seq<ImportItem>)
    requires DottedFirst(items) && |items| > 0
    ensures var k := |items| - 1;
      && (HasUndotted(items) <==> HasUndotted(items[..k]) || !IsSysImport(items[k].path))
      && (IsSysImport(items[k].path) ==> !HasUndotted(items))
      && (SeparatorBefore(items, k) <==> !IsSysImport(items[k].path) && !HasUndotted(items[..k]))
  {
    var k := |items| - 1;
    var init := items[..k];
    assert forall j :: 0 <= j < k ==> init[j] == items[j];
    assert items == init + [items[k]];
  }

  /** The first row is the empty row exactly when the first import has no '.'. */
  lemma {:induction false} FirstRow(items: seq<ImportItem>, hasAlias: bool)
    requires |items| > 0
    ensures |FileRows(items, hasAlias)| > 0
    ensures FileRows(items, hasAlias)[0] == EmptyRow <==> !IsSysImport(items[0].path)
    decreases |items|
  {
    FileRowsSnoc(items, hasAlias);
    if |items| > 1 {
      var init := items[..|items| - 1];
      assert init[0] == items[0];
      FirstRow(init, hasAlias);
    }
  }

  /** Dropping the empty rows leaves one row per import, in order. */
  function DropEmpty(rows: seq<GoImport.Row>): seq<GoImport.Row>
    decreases |rows|
  {
    if |rows| == 0 then []
    else DropEmpty(rows[..|rows| - 1]) + (if rows[|rows| - 1] == EmptyRow then [] else [rows[|rows| - 1]])
  }

  lemma {:induction false} DropEmptyAppend(a: seq<GoImport.Row>, b: seq<GoImport.Row>)
    ensures DropEmpty(a + b) == DropEmpty(a) + DropEmpty(b)
    decreases |b|
  {
    if |b| == 0 {
      assert a + b == a;
    } else {
      assert (a + b)[..|a + b| - 1] == a + b[..|b| - 1];
      DropEmptyAppend(a, b[..|b| - 1]);
    }
  }

  /** One row per import, in order. */
  function RowsOf(items: seq<ImportItem>, hasAlias: bool): (r: seq<GoImport.Row>)
    ensures |r| == |items|
    ensures forall k :: 0 <= k < |items| ==> r[k] == FileRow(items[k], hasAlias)
  {
    seq(|items|, k requires 0 <= k < |items| => FileRow(items[k], hasAlias))
  }

  /** Dropping the empty rows leaves exactly one row per import, in order. */
  lemma {:induction false} FileRowsImports(items: seq<ImportItem>, hasAlias: bool)
    ensures DropEmpty(FileRows(items, hasAlias)) == RowsOf(items, hasAlias)
    decreases |items|
  {
    if |items| > 0 {
      var k := |items| - 1;
      RowsOfSnoc(items, hasAlias);
      FileRowsSnoc(items, hasAlias);
      FileRowsImports(items[..k], hasAlias);
      DropStep(FileRows(items[..k], hasAlias), SeparatorRow(items, k), FileRow(items[k], hasAlias));
    }
  }

  lemma RowsOfSnoc(items: seq<ImportItem>, hasAlias: bool)
    requires |items| > 0
    ensures RowsOf(items, hasAlias) == RowsOf(items[..|items| - 1], hasAlias) + [FileRow(items[|items| - 1], hasAlias)]
  {
  }

  lemma FileRowsSnoc(items: seq<ImportItem>, hasAlias: bool)
    requires |items| > 0
    ensures var k := |items| - 1;
      FileRows(items, hasAlias) == FileRows(items[..k], hasAlias) + SeparatorRow(items, k) + [FileRow(items[k], hasAlias)]
  {
  }

  lemma DropStep(prev: seq<GoImport.Row>, sep: seq<GoImport.Row>, row: GoImport.Row)
    requires sep == [] || sep == [EmptyRow]
    requires |row.cols| >= 1
    ensures DropEmpty(prev + sep + [row]) == DropEmpty(prev) + [row]
  {
    DropEmptyAppend(prev + sep, [row]);
    DropEmptyAppend(prev, sep);
    DropEmptySmall(sep, row);
    assert DropEmpty(prev) + DropEmpty(sep) == DropEmpty(prev);
  }

  lemma DropEmptySmall(sep: seq<GoImport.Row>, row: GoImport.Row)
    requires sep == [] || sep == [EmptyRow]
    requires |row.cols| >= 1
    ensures DropEmpty(sep) == [] && DropEmpty([row]) == [row]
  {
    assert [row][..0] == [];
    if sep != [] {
      assert sep[..0] == [];
    }
  }

  /** A single import: "import", " alias" for a non-empty alias, " " and the quoted path, a newline. */
  lemma SingleFileImportText(imp: ImportItem, table: seq<GoImport.Row> -> seq<Cmd>)
    ensures Plain(FileImportsCmds([imp], table)) ==
      "import" + (if imp.alias != "" then " " + imp.alias else "") + (" " + Quote(imp.path) + "\n")
  {
    var a: seq<Cmd> := if imp.alias != "" then [Space] + IDCmds(imp.alias, true) else [];
    var tail: seq<Cmd> := [Space, Str(Quote(imp.path)), Newline];
    assert FileImportsCmds([imp], table) == [Str("import")] + a + tail;
    Plain3([Str("import")], a, tail);
    PlainOne(Str("import"));
    AliasText(imp.alias);
    PathLineText(Quote(imp.path));
  }

  lemma AliasText(alias: string)
    ensures Plain(if alias != "" then [Space] + IDCmds(alias, true) else []) ==
      if alias != "" then " " + alias else ""
  {
    if alias != "" {
      PlainAppend([Space], IDCmds(alias, true));
      PlainOne(Space);
    }
  }

  lemma PathLineText(q: string)
    ensures Plain([Space, Str(q), Newline]) == " " + q + "\n"
  {
    assert [Space, Str(q), Newline] == [Space] + [Str(q)] + [Newline];
    Plain3([Space], [Str(q)], [Newline]);
    PlainOne(Space);
    PlainOne(Str(q));
    PlainOne(Newline);
  }

  /** `File.Write`: the comments, "package <name>" and a blank line, then the imports. */
  lemma FileText(comm: seq<string>, pkg: string, imports: seq<ImportItem>, table: seq<GoImport.Row> -> seq<Cmd>)
    ensures Plain(FileCmds(comm, pkg, imports, table)) ==
      Plain(CommentsCmds(comm)) + ("package " + pkg + "\n\n") + Plain(FileImportsCmds(imports, table))
  {
    var head: seq<Cmd> := [Bytes("package " + pkg), Newline, Newline];
    assert FileCmds(comm, pkg, imports, table) == CommentsCmds(comm) + head + FileImportsCmds(imports, table);
    Plain3(CommentsCmds(comm), head, FileImportsCmds(imports, table));
    PackageText(pkg);
  }

  lemma PackageText(pkg: string)
    ensures Plain([Bytes("package " + pkg), Newline, Newline]) == "package " + pkg + "\n\n"
  {
    assert [Bytes("package " + pkg), Newline, Newline] == [Bytes("package " + pkg)] + [Newline, Newline];
    PlainAppend([Bytes("package " + pkg)], [Newline, Newline]);
    PlainOne(Bytes("package " + pkg));
    PlainTwo(Newline, Newline);
    PlainOne(Newline);
  }

  /** The text of one leading comment: its "//" lines, then the extra newline. */
  function CommentBlockText(c: string): string
  {
    ("//" + Join(Split(c, '\n'), "\n//") + "\n") + "\n"
  }

  function CommentBlockTexts(comm: seq<string>): (r: seq<string>)
  {
    seq(|comm|, k requires 0 <= k < |comm| => CommentBlockText(comm[k]))
  }

  /** Each comment is written as its "//" lines, then one more newline. */
  lemma {:induction false} CommentsText(comm: seq<string>)
    ensures Plain(CommentsCmds(comm)) == Concat(CommentBlockTexts(comm))
    decreases |comm|
  {
    if |comm| > 0 {
      var k := |comm| - 1;
      CommentsText(comm[..k]);
      CommentsSnoc(comm);
      ConcatStep(CommentBlockTexts(comm), Plain(CommentsCmds(comm[..k])), CommentBlockText(comm[k]));
    }
  }

  /** One comment more: its text follows the text of those before it. */
  lemma CommentsSnoc(comm: seq<string>)
    requires |comm| > 0
    ensures var k := |comm| - 1;
      Plain(CommentsCmds(comm)) == Plain(CommentsCmds(comm[..k])) + CommentBlockText(comm[k]) &&
      CommentBlockTexts(comm)[..k] == CommentBlockTexts(comm[..k])
  {
    var k := |comm| - 1;
    var prev, last := CommentsCmds(comm[..k]), CommentBlockCmds(comm[k]);
    assert CommentsCmds(comm) == prev + last;
    PlainAppend(prev, last);
    CommentBlockCmdsText(comm[k]);
    BlockTextsPrefix(comm);
  }

  /** The texts of all comments but the last are the texts of the comments before it. */
  lemma BlockTextsPrefix(comm: seq<string>)
    requires |comm| > 0
    ensures CommentBlockTexts(comm)[..|comm| - 1] == CommentBlockTexts(comm[..|comm| - 1])
  {
  }

  lemma CommentBlockCmdsText(c: string)
    ensures Plain(CommentBlockCmds(c)) == CommentBlockText(c)
  {
    PlainAppend(CommentCmds(c, false), [Newline]);
    CommentMultiText(c);
    PlainOne(Newline);
  }

  class File {
    const comm: seq<string>
    const pkg: string
    var imports: seq<ImportItem>
    var decls: seq<Decl>

    /** `NewFile(comments, pkgName)`: no imports, no declarations. */
    constructor (comments: seq<string>, pkgName: string)
      ensures comm == comments && pkg == pkgName && imports == [] && decls == []
    {
      comm := comments;
      pkg := pkgName;
      imports := [];
      decls := [];
    }

    /** `File.Write`: the imports are sorted in place (two or more of them) as they are written. */
    method Write(w: Writer, table: seq<GoImport.Row> -> seq<Cmd>)
      modifies this, w
      ensures imports == (if |old(imports)| >= 2 then SortByKey(old(imports), FileImportKey) else old(imports))
      ensures decls == old(decls)
      ensures w.Snapshot() == Exec(old(w.Snapshot()), FileCmds(comm, pkg, old(imports), table))
    {
      ghost var st := w.Snapshot();
      WriteComments(w, comm);
      ghost var s1 := w.Snapshot();
      var _ := w.Write("package " + pkg);
      w.Newline();
      w.Newline();
      PackageStep(s1, pkg);
      ghost var s2 := w.Snapshot();
      ghost var imp := imports;
      WriteImports(w, table);
      ExecAppend(st, CommentsCmds(comm) + [Bytes("package " + pkg), Newline, Newline], FileImportsCmds(imp, table));
      ExecAppend(st, CommentsCmds(comm), [Bytes("package " + pkg), Newline, Newline]);
    }

    /** `Imports.write`. */
    method WriteImports(w: Writer, table: seq<GoImport.Row> -> seq<Cmd>)
      modifies this, w
      ensures imports == (if |old(imports)| >= 2 then SortByKey(old(imports), FileImportKey) else old(imports))
      ensures decls == old(decls)
      ensures w.Snapshot() == Exec(old(w.Snapshot()), FileImportsCmds(old(imports), table))
    {
      var imp := imports;
      if |imp| == 0 {
        return;
      }
      if |imp| == 1 {
        WriteSingleFileImport(w, imp[0]);
        return;
      }
      var sorted := SortByKey(imp, FileImportKey);
      imports := sorted;
      WriteSortedImports(w, sorted, table);
    }

    method Types(cfg: Option<seq<TypeDecl>>) returns (res: TypeDecls)
      modifies this
      ensures fresh(res) && res.items == Added(cfg)
      ensures decls == old(decls) + [TypeGroup(res)] && imports == old(imports)
    {
      res := new TypeDecls();
      decls := decls + [TypeGroup(res)];
      res.Config(cfg);
    }

    method Funcs(cfg: Option<seq<FuncArgs>>) returns (res: FuncDecls)
      modifies this
      ensures fresh(res) && res.items == FuncItems(Added(cfg))
      ensures decls == old(decls) + [FuncGroup(res)] && imports == old(imports)
    {
      res := new FuncDecls();
      decls := decls + [FuncGroup(res)];
      res.Config(cfg);
    }

    method Vars(cfg: Option<seq<VarDecl>>) returns (res: VarDecls)
      modifies this
      ensures fresh(res) && res.items == Added(cfg)
      ensures decls == old(decls) + [VarGroup(res)] && imports == old(imports)
    {
      res := new VarDecls();
      decls := decls + [VarGroup(res)];
      res.Config(cfg);
    }

    method Consts(cfg: Option<seq<VarDecl>>) returns (res: ConstDecls)
      modifies this
      ensures fresh(res) && res.items == Added(cfg)
      ensures decls == old(decls) + [ConstGroup(res)] && imports == old(imports)
    {
      res := new ConstDecls();
      decls := decls + [ConstGroup(res)];
      res.Config(cfg);
    }
  }

  /** The comment loop of `File.Write`. */
  method WriteComments(w: Writer, comm: seq<string>)
    modifies w
    ensures w.Snapshot() == Exec(old(w.Snapshot()), CommentsCmds(comm))
  {
    ghost var st := w.Snapshot();
    var idx := 0;
    while idx < |comm|
      invariant 0 <= idx <= |comm|
      invariant w.Snapshot() == Exec(st, CommentsCmds(comm[..idx]))
    {
      w.Do(CommentCmds(comm[idx], false));
      w.Newline();
      CommentStep(st, comm, idx);
      idx := idx + 1;
    }
    assert comm[..idx] == comm;
  }

  lemma CommentStep(st: State, comm: seq<string>, idx: nat)
    requires idx < |comm|
    ensures Exec(st, CommentsCmds(comm[..idx + 1])) ==
      AfterWriteByte(Exec(Exec(st, CommentsCmds(comm[..idx])), CommentCmds(comm[idx], false)), '\n')
  {
    var prev := CommentsCmds(comm[..idx]);
    var c := CommentCmds(comm[idx], false);
    assert comm[..idx + 1][..idx] == comm[..idx];
    assert CommentsCmds(comm[..idx + 1]) == prev + (c + [Newline]);
    assert prev + (c + [Newline]) == prev + c + [Newline];
    ExecStep(st, prev + c, Newline);
    ExecAppend(st, prev, c);
  }

  lemma PackageStep(st: State, pkg: string)
    ensures Exec(st, [Bytes("package " + pkg), Newline, Newline]) ==
      AfterWriteByte(AfterWriteByte(AfterWrite(st, "package " + pkg), '\n'), '\n')
  {
    var c: seq<Cmd> := [Bytes("package " + pkg), Newline, Newline];
    ExecStep(st, [], Bytes("package " + pkg));
    ExecStep(st, c[..1], Newline);
    ExecStep(st, c[..2], Newline);
    assert c[..1] == [] + [Bytes("package " + pkg)];
    assert c[..2] == c[..1] + [Newline];
    assert c == c[..2] + [Newline];
  }

  /** The single-import branch of `Imports.write`. */
  method WriteSingleFileImport(w: Writer, imp: ImportItem)
    modifies w
    ensures w.Snapshot() == Exec(old(w.Snapshot()), SingleFileImportCmds(imp))
  {
    ghost var st := w.Snapshot();
    var _ := w.WriteString("import");
    if imp.alias != "" {
      w.Space();
      var _ := w.WriteString(imp.alias);
    }
    ghost var s1 := w.Snapshot();
    w.Space();
    var _ := w.WriteString(Quote(imp.path));
    w.Newline();
    SingleFileImportExec(st, imp, s1);
  }

  /** The states the single-import writes go through. */
  lemma SingleFileImportExec(st: State, imp: ImportItem, s1: State)
    requires s1 == (if imp.alias != "" then AfterWriteString(AfterWriteByte(AfterWriteString(st, "import"), ' '), imp.alias)
                    else AfterWriteString(st, "import"))
    ensures Exec(st, SingleFileImportCmds(imp)) ==
      AfterWriteByte(AfterWriteString(AfterWriteByte(s1, ' '), Quote(imp.path)), '\n')
  {
    var head: seq<Cmd> := [Str("import")] + (if imp.alias != "" then [Space] + IDCmds(imp.alias, true) else []);
    var q := Quote(imp.path);
    ImportHeadExec(st, imp, s1);
    assert SingleFileImportCmds(imp) == head + [Space] + [Str(q)] + [Newline];
    ExecByte(st, head, ' ');
    ExecStr(st, head + [Space], q);
    ExecByte(st, head + [Space] + [Str(q)], '\n');
  }

  /** The head of the one-line form: "import", then a space and the alias when there is one. */
  lemma ImportHeadExec(st: State, imp: ImportItem, s1: State)
    requires s1 == (if imp.alias != "" then AfterWriteString(AfterWriteByte(AfterWriteString(st, "import"), ' '), imp.alias)
                    else AfterWriteString(st, "import"))
    ensures Exec(st, [Str("import")] + (if imp.alias != "" then [Space] + IDCmds(imp.alias, true) else [])) == s1
  {
    ExecStr(st, [], "import");
    assert [] + [Str("import")] == [Str("import")];
    if imp.alias != "" {
      assert [Str("import")] + ([Space] + IDCmds(imp.alias, true)) == [Str("import")] + [Space] + [Str(imp.alias)];
      ExecByte(st, [Str("import")], ' ');
      ExecStr(st, [Str("import")] + [Space], imp.alias);
    } else {
      assert [Str("import")] + [] == [Str("import")];
    }
  }

  /** One turn of the row loop: the rows for one import more. */
  lemma RowStep(items: seq<ImportItem>, idx: nat, hasAlias: bool, prvSys: bool, prev: seq<GoImport.Row>, rows: seq<GoImport.Row>)
    requires idx < |items|
    requires prvSys == (idx == 0 || IsSysImport(items[idx - 1].path))
    requires prev == FileRows(items[..idx], hasAlias)
    requires rows == prev + (if !IsSysImport(items[idx].path) && prvSys then [EmptyRow] else []) + [FileRow(items[idx], hasAlias)]
    ensures rows == FileRows(items[..idx + 1], hasAlias)
  {
    assert items[..idx + 1][..idx] == items[..idx];
    FileRowsSnoc(items[..idx + 1], hasAlias);
  }

  /** The block form of `Imports.write`, once the imports are sorted: the rows, then the block. */
  method WriteSortedImports(w: Writer, sorted: seq<ImportItem>, table: seq<GoImport.Row> -> seq<Cmd>)
    modifies w
    ensures w.Snapshot() == Exec(old(w.Snapshot()), SortedImportsCmds(sorted, table))
  {
    var hasAlias := exists k | 0 <= k < |sorted| :: sorted[k].alias != "";
    assert hasAlias == HasAlias(sorted);
    var rows := BuildFileRows(sorted, hasAlias);
    GoImport.WriteImportBlock(w, table(rows));
  }

  /** One turn of the row loop: the empty row when this import starts the imports without '.', then its row. */
  method AddFileRow(rows: seq<GoImport.Row>, item: ImportItem, prvSys: bool, hasAlias: bool)
    returns (next: seq<GoImport.Row>, curSys: bool)
    ensures curSys == IsSysImport(item.path)
    ensures next == rows + (if !curSys && prvSys then [EmptyRow] else []) + [FileRow(item, hasAlias)]
  {
    curSys := IsSysImport(item.path);
    next := rows;
    if !curSys && prvSys {
      next := next + [EmptyRow];
    } else {
      assert next == rows + [];
    }
    next := next + [FileRow(item, hasAlias)];
  }

  /** The row loop of `Imports.write`, with its `prvSys` flag. */
  method BuildFileRows(items: seq<ImportItem>, hasAlias: bool) returns (rows: seq<GoImport.Row>)
    ensures rows == FileRows(items, hasAlias)
  {
    var prvSys := true;
    rows := [];
    var idx := 0;
    while idx < |items|
      invariant 0 <= idx <= |items|
      invariant rows == FileRows(items[..idx], hasAlias)
      invariant prvSys == (idx == 0 || IsSysImport(items[idx - 1].path))
    {
      var next, curSys := AddFileRow(rows, items[idx], prvSys, hasAlias);
      RowStep(items, idx, hasAlias, prvSys, rows, next);
      rows, prvSys := next, curSys;
      idx := idx + 1;
    }
    assert items[..idx] == items;
  }
}
