/**
  golang/file.go: the file being generated. It owns the documentation comment,
  the package clause, the import list that `pkgAlias` grows on demand, and the
  declarations added to it; `Render` writes them all, and `parseTags` reads the
  tags of a struct field back from their text.
 */
module GolangFile {
  import opened Wrappers
  import opened Text
  import opened CodeWriter
  import opened Strconv
  import opened GolangBase
  import opened Golang
  import opened GolangText

  /** The comment every rendered file starts with. */
  const GeneratedMarker := "THIS FILE WAS AUTOMATICALLY GENERATED; DO NOT EDIT"

  // ---------------------------------------------------------------------------
  // Package aliases

  /** The alias of the first import of `path`, if there is one (the search loop of `pkgAlias`). */
  function AliasOf(imp: seq<ImportDecl>, path: string): (r: Option<string>)
    ensures r.None? <==> forall k :: 0 <= k < |imp| ==> imp[k].path != path
    ensures r.Some? ==> exists k :: 0 <= k < |imp| && imp[k] == ImportDecl(path, r.value)
    decreases |imp|
  {
    if |imp| == 0 then None
    else if imp[0].path == path then
      assert imp[0] == ImportDecl(path, imp[0].alias);
      Some(imp[0].alias)
    else
      var r := AliasOf(imp[1..], path);
      assert forall k :: 1 <= k < |imp| ==> imp[k] == imp[1..][k - 1];
      r
  }

  /** The alias `pkgAlias` invents for the next new path: "pkg" and the new length. */
  function FreshAlias(n: nat): string
  {
    "pkg" + Decimal(n + 1)
  }

  /** The import list and the alias after `pkgAlias(path)`. */
  datatype Registration = Registration(imports: seq<ImportDecl>, alias: string)

  /** `pkgAlias(path)` on an import list, as a value. */
  function Register(imp: seq<ImportDecl>, path: string): (r: Registration)
    ensures path == "" ==> r == Registration(imp, "")
    ensures path != "" ==> AliasOf(r.imports, path) == Some(r.alias)
    ensures |imp| <= |r.imports| <= |imp| + 1 && r.imports[..|imp|] == imp
    ensures |r.imports| == |imp| + 1 <==> path != "" && AliasOf(imp, path).None?
  {
    if path == "" then Registration(imp, "")
    else
      match AliasOf(imp, path)
      case Some(a) => Registration(imp, a)
      case None =>
        var a := FreshAlias(|imp|);
        var next := imp + [ImportDecl(path, a)];
        AliasOfAppend(imp, path, ImportDecl(path, a));
        assert next[..|imp|] == imp;
        Registration(next, a)
  }

  /** An entry appended after the last one is found only when no earlier entry matches. */
  lemma {:induction false} AliasOfAppend(imp: seq<ImportDecl>, path: string, d: ImportDecl)
    ensures AliasOf(imp + [d], path) ==
      if AliasOf(imp, path).Some? then AliasOf(imp, path)
      else if d.path == path then Some(d.alias)
      else None
    decreases |imp|
  {
    if |imp| > 0 {
      assert (imp + [d])[1..] == imp[1..] + [d];
      AliasOfAppend(imp[1..], path, d);
    } else {
      assert imp + [d] == [d];
    }
  }

  /** Asking again for a path gives the same alias and changes nothing. */
  lemma RegisterIdempotent(imp: seq<ImportDecl>, path: string)
    ensures Register(Register(imp, path).imports, path) == Register(imp, path)
  {
  }

  /**
    The import lists `pkgAlias` builds from nothing: entry k has a non-empty
    path, no other entry has the same path, and its alias is "pkg" + (k + 1).
   */
  predicate Registered(imp: seq<ImportDecl>)
  {
    (forall k :: 0 <= k < |imp| ==> imp[k].path != "" && imp[k].alias == FreshAlias(k)) &&
    (forall i, j :: 0 <= i < j < |imp| ==> imp[i].path != imp[j].path)
  }

  /** `pkgAlias` keeps an import list of that form. */
  lemma RegisterKeepsRegistered(imp: seq<ImportDecl>, path: string)
    requires Registered(imp)
    ensures Registered(Register(imp, path).imports)
  {
    var r := Register(imp, path);
    if |r.imports| == |imp| + 1 {
      assert r.imports == imp + [ImportDecl(path, FreshAlias(|imp|))];
    } else {
      assert r.imports == imp;
    }
  }

  /** In an import list `pkgAlias` built, no two entries share an alias. */
  lemma RegisteredAliasesDistinct(imp: seq<ImportDecl>)
    requires Registered(imp)
    ensures forall i, j :: 0 <= i < j < |imp| ==> imp[i].alias != imp[j].alias
  {
    forall i, j | 0 <= i < j < |imp|
      ensures imp[i].alias != imp[j].alias
    {
      if imp[i].alias == imp[j].alias {
        assert Decimal(i + 1) == imp[i].alias[3..];
        assert Decimal(j + 1) == imp[j].alias[3..];
        DecimalInjective(i + 1, j + 1);
      }
    }
  }

  /** An alias `pkgAlias` hands out names exactly one import of a registered list. */
  lemma RegisteredAliasUnique(imp: seq<ImportDecl>, path: string)
    requires Registered(imp) && path != ""
    ensures var r := Register(imp, path);
      Registered(r.imports) &&
      exists k :: 0 <= k < |r.imports| && r.imports[k] == ImportDecl(path, r.alias) && r.alias == FreshAlias(k)
  {
    RegisterKeepsRegistered(imp, path);
    var r := Register(imp, path);
    var k :| 0 <= k < |r.imports| && r.imports[k] == ImportDecl(path, r.alias);
    assert r.alias == FreshAlias(k);
  }

  // ---------------------------------------------------------------------------
  // Rendering

  /**
    The list `Render` writes: the generated-file marker, the documentation
    comment when there is one, the package clause, the import list when it is
    not empty, then the declarations in the order they were added.
   */
  function FileItems(doc: string, pkg: string, imp: seq<ImportDecl>, decls: seq<Decl>): (items: seq<Decl>)
    ensures var p := if doc != "" then 2 else 1;
      var q := if |imp| > 0 then p + 2 else p + 1;
      |items| == q + |decls| &&
      items[0] == CommentDecl(GeneratedMarker) &&
      (doc != "" ==> items[1] == CommentDecl(doc)) &&
      items[p] == PackageDecl(pkg) &&
      (|imp| > 0 ==> items[p + 1] == ImportDecls(imp)) &&
      items[q..] == decls
  {
    [CommentDecl(GeneratedMarker)] + (if doc != "" then [CommentDecl(doc)] else []) +
    [PackageDecl(pkg)] + (if |imp| > 0 then [ImportDecls(imp)] else []) + decls
  }

  /** One iteration of the `Render` loop, given the calls of the item's `write`: a newline before every item but the first, the item, a newline. */
  function PartCmds(part: seq<Cmd>, first: bool): seq<Cmd>
  {
    (if first then [] else [Newline]) + part + [Newline]
  }

  /** The calls the `Render` loop makes, given the calls of each item's `write`. */
  function PartsCmds(parts: seq<seq<Cmd>>): seq<Cmd>
  {
    if |parts| == 0 then []
    else PartsCmds(parts[..|parts| - 1]) + PartCmds(parts[|parts| - 1], |parts| == 1)
  }

  /** The calls of each item's `write`. */
  function DeclParts(items: seq<Decl>): (r: seq<seq<Cmd>>)
  {
    seq(|items|, i requires 0 <= i < |items| => DeclCmds(items[i]))
  }

  /** The calls the `Render` loop makes for a list of items. */
  function ItemsCmds(items: seq<Decl>): seq<Cmd>
  {
    PartsCmds(DeclParts(items))
  }

  /** The text of each part followed by its newline. */
  function PartTexts(parts: seq<seq<Cmd>>): (r: seq<string>)
  {
    seq(|parts|, i requires 0 <= i < |parts| => Plain(parts[i]) + "\n")
  }

  /** The text of each item followed by its newline. */
  function ItemTexts(items: seq<Decl>): (r: seq<string>)
  {
    PartTexts(DeclParts(items))
  }

  lemma PartText(part: seq<Cmd>, first: bool)
    ensures Plain(PartCmds(part, first)) == (if first then "" else "\n") + (Plain(part) + "\n")
  {
    PlainAppend(part, [Newline]);
    PlainOne(Newline);
    if first {
      assert PartCmds(part, first) == part + [Newline];
    } else {
      assert PartCmds(part, first) == [Newline] + (part + [Newline]);
      PlainAppend([Newline], part + [Newline]);
    }
  }

  /** Every part ends with a newline, and consecutive parts are separated by one more: a blank line. */
  lemma {:induction false} PartsText(parts: seq<seq<Cmd>>)
    ensures |parts| == 0 ==> PartsCmds(parts) == []
    ensures |parts| >= 1 ==> Plain(PartsCmds(parts)) == Join(PartTexts(parts), "\n")
    decreases |parts|
  {
    if |parts| >= 1 {
      var n := |parts|;
      var init := parts[..n - 1];
      var texts := PartTexts(parts);
      var x := Plain(parts[n - 1]) + "\n";
      assert texts == PartTexts(init) + [x];
      PartsText(init);
      PlainAppend(PartsCmds(init), PartCmds(parts[n - 1], n == 1));
      PartText(parts[n - 1], n == 1);
      if n >= 2 {
        var a := Join(PartTexts(init), "\n");
        assert Plain(PartsCmds(parts)) == a + ("\n" + x);
        JoinSnoc(texts, "\n");
        assert texts[..n - 1] == PartTexts(init);
        Assoc(a, "\n", x);
      } else {
        assert init == [];
        PlainNone();
      }
    }
  }

  /** Every item ends with a newline, and consecutive items are separated by one more: a blank line. */
  lemma ItemsText(items: seq<Decl>)
    ensures |items| == 0 ==> ItemsCmds(items) == []
    ensures |items| >= 1 ==> Plain(ItemsCmds(items)) == Join(ItemTexts(items), "\n")
  {
    PartsText(DeclParts(items));
  }


  // ---------------------------------------------------------------------------
  // Struct tags

  /** `strings.IndexByte`: the first position of `c` in `s`, or -1. */
  function IndexByte(s: string, c: char): (pos: int)
    ensures -1 <= pos < |s|
    ensures pos >= 0 ==> s[pos] == c && c !in s[..pos]
    ensures pos < 0 ==> c !in s
    decreases |s|
  {
    if |s| == 0 then -1
    else if s[0] == c then 0
    else
      var p := IndexByte(s[1..], c);
      if p < 0 then -1
      else
        assert s[..p + 1] == [s[0]] + s[1..][..p];
        p + 1
  }

  /**
    One item of `parseTags`: a tag when the item has a non-empty name before
    its first ':' and the rest unquotes; nothing otherwise.
   */
  function TagOf(item: string): Option<Tag>
  {
    var pos := IndexByte(item, ':');
    if pos > 0 then
      match Unquote(item[pos + 1..])
      case Some(v) => Some(Tag(item[..pos], v))
      case None => None
    else None
  }

  /**
    A tag read from an item is the part before its first ':' (non-empty) and
    the unquoted rest; an item gives none when it has no ':', starts with ':'
    or does not unquote after the first ':'.
   */
  lemma TagOfParts(item: string)
    ensures TagOf(item).Some? ==>
      var n := |TagOf(item).value.name|;
      0 < n < |item| && item[..n] == TagOf(item).value.name && item[n] == ':' && ':' !in TagOf(item).value.name &&
      Unquote(item[n + 1..]) == Some(TagOf(item).value.val)
    ensures TagOf(item).None? ==> ':' !in item || item[0] == ':' || Unquote(item[IndexByte(item, ':') + 1..]).None?
  {
  }

  /** The tags of the items, in order, skipping the items that are not tags. */
  function TagsOf(items: seq<string>): (r: seq<Tag>)
    ensures |r| <= |items|
  {
    if |items| == 0 then []
    else
      var t := TagOf(items[|items| - 1]);
      TagsOf(items[..|items| - 1]) + (if t.Some? then [t.value] else [])
  }

  /** `parseTags(str)`; the nil result for "" is the empty list. */
  function ParsedTags(str: string): seq<Tag>
  {
    if str == "" then [] else TagsOf(Split(str, ' '))
  }

  /** `parseTags`: the loop over the space-separated items, keeping the ones that read as tags. */
  method ParseTags(str: string) returns (tags: seq<Tag>)
    ensures tags == ParsedTags(str)
  {
    if str == "" {
      return [];
    }
    var items := Split(str, ' ');
    tags := [];
    var idx := 0;
    while idx < |items|
      invariant 0 <= idx <= |items|
      invariant tags == TagsOf(items[..idx])
    {
      var item := items[idx];
      ghost var seen := items[..idx + 1];
      assert seen[..|seen| - 1] == items[..idx] && seen[|seen| - 1] == item;
      ghost var step := if TagOf(item).Some? then [TagOf(item).value] else [];
      assert TagsOf(seen) == tags + step;
      var pos := IndexByte(item, ':');
      if pos > 0 {
        var val := Unquote(item[pos + 1..]);
        if val.Some? {
          tags := tags + [Tag(item[..pos], val.value)];
        }
      }
      assert tags == TagsOf(seen);
      idx := idx + 1;
    }
    assert items[..idx] == items;
  }

  /** A tag name `parseTags` can give back: non-empty, without ':' and without spaces. */
  predicate ParsableName(name: string)
  {
    name != "" && ':' !in name && ' ' !in name
  }

  /** Every tag `parseTags` returns has a name of that form. */
  lemma ParsedNames(str: string)
    ensures forall k :: 0 <= k < |ParsedTags(str)| ==> ParsableName(ParsedTags(str)[k].name)
  {
    if str != "" {
      SplitPiecesFree(str, ' ');
      TagsOfNames(Split(str, ' '));
    }
  }

  lemma {:induction false} TagsOfNames(items: seq<string>)
    requires forall k :: 0 <= k < |items| ==> ' ' !in items[k]
    ensures forall k :: 0 <= k < |TagsOf(items)| ==> ParsableName(TagsOf(items)[k].name)
    decreases |items|
  {
    if |items| > 0 {
      var item := items[|items| - 1];
      TagsOfNames(items[..|items| - 1]);
      var t := TagOf(item);
      TagOfParts(item);
      if t.Some? {
        var n := |t.value.name|;
        assert ' ' !in t.value.name by {
          forall k | 0 <= k < n ensures t.value.name[k] != ' ' {
            assert t.value.name[k] == item[k];
          }
        }
      }
    }
  }

  /** The first ':' of a name without ':' followed by ':' is the one after the name. */
  lemma IndexAfter(name: string, rest: string)
    requires ':' !in name
    ensures IndexByte(name + ":" + rest, ':') == |name|
  {
    var item := name + ":" + rest;
    assert item[|name|] == ':';
    assert item[..|name|] == name;
  }

  /** The text of one tag is read back as that tag. */
  lemma TagOfText(t: Tag)
    requires ParsableName(t.name)
    ensures TagOf(t.name + ":" + Quote(t.val)) == Some(t)
  {
    var item := t.name + ":" + Quote(t.val);
    IndexAfter(t.name, Quote(t.val));
    assert item[..|t.name|] == t.name;
    assert item[|t.name| + 1..] == Quote(t.val);
    UnquoteQuote(t.val);
  }

  /** Reading one more item that gives one more tag. */
  lemma TagsOfStep(texts: seq<string>, tags: seq<Tag>)
    requires |texts| == |tags| > 0
    requires TagsOf(texts[..|texts| - 1]) == tags[..|tags| - 1]
    requires TagOf(texts[|texts| - 1]) == Some(tags[|tags| - 1])
    ensures TagsOf(texts) == tags
  {
    assert tags == tags[..|tags| - 1] + [tags[|tags| - 1]];
  }

  lemma TagTextsPrefix(tags: seq<Tag>)
    requires |tags| > 0
    ensures TagTexts(tags)[..|tags| - 1] == TagTexts(tags[..|tags| - 1])
  {
  }

  lemma {:induction false} TagsOfTexts(tags: seq<Tag>)
    requires forall k :: 0 <= k < |tags| ==> ParsableName(tags[k].name)
    ensures TagsOf(TagTexts(tags)) == tags
    decreases |tags|
  {
    if |tags| > 0 {
      var n := |tags|;
      var init := tags[..n - 1];
      forall k | 0 <= k < |init| ensures ParsableName(init[k].name) {
        assert init[k] == tags[k];
      }
      TagsOfTexts(init);
      TagsOfTextsStep(tags);
    }
  }

  lemma TagsOfTextsStep(tags: seq<Tag>)
    requires |tags| > 0 && ParsableName(tags[|tags| - 1].name)
    requires TagsOf(TagTexts(tags[..|tags| - 1])) == tags[..|tags| - 1]
    ensures TagsOf(TagTexts(tags)) == tags
  {
    var n := |tags|;
    var texts := TagTexts(tags);
    TagTextsPrefix(tags);
    TagOfText(tags[n - 1]);
    assert texts[n - 1] == tags[n - 1].name + ":" + Quote(tags[n - 1].val);
    TagsOfStep(texts, tags);
  }

  /**
    `parseTags` reads back what the tag writer writes: the space-separated
    `name:"value"` list of tags whose names are parsable and whose values
    contain no space gives the same tags, in the same order.
   */
  lemma {:induction false} ParseTagsRoundTrip(tags: seq<Tag>)
    requires forall k :: 0 <= k < |tags| ==> ParsableName(tags[k].name) && ' ' !in tags[k].val
    ensures ParsedTags(Plain(TagListCmds(tags))) == tags
  {
    if |tags| == 0 {
      assert TagListCmds(tags) == [];
      PlainNone();
    } else {
      var texts := TagTexts(tags);
      var s := Join(texts, " ");
      TagListText(tags);
      TagTextsNoSpace(tags);
      SplitJoin(texts, ' ');
      JoinHead(texts, " ");
      TagsOfTexts(tags);
      assert s != "";
      assert ParsedTags(s) == TagsOf(texts);
    }
  }

  lemma TagTextsNoSpace(tags: seq<Tag>)
    requires forall k :: 0 <= k < |tags| ==> ParsableName(tags[k].name) && ' ' !in tags[k].val
    ensures forall k :: 0 <= k < |tags| ==> ' ' !in TagTexts(tags)[k]
  {
    var texts := TagTexts(tags);
    forall k | 0 <= k < |tags| ensures ' ' !in texts[k] {
      QuoteNoSpace(tags[k].val);
      assert texts[k] == tags[k].name + ":" + Quote(tags[k].val);
    }
  }

  // ---------------------------------------------------------------------------

  /** `File`: its fields change as declarations are added and packages are referenced. */
  class File {
    var doc: string
    var pkg: string
    var imp: seq<ImportDecl>
    var decls: seq<Decl>

    /** `NewFile`: no imports and no declarations yet. */
    constructor (doc: string, pkgName: string)
      ensures this.doc == doc && pkg == pkgName && imp == [] && decls == []
    {
      this.doc := doc;
      pkg := pkgName;
      imp := [];
      decls := [];
    }

    /** `Add`: a nil declaration is ignored; any other is appended at the end. */
    method Add(decl: Option<Decl>)
      modifies this
      ensures decl.None? ==> decls == old(decls)
      ensures decl.Some? ==> decls == old(decls) + [decl.value]
      ensures doc == old(doc) && pkg == old(pkg) && imp == old(imp)
    {
      if decl.None? {
        return;
      }
      decls := decls + [decl.value];
    }

    /** `pkgAlias`: the alias of the path, importing it under a fresh alias when it is new. */
    method PkgAlias(path: string) returns (alias: string)
      modifies this
      ensures imp == Register(old(imp), path).imports && alias == Register(old(imp), path).alias
      ensures doc == old(doc) && pkg == old(pkg) && decls == old(decls)
    {
      if path == "" {
        return "";
      }
      var i := 0;
      while i < |imp|
        invariant 0 <= i <= |imp| && imp == old(imp)
        invariant forall k :: 0 <= k < i ==> imp[k].path != path
      {
        if imp[i].path == path {
          assert AliasOf(imp, path) == Some(imp[i].alias) by {
            AliasOfFirst(imp, path, i);
          }
          return imp[i].alias;
        }
        i := i + 1;
      }
      alias := FreshAlias(|imp|);
      imp := imp + [ImportDecl(path, alias)];
    }

    /** `NamedType`: a named type whose package is the alias `pkgAlias` gives for `path`. */
    method NamedType(id: string, path: string, args: seq<Type>) returns (t: Type)
      modifies this
      ensures var r := Register(old(imp), path); imp == r.imports && t == Type.NamedType(r.alias, id, args)
      ensures doc == old(doc) && pkg == old(pkg) && decls == old(decls)
    {
      var alias := PkgAlias(path);
      t := Type.NamedType(alias, id, args);
    }

    /** `Symbol`: a symbol whose package is the alias `pkgAlias` gives for `path`. */
    method Symbol(id: string, path: string) returns (e: Expr)
      modifies this
      ensures var r := Register(old(imp), path); imp == r.imports && e == SymbolExpr(id, r.alias, [])
      ensures doc == old(doc) && pkg == old(pkg) && decls == old(decls)
    {
      var alias := PkgAlias(path);
      e := SymbolExpr(id, alias, []);
    }

    /** `Render`: every item of the file, each followed by a newline, with a blank line between items. */
    method Render(w: Writer)
      modifies w
      ensures w.Snapshot() == Exec(old(w.Snapshot()), ItemsCmds(FileItems(doc, pkg, imp, decls)))
    {
      var items := FileItems(doc, pkg, imp, decls);
      RenderItems(w, DeclParts(items));
    }
  }

  /** The loop of `Render`, given the calls of each item's `write`. */
  method RenderItems(w: Writer, parts: seq<seq<Cmd>>)
    modifies w
    ensures w.Snapshot() == Exec(old(w.Snapshot()), PartsCmds(parts))
  {
    ghost var st := w.Snapshot();
    var idx := 0;
    while idx < |parts|
      invariant 0 <= idx <= |parts|
      invariant w.Snapshot() == Exec(st, PartsCmds(parts[..idx]))
    {
      PartsStep(st, parts, idx);
      RenderPart(w, parts[idx], idx == 0);
      idx := idx + 1;
    }
    assert parts[..|parts|] == parts;
  }

  /** The first matching entry decides the alias. */
  lemma AliasOfFirst(imp: seq<ImportDecl>, path: string, i: nat)
    requires i < |imp| && imp[i].path == path
    requires forall k :: 0 <= k < i ==> imp[k].path != path
    ensures AliasOf(imp, path) == Some(imp[i].alias)
    decreases i
  {
    if i > 0 {
      AliasOfFirst(imp[1..], path, i - 1);
    }
  }

  /** One iteration of the `Render` loop: the newline between items, the item, its newline. */
  method RenderPart(w: Writer, part: seq<Cmd>, first: bool)
    modifies w
    ensures w.Snapshot() == Exec(old(w.Snapshot()), PartCmds(part, first))
  {
    var sep: seq<Cmd> := if first then [] else [Newline];
    ghost var st := w.Snapshot();
    if !first {
      w.Newline();
      ExecStep(st, [], Newline);
    }
    w.Do(part);
    w.Newline();
    ExecAppend(st, sep, part);
    ExecStep(st, sep + part, Newline);
  }

  lemma PartsStep(st: State, parts: seq<seq<Cmd>>, idx: nat)
    requires idx < |parts|
    ensures Exec(st, PartsCmds(parts[..idx + 1])) == Exec(Exec(st, PartsCmds(parts[..idx])), PartCmds(parts[idx], idx == 0))
  {
    assert parts[..idx + 1][..idx] == parts[..idx];
    ExecAppend(st, PartsCmds(parts[..idx]), PartCmds(parts[idx], idx == 0));
  }

}
