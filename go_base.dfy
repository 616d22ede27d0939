/**
  go/base.go of the unfinished go/ rewrite: comments, identifiers and
  `writeList`.

  Every item of the rewrite is written either in single-line form or in
  multi-line form (the `single` flag of `write`); the calls each `write`
  makes are given as a `seq<Cmd>`.
 */
module GoBase {
  import opened Text
  import opened CodeWriter

  /** `strings.ReplaceAll(s, string(from), string(to))` for single bytes. */
  function ReplaceByte(s: string, from: char, to: char): (r: string)
    ensures |r| == |s|
    ensures forall k :: 0 <= k < |s| ==> r[k] == (if s[k] == from then to else s[k])
    decreases |s|
  {
    if |s| == 0 then ""
    else ReplaceByte(s[..|s| - 1], from, to) + [if s[|s| - 1] == from then to else s[|s| - 1]]
  }

  /** The single-line form of `Comment.write`. */
  function CommentSingleCmds(c: string): seq<Cmd>
  {
    [Str("/*"), Str(ReplaceByte(c, '\n', ' ')), Str("*/")]
  }

  /** The loop of the multi-line form of `Comment.write` over the lines of the comment. */
  function CommentLinesCmds(lines: seq<string>): seq<Cmd>
    decreases |lines|
  {
    if |lines| == 0 then []
    else CommentLinesCmds(lines[..|lines| - 1]) + [Str("//"), Str(lines[|lines| - 1]), Newline]
  }

  /** `Comment.write(w, single)`. */
  function CommentCmds(c: string, single: bool): seq<Cmd>
  {
    if single then CommentSingleCmds(c) else CommentLinesCmds(Split(c, '\n'))
  }

  /**
    The single-line form stays on the current line: "/*", the comment with
    every newline replaced by a space, "*/".
   */
  lemma CommentSingleText(c: string)
    ensures OneLine(CommentCmds(c, true))
    ensures Plain(CommentCmds(c, true)) == "/*" + ReplaceByte(c, '\n', ' ') + "*/"
    ensures '\n' !in Plain(CommentCmds(c, true))
  {
    var r := ReplaceByte(c, '\n', ' ');
    ReplaceFree(c);
    CommentSinglePlain(r);
    NoNewlineIn3("/*", r, "*/");
  }

  /** No newline survives the replacement. */
  lemma ReplaceFree(c: string)
    ensures '\n' !in ReplaceByte(c, '\n', ' ')
  {
    var r := ReplaceByte(c, '\n', ' ');
    forall k | 0 <= k < |r| ensures r[k] != '\n' {
    }
  }

  lemma CommentSinglePlain(r: string)
    ensures Plain([Str("/*"), Str(r), Str("*/")]) == "/*" + r + "*/"
  {
    Plain3([Str("/*")], [Str(r)], [Str("*/")]);
    assert [Str("/*")] + [Str(r)] + [Str("*/")] == [Str("/*"), Str(r), Str("*/")];
    PlainOne(Str("/*"));
    PlainOne(Str(r));
    PlainOne(Str("*/"));
  }

  lemma NoNewlineIn3(a: string, b: string, c: string)
    requires '\n' !in a && '\n' !in b && '\n' !in c
    ensures '\n' !in a + b + c
  {
    var s := a + b + c;
    forall k | 0 <= k < |s| ensures s[k] != '\n' {
      if k < |a| {
        assert s[k] == a[k];
      } else if k < |a| + |b| {
        assert s[k] == b[k - |a|];
      } else {
        assert s[k] == c[k - |a| - |b|];
      }
    }
  }

  /**
    The multi-line form writes every '\n'-separated line of the comment as
    "//" + line + '\n' (no space after "//"; an empty comment still gives "//\n").
   */
  lemma CommentMultiText(c: string)
    ensures Flat(CommentCmds(c, false))
    ensures Plain(CommentCmds(c, false)) == "//" + Join(Split(c, '\n'), "\n//") + "\n"
  {
    CommentLinesText(Split(c, '\n'));
  }

  lemma {:induction false} CommentLinesText(lines: seq<string>)
    ensures |lines| >= 1 ==> Plain(CommentLinesCmds(lines)) == "//" + Join(lines, "\n//") + "\n"
    ensures Flat(CommentLinesCmds(lines))
    decreases |lines|
  {
    if |lines| >= 1 {
      var init := lines[..|lines| - 1];
      var last := lines[|lines| - 1];
      var step: seq<Cmd> := [Str("//"), Str(last), Newline];
      CommentLinesText(init);
      PlainAppend(CommentLinesCmds(init), step);
      FlatAppend(CommentLinesCmds(init), step);
      CommentLineText(last);
      if |lines| == 1 {
        assert init == [];
      }
      assert "\n" + "//" == "\n//";
      PrefixedLinesStep(lines, "//", Plain(CommentLinesCmds(init)));
    }
  }


  lemma CommentLineText(line: string)
    ensures Plain([Str("//"), Str(line), Newline]) == "//" + line + "\n"
  {
    var step: seq<Cmd> := [Str("//"), Str(line), Newline];
    assert step == [Str("//")] + [Str(line)] + [Newline];
    Plain3([Str("//")], [Str(line)], [Newline]);
    PlainOne(Str("//"));
    PlainOne(Str(line));
    PlainOne(Newline);
  }

  /** The multi-line form gives back the comment: dropping each "//" and joining the lines restores it. */
  lemma CommentMultiLines(c: string)
    ensures Join(Split(c, '\n'), "\n") == c
    ensures |Split(c, '\n')| >= 1
  {
    JoinSplit(c, '\n');
  }

  /** `ID.write`: the identifier, verbatim, in both forms. */
  function IDCmds(id: string, single: bool): (cmds: seq<Cmd>)
    ensures Flat(cmds) && Plain(cmds) == id
  {
    PlainOne(Str(id));
    [Str(id)]
  }

  /** `Discard`, the blank identifier. */
  const Discard: string := "_"

  /** The items base.go defines: comments and identifiers. */
  datatype Item = CommentItem(text: string) | IDItem(id: string)

  /** `item.write(w, single)`. */
  function ItemCmds(i: Item, single: bool): seq<Cmd>
  {
    match i
    case CommentItem(c) => CommentCmds(c, single)
    case IDItem(id) => IDCmds(id, single)
  }

  /** The first loop of `writeList` (single mode only): the items separated by ", ". */
  function ListInlineCmds(items: seq<Item>, single: bool): seq<Cmd>
    decreases |items|
  {
    if |items| == 0 then []
    else
      ListInlineCmds(items[..|items| - 1], single) +
      (if |items| > 1 then [Str(", ")] else []) + ItemCmds(items[|items| - 1], single)
  }

  /** The action `writeList` always indents: each item, then "," and a newline. */
  function ListLinesCmds(items: seq<Item>, single: bool): seq<Cmd>
    decreases |items|
  {
    if |items| == 0 then []
    else ListLinesCmds(items[..|items| - 1], single) + ItemLineCmds(items[|items| - 1], single)
  }

  /** One line of the indented block: the item, then "," and a newline. */
  function ItemLineCmds(i: Item, single: bool): seq<Cmd>
  {
    ItemCmds(i, single) + [Byte(','), Newline]
  }

  /**
    `writeList(w, items, single)`: in single mode the inline list, and then,
    in both modes, the indented block of lines.
   */
  function WriteListCmds(items: seq<Item>, single: bool): seq<Cmd>
  {
    (if single then ListInlineCmds(items, single) else []) + [Indented(ListLinesCmds(items, single))]
  }

  /** The text of each item of a list. */
  function ItemTexts(items: seq<Item>, single: bool): (r: seq<string>)
  {
    seq(|items|, k requires 0 <= k < |items| => Plain(ItemCmds(items[k], single)))
  }


  lemma {:induction false} ListInlineText(items: seq<Item>, single: bool)
    ensures Plain(ListInlineCmds(items, single)) == Join(ItemTexts(items, single), ", ")
    decreases |items|
  {
    if |items| > 0 {
      var init := items[..|items| - 1];
      ListInlineText(init, single);
      assert ItemTexts(items, single)[..|items| - 1] == ItemTexts(init, single);
      PlainJoinStep(ListInlineCmds(init, single), ", ", ItemCmds(items[|items| - 1], single), ItemTexts(items, single));
    }
  }

  lemma {:induction false} ListLinesText(items: seq<Item>, single: bool)
    ensures |items| == 0 ==> Plain(ListLinesCmds(items, single)) == ""
    ensures |items| > 0 ==> Plain(ListLinesCmds(items, single)) == Join(ItemTexts(items, single), ",\n") + ",\n"
    decreases |items|
  {
    if |items| > 0 {
      var init := items[..|items| - 1];
      ListLinesText(init, single);
      PlainAppend(ListLinesCmds(init, single), ItemLineCmds(items[|items| - 1], single));
      ItemLineText(items[|items| - 1], single);
      assert ItemTexts(items, single)[..|items| - 1] == ItemTexts(init, single);
      TerminatedStep(ItemTexts(items, single), ",\n", Plain(ListLinesCmds(init, single)));
    }
  }

  lemma ItemLineText(i: Item, single: bool)
    ensures Plain(ItemLineCmds(i, single)) == Plain(ItemCmds(i, single)) + ",\n"
  {
    CommaLineText(ItemCmds(i, single));
  }


  /**
    `writeList` in single mode writes the items twice: joined by ", " on the
    current line, then once more as the indented lines "item,\n"; in
    multi-line mode only the indented lines.
   */
  lemma WriteListText(items: seq<Item>, single: bool)
    ensures |items| > 0 ==>
      Plain(WriteListCmds(items, single)) ==
      (if single then Join(ItemTexts(items, single), ", ") else "") + (Join(ItemTexts(items, single), ",\n") + ",\n")
    ensures |items| == 0 ==> Plain(WriteListCmds(items, single)) == ""
  {
    var pre := if single then ListInlineCmds(items, single) else [];
    PlainAppend(pre, [Indented(ListLinesCmds(items, single))]);
    PlainOne(Indented(ListLinesCmds(items, single)));
    ListInlineText(items, single);
    ListLinesText(items, single);
    if |items| == 0 && single {
      assert ItemTexts(items, single) == [];
    }
  }

  /** The block of lines is written one level deeper than the list, and the depth is restored after it. */
  lemma WriteListDepth(st: State, items: seq<Item>, single: bool)
    ensures Exec(st, WriteListCmds(items, single)).depth == st.depth
  {
    var pre := if single then ListInlineCmds(items, single) else [];
    ExecAppend(st, pre, [Indented(ListLinesCmds(items, single))]);
    ExecKeepsDepth(st, pre);
    IndentRestoresDepth(Exec(st, pre), ListLinesCmds(items, single));
  }

  /** `writeList(w, items, single)`, performed on a writer. */
  method WriteList(w: Writer, items: seq<Item>, single: bool)
    modifies w
    ensures w.Snapshot() == Exec(old(w.Snapshot()), WriteListCmds(items, single))
  {
    ghost var st := w.Snapshot();
    if single {
      var idx := 0;
      while idx < |items|
        invariant 0 <= idx <= |items|
        invariant w.Snapshot() == Exec(st, ListInlineCmds(items[..idx], single))
      {
        WriteInlineItem(w, items[idx], idx == 0, single);
        InlineStep(st, items, idx, single);
        idx := idx + 1;
      }
      assert items[..|items|] == items;
    }
    w.Indent(ListLinesCmds(items, single));
    ExecAppend(st, if single then ListInlineCmds(items, single) else [], [Indented(ListLinesCmds(items, single))]);
  }

  /** One iteration of the inline loop of `writeList`: ", " before every item but the first, then the item. */
  method WriteInlineItem(w: Writer, item: Item, first: bool, single: bool)
    modifies w
    ensures w.Snapshot() == Exec(Exec(old(w.Snapshot()), if first then [] else [Str(", ")]), ItemCmds(item, single))
  {
    ghost var before := w.Snapshot();
    if !first {
      var _ := w.WriteString(", ");
      PlainOne(Str(", "));
      ExecStep(before, [], Str(", "));
    }
    w.Do(ItemCmds(item, single));
  }

  /** One more item of the inline list. */
  lemma InlineStep(st: State, items: seq<Item>, idx: nat, single: bool)
    requires idx < |items|
    ensures Exec(Exec(Exec(st, ListInlineCmds(items[..idx], single)), if idx > 0 then [Str(", ")] else []), ItemCmds(items[idx], single))
      == Exec(st, ListInlineCmds(items[..idx + 1], single))
  {
    var sep: seq<Cmd> := if idx > 0 then [Str(", ")] else [];
    assert items[..idx + 1][..idx] == items[..idx];
    assert ListInlineCmds(items[..idx + 1], single) == ListInlineCmds(items[..idx], single) + sep + ItemCmds(items[idx], single);
    ExecAppend(st, ListInlineCmds(items[..idx], single) + sep, ItemCmds(items[idx], single));
    ExecAppend(st, ListInlineCmds(items[..idx], single), sep);
  }
}
