/**
  The indent-tracking writer of writer.go.

  The writer's state is the indent string `ts`, the depth (`in` in Go), the
  line-start flag `nl` and the text emitted so far (`out`, standing in for the
  buffered sink).  `State` is that state as a value and the functions
  `AfterEnsureIndented`, `AfterWriteByte`, `AfterWriteString`, `AfterWrite` and
  `Exec` say what each operation does to it; the class `Writer` performs the
  operations in place and is proved to follow them.

  A Go closure handed to `Indent`, and a node's `write` method, only ever call
  the writer; such a piece of code is represented by the list of calls it
  makes (`seq<Cmd>`), which `Writer.Do` performs and `Exec` describes.
 */
module CodeWriter {
  import opened Text

  /** One call on the writer. `Space()` and `Newline()` are `Byte(' ')` and `Byte('\n')`. */
  datatype Cmd =
    | Str(s: string)            // w.WriteString(s)
    | Byte(b: char)             // w.WriteByte(b)
    | Bytes(data: string)       // w.Write(data), which fmt.Fprintf uses
    | Indented(action: seq<Cmd>) // w.Indent(func() { action })

  const Space: Cmd := Byte(' ')
  const Newline: Cmd := Byte('\n')

  datatype State = State(ts: string, depth: int, nl: bool, out: string)

  /** The state `NewWriter(sink, tabString)` starts in. */
  function NewState(tabString: string): (st: State)
    ensures st.ts != "" && (tabString != "" ==> st.ts == tabString)
    ensures st.depth == 0 && st.nl && st.out == ""
  {
    State(if tabString == "" then "\t" else tabString, 0, true, "")
  }

  /** `ensureIndented`: at line start, emit the indent string `depth` times and leave line start. */
  function AfterEnsureIndented(st: State): State
  {
    if !st.nl then st else st.(out := st.out + Repeat(st.ts, st.depth), nl := false)
  }

  /** `WriteByte(b)`. */
  function AfterWriteByte(st: State, b: char): State
  {
    if b == '\n' then st.(nl := true, out := st.out + "\n")
    else
      var s := AfterEnsureIndented(st);
      s.(out := s.out + [b])
  }

  /** The loop of `WriteString` over the pieces of its argument split at '\n'. */
  function AfterLines(st: State, lines: seq<string>): State
    decreases |lines|
  {
    if |lines| == 0 then st
    else
      var p := AfterLines(st, lines[..|lines| - 1]);
      var q := if |lines| > 1 then AfterWriteByte(p, '\n') else p;
      var r := AfterEnsureIndented(q);
      r.(out := r.out + lines[|lines| - 1])
  }

  /** `WriteString(str)`. */
  function AfterWriteString(st: State, str: string): State
  {
    AfterLines(st, Split(str, '\n'))
  }

  /** `Write(data)`: `WriteByte` of each byte in turn. */
  function AfterWrite(st: State, data: string): State
    decreases |data|
  {
    if |data| == 0 then st else AfterWriteByte(AfterWrite(st, data[..|data| - 1]), data[|data| - 1])
  }

  /** The state after performing the calls `cmds` in order. */
  function Exec(st: State, cmds: seq<Cmd>): State
    decreases cmds
  {
    if |cmds| == 0 then st
    else
      var p := Exec(st, cmds[..|cmds| - 1]);
      match cmds[|cmds| - 1]
      case Str(s) => AfterWriteString(p, s)
      case Byte(b) => AfterWriteByte(p, b)
      case Bytes(data) => AfterWrite(p, data)
      case Indented(action) =>
        var r := Exec(p.(depth := p.depth + 1), action);
        r.(depth := r.depth - 1)
  }

  /** The text the calls write, without any indentation. */
  function Plain(cmds: seq<Cmd>): string
    decreases cmds
  {
    if |cmds| == 0 then ""
    else
      Plain(cmds[..|cmds| - 1]) +
      match cmds[|cmds| - 1]
      case Str(s) => s
      case Byte(b) => [b]
      case Bytes(data) => data
      case Indented(action) => Plain(action)
  }

  /** The calls hold no newline and no indented block: they stay on the current line. */
  predicate OneLine(cmds: seq<Cmd>)
  {
    forall k :: 0 <= k < |cmds| ==>
      match cmds[k]
      case Str(s) => '\n' !in s
      case Byte(b) => b != '\n'
      case Bytes(data) => '\n' !in data
      case Indented(_) => false
  }

  // ---------------------------------------------------------------------------
  // Facts about the writer's semantics.

  /** `WriteString` keeps the indent string and the depth. */
  lemma {:induction false} LinesKeepDepth(st: State, lines: seq<string>)
    ensures AfterLines(st, lines).ts == st.ts && AfterLines(st, lines).depth == st.depth
    decreases |lines|
  {
    if |lines| > 0 {
      LinesKeepDepth(st, lines[..|lines| - 1]);
    }
  }

  /** `Write` keeps the indent string and the depth. */
  lemma {:induction false} WriteKeepsDepth(st: State, data: string)
    ensures AfterWrite(st, data).ts == st.ts && AfterWrite(st, data).depth == st.depth
    decreases |data|
  {
    if |data| > 0 {
      WriteKeepsDepth(st, data[..|data| - 1]);
    }
  }

  /**
    Depth balance: whatever the calls, including nested `Indent`s, the depth
    afterwards equals the depth before, and the indent string never changes.
   */
  lemma {:induction false} ExecKeepsDepth(st: State, cmds: seq<Cmd>)
    ensures Exec(st, cmds).ts == st.ts && Exec(st, cmds).depth == st.depth
    decreases cmds
  {
    if |cmds| > 0 {
      var p := Exec(st, cmds[..|cmds| - 1]);
      ExecKeepsDepth(st, cmds[..|cmds| - 1]);
      match cmds[|cmds| - 1]
      case Str(s) => LinesKeepDepth(p, Split(s, '\n'));
      case Byte(b) =>
      case Bytes(data) => WriteKeepsDepth(p, data);
      case Indented(action) => ExecKeepsDepth(p.(depth := p.depth + 1), action);
    }
  }

  /** Performing `a` then `b` is performing `a + b`. */
  lemma {:induction false} ExecAppend(st: State, a: seq<Cmd>, b: seq<Cmd>)
    ensures Exec(st, a + b) == Exec(Exec(st, a), b)
    decreases |b|
  {
    if |b| == 0 {
      assert a + b == a;
    } else {
      assert (a + b)[..|a + b| - 1] == a + b[..|b| - 1];
      ExecAppend(st, a, b[..|b| - 1]);
    }
  }

  /** One more call after `a`: the writer's single-call steps. */
  lemma ExecStep(st: State, a: seq<Cmd>, c: Cmd)
    ensures c.Str? ==> Exec(st, a + [c]) == AfterWriteString(Exec(st, a), c.s)
    ensures c.Byte? ==> Exec(st, a + [c]) == AfterWriteByte(Exec(st, a), c.b)
    ensures c.Bytes? ==> Exec(st, a + [c]) == AfterWrite(Exec(st, a), c.data)
    ensures Exec(st, a + [c]) == Exec(Exec(st, a), [c])
  {
    assert (a + [c])[..|a|] == a;
    assert [c][..0] == [];
  }

  /** One more `WriteString` after `a`. */
  lemma ExecStr(st: State, a: seq<Cmd>, s: string)
    ensures Exec(st, a + [Str(s)]) == AfterWriteString(Exec(st, a), s)
  {
    assert (a + [Str(s)])[..|a|] == a;
  }

  /** One more `WriteByte` after `a`. */
  lemma ExecByte(st: State, a: seq<Cmd>, b: char)
    ensures Exec(st, a + [Byte(b)]) == AfterWriteByte(Exec(st, a), b)
  {
    assert (a + [Byte(b)])[..|a|] == a;
  }

  /** A string then a byte. */
  lemma ExecStrByte(st: State, s: string, b: char)
    ensures Exec(st, [Str(s), Byte(b)]) == AfterWriteByte(AfterWriteString(st, s), b)
  {
    ExecStr(st, [], s);
    assert [] + [Str(s)] == [Str(s)];
    ExecByte(st, [Str(s)], b);
    assert [Str(s)] + [Byte(b)] == [Str(s), Byte(b)];
  }

  /** Two bytes. */
  lemma ExecByteByte(st: State, b1: char, b2: char)
    ensures Exec(st, [Byte(b1), Byte(b2)]) == AfterWriteByte(AfterWriteByte(st, b1), b2)
  {
    ExecByte(st, [], b1);
    assert [] + [Byte(b1)] == [Byte(b1)];
    ExecByte(st, [Byte(b1)], b2);
    assert [Byte(b1)] + [Byte(b2)] == [Byte(b1), Byte(b2)];
  }

  lemma {:induction false} PlainAppend(a: seq<Cmd>, b: seq<Cmd>)
    ensures Plain(a + b) == Plain(a) + Plain(b)
    decreases |b|
  {
    if |b| == 0 {
      assert a + b == a;
    } else {
      var init, last := b[..|b| - 1], b[|b| - 1];
      var m: string := match last
        case Str(s) => s
        case Byte(x) => [x]
        case Bytes(data) => data
        case Indented(action) => Plain(action);
      assert (a + b)[..|a + b| - 1] == a + init;
      assert (a + b)[|a + b| - 1] == last;
      PlainAppend(a, init);
      assert Plain(b) == Plain(init) + m;
      assert Plain(a + b) == Plain(a + init) + m;
      Assoc(Plain(a), Plain(init), m);
    }
  }

  /** The plain text of a cell-like call list: a string, then optionally a string and a byte. */
  lemma PlainSmall(a: string, pad: string, b: char)
    ensures Plain([Str(a)]) == a
    ensures Plain([Str(a)] + [Str(pad), Byte(b)]) == a + pad + [b]
    ensures Plain([Str(a)] + []) == a
  {
    assert [Str(a)][..0] == [];
    var l := [Str(a)] + [Str(pad), Byte(b)];
    assert l[..2] == [Str(a), Str(pad)];
    assert l[..2][..1] == [Str(a)];
    assert [Str(a)] + [] == [Str(a)];
  }

  /** No calls, no text. */
  lemma PlainNone()
    ensures Plain([]) == ""
  {
  }

  /** The plain text of a single call. */
  lemma PlainOne(c: Cmd)
    ensures c.Str? ==> Plain([c]) == c.s
    ensures c.Byte? ==> Plain([c]) == [c.b]
    ensures c.Bytes? ==> Plain([c]) == c.data
    ensures c.Indented? ==> Plain([c]) == Plain(c.action)
  {
    assert [c][..0] == [];
  }

  /** The plain text of two calls. */
  lemma PlainTwo(c: Cmd, d: Cmd)
    ensures Plain([c, d]) == Plain([c]) + Plain([d])
  {
    assert [c, d] == [c] + [d];
    PlainAppend([c], [d]);
  }

  /** A list between two bytes: its text between the two characters. */
  lemma PlainWrap(o: char, mid: seq<Cmd>, c: char)
    ensures Plain([Byte(o)] + mid + [Byte(c)]) == [o] + Plain(mid) + [c]
  {
    PlainAppend([Byte(o)] + mid, [Byte(c)]);
    PlainAppend([Byte(o)], mid);
    PlainOne(Byte(o));
    PlainOne(Byte(c));
  }

  /** An indented block after a newline: "\n" and the block's text. */
  lemma PlainBlock(body: seq<Cmd>)
    ensures Plain([Newline, Indented(body)]) == "\n" + Plain(body)
  {
    PlainTwo(Newline, Indented(body));
    PlainOne(Newline);
    PlainOne(Indented(body));
  }

  /** A group: a heading, a newline and an indented block, then ")". */
  lemma PlainGroup(head: string, body: seq<Cmd>)
    ensures Plain([Str(head)] + [Newline, Indented(body)] + [Byte(')')]) == head + ("\n" + Plain(body)) + ")"
  {
    Plain3([Str(head)], [Newline, Indented(body)], [Byte(')')]);
    PlainOne(Str(head));
    PlainBlock(body);
    PlainOne(Byte(')'));
  }

  /** A list in parentheses after a space. */
  lemma PlainSpacedParens(body: seq<Cmd>)
    ensures Plain([Space, Byte('(')] + body + [Byte(')')]) == " (" + Plain(body) + ")"
  {
    Plain3([Space, Byte('(')], body, [Byte(')')]);
    PlainTwo(Space, Byte('('));
    PlainOne(Space);
    PlainOne(Byte('('));
    PlainOne(Byte(')'));
  }

  /** A string written before a list. */
  lemma PlainPrefix(s: string, x: seq<Cmd>)
    ensures Plain([Str(s)] + x) == s + Plain(x)
  {
    PlainAppend([Str(s)], x);
    PlainOne(Str(s));
  }

  lemma PlainSpaced(op: string)
    ensures Plain([Space, Str(op), Space]) == " " + op + " "
  {
    assert [Space, Str(op), Space] == [Space] + [Str(op), Space];
    PlainAppend([Space], [Str(op), Space]);
    PlainTwo(Str(op), Space);
    PlainOne(Space);
    PlainOne(Str(op));
  }

  /** An operator between two lists, with a space on either side. */
  lemma PlainInfix(l: seq<Cmd>, op: string, r: seq<Cmd>)
    ensures Plain(l + [Space, Str(op), Space] + r) == Plain(l) + " " + op + " " + Plain(r)
  {
    PlainAppend(l + [Space, Str(op), Space], r);
    PlainAppend(l, [Space, Str(op), Space]);
    PlainSpaced(op);
    Assoc(Plain(l), " " + op, " ");
    Assoc(Plain(l), " ", op);
  }

  /** Three lists one after the other. */
  lemma Plain3(a: seq<Cmd>, b: seq<Cmd>, c: seq<Cmd>)
    ensures Plain(a + b + c) == Plain(a) + Plain(b) + Plain(c)
  {
    PlainAppend(a + b, c);
    PlainAppend(a, b);
  }

  /** Four lists one after the other. */
  lemma Plain4(a: seq<Cmd>, b: seq<Cmd>, c: seq<Cmd>, d: seq<Cmd>)
    ensures Plain(a + b + c + d) == Plain(a) + Plain(b) + Plain(c) + Plain(d)
  {
    PlainAppend(a + b + c, d);
    Plain3(a, b, c);
  }

  /**
    One step of a list written with a separator between consecutive items:
    if the items so far gave the pieces joined, one more item gives one more piece.
   */
  lemma PlainJoinStep(prev: seq<Cmd>, sep: string, item: seq<Cmd>, texts: seq<string>)
    requires |texts| >= 1 && texts[|texts| - 1] == Plain(item)
    requires |texts| == 1 ==> prev == []
    requires |texts| > 1 ==> Plain(prev) == Join(texts[..|texts| - 1], sep)
    ensures Plain(prev + (if |texts| > 1 then [Str(sep)] else []) + item) == Join(texts, sep)
  {
    var s: seq<Cmd> := if |texts| > 1 then [Str(sep)] else [];
    PlainAppend(prev + s, item);
    PlainAppend(prev, s);
    if |texts| > 1 {
      PlainOne(Str(sep));
      JoinSnoc(texts, sep);
    } else {
      assert Plain(prev + s) == "";
    }
  }

  lemma JoinSnoc(lines: seq<string>, sep: string)
    requires |lines| >= 2
    ensures Join(lines, sep) == Join(lines[..|lines| - 1], sep) + sep + lines[|lines| - 1]
    decreases |lines|
  {
    if |lines| > 2 {
      var rest, init := lines[1..], lines[..|lines| - 1];
      var head, last := lines[0] + sep, lines[|lines| - 1];
      JoinSnoc(rest, sep);
      assert rest[..|rest| - 1] == init[1..];
      assert rest[|rest| - 1] == last;
      var j := Join(init[1..], sep);
      assert Join(lines, sep) == head + (j + sep + last);
      assert Join(init, sep) == head + j;
      Assoc(head, j + sep, last);
      Assoc(head, j, sep);
    }
  }

  /** Every piece followed by `sep`: one piece more. */
  lemma TerminatedStep(texts: seq<string>, sep: string, prev: string)
    requires |texts| >= 1
    requires |texts| == 1 ==> prev == ""
    requires |texts| > 1 ==> prev == Join(texts[..|texts| - 1], sep) + sep
    ensures prev + (texts[|texts| - 1] + sep) == Join(texts, sep) + sep
  {
    if |texts| > 1 {
      var j, l := Join(texts[..|texts| - 1], sep), texts[|texts| - 1];
      JoinSnoc(texts, sep);
      Assoc(j + sep, l, sep);
    }
  }

  /** A part followed by "," and a newline. */
  lemma CommaLineText(part: seq<Cmd>)
    ensures Plain(part + [Byte(','), Newline]) == Plain(part) + ",\n"
  {
    PlainAppend(part, [Byte(','), Newline]);
    PlainTwo(Byte(','), Newline);
    PlainOne(Byte(','));
    PlainOne(Newline);
  }

  /** Lines each written as `pre` + line + "\n": one line more. */
  lemma PrefixedLinesStep(lines: seq<string>, pre: string, prev: string)
    requires |lines| >= 1
    requires |lines| == 1 ==> prev == ""
    requires |lines| > 1 ==> prev == pre + Join(lines[..|lines| - 1], "\n" + pre) + "\n"
    ensures prev + (pre + lines[|lines| - 1] + "\n") == pre + Join(lines, "\n" + pre) + "\n"
  {
    if |lines| > 1 {
      var j, l := Join(lines[..|lines| - 1], "\n" + pre), lines[|lines| - 1];
      JoinSnoc(lines, "\n" + pre);
      Assoc(pre + j + "\n", pre + l, "\n");
      Assoc(pre + j + "\n", pre, l);
      Assoc(j, "\n", pre);
      Assoc(pre, j + "\n" + pre, l);
      Assoc(pre, j + "\n", pre);
      Assoc(pre, j, "\n");
    }
  }

  /** With no indentation to insert, the pieces come out joined by '\n', unchanged. */
  lemma {:induction false} LinesUnindented(st: State, lines: seq<string>)
    requires Repeat(st.ts, st.depth) == ""
    ensures AfterLines(st, lines).out == st.out + Join(lines, "\n")
    decreases |lines|
  {
    if |lines| > 0 {
      var init := lines[..|lines| - 1];
      LinesUnindented(st, init);
      LinesKeepDepth(st, init);
      if |lines| >= 2 {
        JoinSnoc(lines, "\n");
      }
    }
  }

  /** With no indentation to insert, `WriteString(str)` writes `str` itself. */
  lemma WriteStringUnindented(st: State, str: string)
    requires Repeat(st.ts, st.depth) == ""
    ensures AfterWriteString(st, str).out == st.out + str
  {
    LinesUnindented(st, Split(str, '\n'));
    JoinSplit(str, '\n');
  }

  lemma {:induction false} WriteUnindented(st: State, data: string)
    requires Repeat(st.ts, st.depth) == ""
    ensures AfterWrite(st, data).out == st.out + data
    decreases |data|
  {
    if |data| > 0 {
      WriteUnindented(st, data[..|data| - 1]);
      WriteKeepsDepth(st, data[..|data| - 1]);
      assert data == data[..|data| - 1] + [data[|data| - 1]];
    }
  }

  /** With an empty indent string, every call list adds exactly its plain text to the output. */
  lemma {:induction false} ExecUnindented(st: State, cmds: seq<Cmd>)
    requires st.ts == ""
    ensures Exec(st, cmds).out == st.out + Plain(cmds)
    decreases cmds
  {
    if |cmds| > 0 {
      var p := Exec(st, cmds[..|cmds| - 1]);
      ExecUnindented(st, cmds[..|cmds| - 1]);
      ExecKeepsDepth(st, cmds[..|cmds| - 1]);
      match cmds[|cmds| - 1]
      case Str(s) => RepeatEmpty(p.depth); WriteStringUnindented(p, s);
      case Byte(b) => RepeatEmpty(p.depth);
      case Bytes(data) => RepeatEmpty(p.depth); WriteUnindented(p, data);
      case Indented(action) => ExecUnindented(p.(depth := p.depth + 1), action);
    }
  }

  /**
    The loop of `WriteString` in closed form, at any depth: the indentation
    `ind` (the indent string `depth` times) before the first piece when at line
    start, then the pieces joined by '\n' followed by `ind`; the writer ends
    mid-line.
   */
  lemma {:induction false} LinesIndented(st: State, lines: seq<string>)
    requires |lines| >= 1
    ensures var ind := Repeat(st.ts, st.depth);
      AfterLines(st, lines) ==
        st.(out := st.out + (if st.nl then ind else "") + Join(lines, "\n" + ind), nl := false)
    decreases |lines|
  {
    var ind := Repeat(st.ts, st.depth);
    var x := st.out + (if st.nl then ind else "");
    if |lines| == 1 {
      assert lines[..0] == [];
    } else {
      var init, l := lines[..|lines| - 1], lines[|lines| - 1];
      LinesIndented(st, init);
      var j := Join(init, "\n" + ind);
      JoinSnoc(lines, "\n" + ind);
      Assoc(x, j + ("\n" + ind), l);
      Assoc(x, j, "\n" + ind);
      Assoc(x + j, "\n", ind);
    }
  }

  /**
    `WriteString(str)` at any depth: every '\n' of `str` is followed by the
    indentation, and the indentation also comes first when the writer was at
    line start.
   */
  lemma WriteStringIndented(st: State, str: string)
    ensures var ind := Repeat(st.ts, st.depth);
      AfterWriteString(st, str) ==
        st.(out := st.out + (if st.nl then ind else "") + Join(Split(str, '\n'), "\n" + ind), nl := false)
  {
    LinesIndented(st, Split(str, '\n'));
  }

  /** `ensureIndented` adds nothing but the indent character. */
  lemma EnsureIndentedStrip(st: State, c: char)
    requires RunOf(st.ts, c)
    ensures Without(AfterEnsureIndented(st).out, c) == Without(st.out, c)
    ensures AfterEnsureIndented(st).ts == st.ts && AfterEnsureIndented(st).depth == st.depth
  {
    if st.nl {
      WithoutAppend(st.out, Repeat(st.ts, st.depth), c);
      WithoutRepeat(st.ts, st.depth, c);
    }
  }

  /** `WriteByte(b)` of a byte other than the indent character: only `b` remains once that character is removed. */
  lemma WriteByteStrip(st: State, b: char, c: char)
    requires RunOf(st.ts, c) && b != c
    ensures Without(AfterWriteByte(st, b).out, c) == Without(st.out, c) + [b]
    ensures AfterWriteByte(st, b).ts == st.ts && AfterWriteByte(st, b).depth == st.depth
  {
    var s := if b == '\n' then st else AfterEnsureIndented(st);
    EnsureIndentedStrip(st, c);
    WithoutAppend(s.out, [b], c);
    WithoutFree([b], c);
  }

  /** The loop of `WriteString`, once the indent character is removed: the pieces joined by '\n'. */
  lemma {:induction false} LinesStrip(st: State, lines: seq<string>, c: char)
    requires RunOf(st.ts, c) && c !in Join(lines, "\n")
    ensures Without(AfterLines(st, lines).out, c) == Without(st.out, c) + Join(lines, "\n")
    decreases |lines|
  {
    if |lines| > 0 {
      var init, l := lines[..|lines| - 1], lines[|lines| - 1];
      var p := AfterLines(st, init);
      LinesKeepDepth(st, init);
      if |lines| > 1 {
        JoinSnoc(lines, "\n");
      } else {
        assert init == [];
      }
      LinesStrip(st, init, c);
      var q := if |lines| > 1 then AfterWriteByte(p, '\n') else p;
      if |lines| > 1 {
        WriteByteStrip(p, '\n', c);
      }
      var r := AfterEnsureIndented(q);
      EnsureIndentedStrip(q, c);
      WithoutAppend(r.out, l, c);
      WithoutFree(l, c);
      if |lines| > 1 {
        Assoc(Without(st.out, c), Join(init, "\n") + "\n", l);
        Assoc(Without(st.out, c), Join(init, "\n"), "\n");
      }
    }
  }

  /**
    `WriteString(str)` writes `str` exactly once the inserted indentation is
    removed, at any depth, when the indent string is a run of one character
    that `str` does not contain (such as the default "\t").
   */
  lemma WriteStringStrip(st: State, str: string, c: char)
    requires RunOf(st.ts, c) && c !in str
    ensures Without(AfterWriteString(st, str).out, c) == Without(st.out, c) + str
  {
    JoinSplit(str, '\n');
    LinesStrip(st, Split(str, '\n'), c);
  }

  /** The same for `Write(data)`. */
  lemma {:induction false} WriteStrip(st: State, data: string, c: char)
    requires RunOf(st.ts, c) && c !in data
    ensures Without(AfterWrite(st, data).out, c) == Without(st.out, c) + data
    decreases |data|
  {
    if |data| > 0 {
      var init := data[..|data| - 1];
      assert data == init + [data[|data| - 1]];
      WriteStrip(st, init, c);
      WriteKeepsDepth(st, init);
      WriteByteStrip(AfterWrite(st, init), data[|data| - 1], c);
    }
  }

  /**
    Every call list, including nested `Indent`s at any depth, writes exactly
    its plain text once the inserted indentation is removed, when the indent
    string is a run of one character that the text does not contain.
   */
  lemma {:induction false} ExecStrip(st: State, cmds: seq<Cmd>, c: char)
    requires RunOf(st.ts, c) && c !in Plain(cmds)
    ensures Without(Exec(st, cmds).out, c) == Without(st.out, c) + Plain(cmds)
    decreases cmds
  {
    if |cmds| > 0 {
      var init, last := cmds[..|cmds| - 1], cmds[|cmds| - 1];
      var p, q := Exec(st, init), Exec(st, cmds);
      var m := Plain([last]);
      assert cmds == init + [last];
      PlainAppend(init, [last]);
      PlainOne(last);
      ExecStrip(st, init, c);
      ExecKeepsDepth(st, init);
      CallStrip(p, last, c);
      assert Without(q.out, c) == Without(p.out, c) + m;
      Assoc(Without(st.out, c), Plain(init), m);
    }
  }

  /**
    What a fresh writer emits for a call list, with the default "\t" indent
    (an empty `tabString`) or any indent made of one repeated character `c`:
    removing `c` leaves exactly the plain text.
   */
  lemma NewWriterStrip(tabString: string, c: char, cmds: seq<Cmd>)
    requires if tabString == "" then c == '\t' else RunOf(tabString, c)
    requires c !in Plain(cmds)
    ensures Without(Exec(NewState(tabString), cmds).out, c) == Plain(cmds)
  {
    ExecStrip(NewState(tabString), cmds, c);
  }

  /** One call after `p`: what remains of its output is the call's plain text. */
  lemma {:induction false} CallStrip(p: State, last: Cmd, c: char)
    requires RunOf(p.ts, c) && c !in Plain([last])
    ensures Without(Exec(p, [last]).out, c) == Without(p.out, c) + Plain([last])
    decreases last
  {
    PlainOne(last);
    if last.Indented? {
      var inner := p.(depth := p.depth + 1);
      assert [last][..0] == [];
      assert Exec(p, [last]).out == Exec(inner, last.action).out;
      ExecStrip(inner, last.action, c);
    } else {
      LeafStrip(p, last, c);
    }
  }

  /** A `WriteString`, `WriteByte` or `Write` call after `p`. */
  lemma LeafStrip(p: State, last: Cmd, c: char)
    requires !last.Indented? && RunOf(p.ts, c) && c !in Plain([last])
    ensures Without(Exec(p, [last]).out, c) == Without(p.out, c) + Plain([last])
  {
    assert [] + [last] == [last];
    match last
    case Str(s) =>
      assert Exec(p, [last]) == AfterWriteString(p, s) by { ExecStep(p, [], last); }
      assert Plain([last]) == s by { PlainOne(last); }
      WriteStringStrip(p, s, c);
    case Byte(b) =>
      assert Exec(p, [last]) == AfterWriteByte(p, b) by { ExecStep(p, [], last); }
      assert Plain([last]) == [b] by { PlainOne(last); }
      WriteByteStrip(p, b, c);
    case Bytes(data) =>
      assert Exec(p, [last]) == AfterWrite(p, data) by { ExecStep(p, [], last); }
      assert Plain([last]) == data by { PlainOne(last); }
      WriteStrip(p, data, c);
  }

  /** The calls open no indented block. */
  predicate Flat(cmds: seq<Cmd>)
  {
    forall k :: 0 <= k < |cmds| ==> !cmds[k].Indented?
  }

  /** A concatenation opens an indented block exactly when one of its parts does. */
  lemma FlatAppend(a: seq<Cmd>, b: seq<Cmd>)
    ensures Flat(a + b) <==> Flat(a) && Flat(b)
  {
    if Flat(a + b) {
      forall k | 0 <= k < |a| ensures !a[k].Indented? {
        assert (a + b)[k] == a[k];
      }
      forall k | 0 <= k < |b| ensures !b[k].Indented? {
        assert (a + b)[|a| + k] == b[k];
      }
    }
  }

  lemma Flat3(a: seq<Cmd>, b: seq<Cmd>, c: seq<Cmd>)
    ensures Flat(a + b + c) <==> Flat(a) && Flat(b) && Flat(c)
  {
    FlatAppend(a, b);
    FlatAppend(a + b, c);
  }

  lemma Flat4(a: seq<Cmd>, b: seq<Cmd>, c: seq<Cmd>, d: seq<Cmd>)
    ensures Flat(a + b + c + d) <==> Flat(a) && Flat(b) && Flat(c) && Flat(d)
  {
    Flat3(a, b, c);
    FlatAppend(a + b + c, d);
  }

  lemma Flat5(a: seq<Cmd>, b: seq<Cmd>, c: seq<Cmd>, d: seq<Cmd>, e: seq<Cmd>)
    ensures Flat(a + b + c + d + e) <==> Flat(a) && Flat(b) && Flat(c) && Flat(d) && Flat(e)
  {
    Flat4(a, b, c, d);
    FlatAppend(a + b + c + d, e);
  }

  lemma Flat6(a: seq<Cmd>, b: seq<Cmd>, c: seq<Cmd>, d: seq<Cmd>, e: seq<Cmd>, f: seq<Cmd>)
    ensures Flat(a + b + c + d + e + f) <==> Flat(a) && Flat(b) && Flat(c) && Flat(d) && Flat(e) && Flat(f)
  {
    Flat5(a, b, c, d, e);
    FlatAppend(a + b + c + d + e, f);
  }

  lemma Flat8(a: seq<Cmd>, b: seq<Cmd>, c: seq<Cmd>, d: seq<Cmd>, e: seq<Cmd>, f: seq<Cmd>, g: seq<Cmd>, h: seq<Cmd>)
    ensures Flat(a + b + c + d + e + f + g + h) <==>
      Flat(a) && Flat(b) && Flat(c) && Flat(d) && Flat(e) && Flat(f) && Flat(g) && Flat(h)
  {
    Flat6(a, b, c, d, e, f);
    FlatAppend(a + b + c + d + e + f, g);
    FlatAppend(a + b + c + d + e + f + g, h);
  }

  /**
    At depth zero no indentation is ever inserted: calls that open no
    indented block write their plain text exactly, whatever the indent string.
   */
  lemma {:induction false} ExecFlat(st: State, cmds: seq<Cmd>)
    requires st.depth <= 0 && Flat(cmds)
    ensures Exec(st, cmds).out == st.out + Plain(cmds)
    decreases cmds
  {
    if |cmds| > 0 {
      var init := cmds[..|cmds| - 1];
      var p := Exec(st, init);
      assert Flat(init) by {
        forall k | 0 <= k < |init| ensures !init[k].Indented? {
          assert init[k] == cmds[k];
        }
      }
      ExecFlat(st, init);
      ExecKeepsDepth(st, init);
      assert !cmds[|cmds| - 1].Indented?;
      match cmds[|cmds| - 1]
      case Str(s) => WriteStringUnindented(p, s);
      case Byte(b) =>
      case Bytes(data) => WriteUnindented(p, data);
    }
  }

  /**
    Once the current line has started, calls that stay on one line append
    their plain text and leave the line-start flag clear.
   */
  lemma {:induction false} ExecOneLine(st: State, cmds: seq<Cmd>)
    requires !st.nl && OneLine(cmds)
    ensures Exec(st, cmds) == st.(out := st.out + Plain(cmds))
    decreases cmds
  {
    if |cmds| > 0 {
      var init := cmds[..|cmds| - 1];
      assert OneLine(init) by {
        forall k | 0 <= k < |init| ensures init[k] == cmds[k] {
        }
      }
      ExecOneLine(st, init);
      OneLineStep(Exec(st, init), cmds[|cmds| - 1]);
    }
  }

  lemma OneLineStep(p: State, c: Cmd)
    requires !p.nl && !c.Indented?
    requires c.Str? ==> '\n' !in c.s
    requires c.Byte? ==> c.b != '\n'
    requires c.Bytes? ==> '\n' !in c.data
    ensures c.Str? ==> AfterWriteString(p, c.s) == p.(out := p.out + c.s)
    ensures c.Byte? ==> AfterWriteByte(p, c.b) == p.(out := p.out + [c.b])
    ensures c.Bytes? ==> AfterWrite(p, c.data) == p.(out := p.out + c.data)
  {
    match c
    case Str(s) =>
      SplitFree(s, '\n');
      assert [s][..0] == [];
      assert AfterLines(p, []) == p;
      assert AfterEnsureIndented(p) == p;
      assert AfterLines(p, [s]) == p.(out := p.out + s);
    case Byte(b) =>
    case Bytes(data) => OneLineWrite(p, data);
  }

  lemma {:induction false} OneLineWrite(st: State, data: string)
    requires !st.nl && '\n' !in data
    ensures AfterWrite(st, data) == st.(out := st.out + data)
    decreases |data|
  {
    if |data| > 0 {
      var init := data[..|data| - 1];
      assert '\n' !in init by {
        forall k | 0 <= k < |init| ensures init[k] == data[k] {
        }
      }
      OneLineWrite(st, init);
      assert data == init + [data[|data| - 1]];
    }
  }

  /**
    `WriteString` always leaves line start, even for "" or a string ending in
    '\n'; in the latter case the next line's indentation is already written.
   */
  lemma WriteStringLeavesLineStart(st: State, str: string)
    ensures !AfterWriteString(st, str).nl
    ensures |str| > 0 && str[|str| - 1] == '\n' ==>
      var r := AfterWriteString(st, str);
      |r.out| >= |Repeat(st.ts, st.depth)| + 1 &&
      r.out[..|r.out| - |Repeat(st.ts, st.depth)|] + Repeat(st.ts, st.depth) == r.out &&
      r.out[|r.out| - |Repeat(st.ts, st.depth)| - 1] == '\n'
  {
    var lines := Split(str, '\n');
    if |str| > 0 && str[|str| - 1] == '\n' {
      SplitEndsEmpty(str, '\n');
      var p := AfterLines(st, lines[..|lines| - 1]);
      LinesKeepDepth(st, lines[..|lines| - 1]);
      var q := AfterWriteByte(p, '\n');
      assert q.out == p.out + "\n";
      var r := AfterWriteString(st, str);
      assert r.out == q.out + Repeat(st.ts, st.depth) + "";
    }
  }

  /** A string ending in the separator splits into at least two pieces, the last one empty. */
  lemma {:induction false} SplitEndsEmpty(s: string, sep: char)
    requires |s| > 0 && s[|s| - 1] == sep
    ensures |Split(s, sep)| >= 2 && Split(s, sep)[|Split(s, sep)| - 1] == ""
    decreases |s|
  {
    if |s| > 1 {
      SplitEndsEmpty(s[1..], sep);
    }
  }

  /**
    The line-start rule of `WriteByte`: a newline sets the flag and is written
    bare; any other byte written at line start is preceded by exactly `depth`
    copies of the indent string and clears the flag; elsewhere it is written bare.
   */
  lemma WriteByteRule(st: State, b: char)
    ensures b == '\n' ==> AfterWriteByte(st, b) == st.(nl := true, out := st.out + "\n")
    ensures b != '\n' && st.nl ==> AfterWriteByte(st, b) == st.(nl := false, out := st.out + Repeat(st.ts, st.depth) + [b])
    ensures b != '\n' && !st.nl ==> AfterWriteByte(st, b) == st.(out := st.out + [b])
  {
  }

  /** `Indent(action)` runs the action one level deeper and restores the depth afterwards. */
  lemma IndentRestoresDepth(st: State, action: seq<Cmd>)
    ensures Exec(st, [Indented(action)]).depth == st.depth
    ensures Exec(st, [Indented(action)]) == Exec(st.(depth := st.depth + 1), action).(depth := st.depth)
  {
    assert [Indented(action)][..0] == [];
    ExecKeepsDepth(st.(depth := st.depth + 1), action);
  }

  // ---------------------------------------------------------------------------

  class Writer {
    const ts: string
    var depth: int
    var nl: bool
    var out: string

    function Snapshot(): State
      reads this
    {
      State(ts, depth, nl, out)
    }

    /** `NewWriter`: "\t" replaces an empty indent string; depth 0, at line start. */
    constructor (tabString: string)
      ensures Snapshot() == NewState(tabString)
    {
      ts := if tabString == "" then "\t" else tabString;
      depth := 0;
      nl := true;
      out := "";
    }

    method ensureIndented()
      modifies this
      ensures Snapshot() == AfterEnsureIndented(old(Snapshot()))
    {
      if !nl {
        return;
      }
      var d, t := depth, ts;
      ghost var start := out;
      var i := 0;
      while i < d
        invariant 0 <= i && (d > 0 ==> i <= d) && (d <= 0 ==> i == 0)
        invariant out == start + Repeat(t, i)
        invariant depth == d && nl
      {
        out := out + t;
        i := i + 1;
      }
      assert Repeat(t, i) == Repeat(t, d);
      nl := false;
    }

    method WriteByte(b: char)
      modifies this
      ensures Snapshot() == AfterWriteByte(old(Snapshot()), b)
    {
      if b == '\n' {
        nl := true;
      } else {
        ensureIndented();
      }
      out := out + [b];
    }

    method WriteString(str: string) returns (n: int)
      modifies this
      ensures Snapshot() == AfterWriteString(old(Snapshot()), str)
      ensures n == |str|
    {
      var lines := Split(str, '\n');
      var idx := 0;
      while idx < |lines|
        invariant 0 <= idx <= |lines|
        invariant Snapshot() == AfterLines(old(Snapshot()), lines[..idx])
      {
        assert lines[..idx + 1][..idx] == lines[..idx];
        if idx > 0 {
          WriteByte('\n');
        }
        ensureIndented();
        out := out + lines[idx];
        idx := idx + 1;
      }
      assert lines[..|lines|] == lines;
      n := |str|;
    }

    method Write(data: string) returns (n: int)
      modifies this
      ensures Snapshot() == AfterWrite(old(Snapshot()), data)
      ensures n == |data|
    {
      var rest := data;
      n := 0;
      while |rest| > 0
        invariant 0 <= n <= |data| && rest == data[n..]
        invariant Snapshot() == AfterWrite(old(Snapshot()), data[..n])
      {
        assert data[..n + 1][..n] == data[..n];
        WriteByte(rest[0]);
        rest := rest[1..];
        n := n + 1;
      }
      assert data[..n] == data;
    }

    method Space()
      modifies this
      ensures Snapshot() == AfterWriteByte(old(Snapshot()), ' ')
    {
      WriteByte(' ');
    }

    method Newline()
      modifies this
      ensures Snapshot() == AfterWriteByte(old(Snapshot()), '\n')
    {
      WriteByte('\n');
    }

    /** `Indent(action)`: one level deeper for the action, one level back after it. */
    method Indent(action: seq<Cmd>)
      modifies this
      ensures Snapshot() == Exec(old(Snapshot()), [Indented(action)])
      decreases action, 1
    {
      assert [Indented(action)][..0] == [];
      depth := depth + 1;
      Do(action);
      depth := depth - 1;
    }

    /** Performs the writer calls of an action, in order. */
    method Do(action: seq<Cmd>)
      modifies this
      ensures Snapshot() == Exec(old(Snapshot()), action)
      decreases action, 0
    {
      var i := 0;
      while i < |action|
        invariant 0 <= i <= |action|
        invariant Snapshot() == Exec(old(Snapshot()), action[..i])
      {
        assert action[..i + 1][..i] == action[..i];
        match action[i] {
          case Str(s) =>
            var _ := WriteString(s);
          case Byte(b) =>
            WriteByte(b);
          case Bytes(data) =>
            var _ := Write(data);
          case Indented(a) =>
            Indent(a);
        }
        i := i + 1;
      }
      assert action[..|action|] == action;
    }
  }
}
