/**
  golang/base.go: identifiers, comments and `Render`.

  An identifier is checked byte by byte against an ASCII-only form of the
  identifier rule of The Go Programming Language Specification (section
  "Identifiers"): a letter or '_' followed by letters, digits and '_'.
 */
module GolangBase {
  import opened Wrappers
  import opened Text
  import opened CodeWriter

  predicate IsUpper(c: char) { 'A' <= c <= 'Z' }
  predicate IsLower(c: char) { 'a' <= c <= 'z' }
  predicate IsLetter(c: char) { IsUpper(c) || IsLower(c) }
  predicate IsDigit(c: char) { '0' <= c <= '9' }

  /** A byte that may follow the first one of an identifier. */
  predicate IsIdentPart(c: char) { IsLetter(c) || IsDigit(c) || c == '_' }

  /** The identifier rule `ID.Valid` checks. */
  predicate IsIdentifier(id: string)
  {
    |id| >= 1 && (IsLetter(id[0]) || id[0] == '_') &&
    forall k :: 1 <= k < |id| ==> IsIdentPart(id[k])
  }

  /** `ID.Valid`: the scan of the identifier's bytes. */
  method Valid(id: string) returns (ok: bool)
    ensures ok <==> IsIdentifier(id)
    ensures ok ==> id != "" && !IsDigit(id[0])
  {
    if |id| < 1 {
      return false;
    }
    if !IsLetter(id[0]) && id[0] != '_' {
      return false;
    }
    var idx := 1;
    while idx < |id|
      invariant 1 <= idx <= |id|
      invariant forall k :: 1 <= k < idx ==> IsIdentPart(id[k])
    {
      if !IsLetter(id[idx]) && !IsDigit(id[idx]) && id[idx] != '_' {
        return false;
      }
      idx := idx + 1;
    }
    return true;
  }

  /** `ID.Exported`. */
  predicate Exported(id: string)
  {
    IsIdentifier(id) && IsUpper(id[0])
  }

  /** `ID.Internal`. */
  predicate Internal(id: string)
  {
    IsIdentifier(id) && !IsUpper(id[0])
  }

  /** A valid identifier is exactly one of exported and internal; an invalid one is neither. */
  lemma ExportedOrInternal(id: string)
    ensures IsIdentifier(id) <==> (Exported(id) || Internal(id))
    ensures !(Exported(id) && Internal(id))
    ensures Internal(id) ==> IsLower(id[0]) || id[0] == '_'
  {
  }

  /** `ID.write`: the identifier, unchanged. */
  function IDCmds(id: string): (cmds: seq<Cmd>)
    ensures Flat(cmds) && Plain(cmds) == id
  {
    PlainSmall(id, "", ' ');
    [Str(id)]
  }

  /** The loop of `Comment.write` over the lines of the comment. */
  function CommentLines(lines: seq<string>): seq<Cmd>
  {
    if |lines| == 0 then []
    else CommentLines(lines[..|lines| - 1]) + [Str("// "), Str(lines[|lines| - 1]), Newline]
  }

  /** `Comment.write`. */
  function CommentCmds(c: string): seq<Cmd>
  {
    if c == "" then [] else CommentLines(Split(c, '\n'))
  }

  /**
    `Comment.write` writes nothing for an empty comment; otherwise every line
    of the comment, as split at '\n', becomes "// " + line + '\n'.
   */
  lemma CommentText(c: string)
    ensures c == "" ==> CommentCmds(c) == []
    ensures c != "" ==> Plain(CommentCmds(c)) == "// " + Join(Split(c, '\n'), "\n// ") + "\n"
    ensures Flat(CommentCmds(c))
  {
    CommentLinesText(Split(c, '\n'));
  }

  lemma {:induction false} CommentLinesText(lines: seq<string>)
    ensures |lines| >= 1 ==> Plain(CommentLines(lines)) == "// " + Join(lines, "\n// ") + "\n"
    ensures Flat(CommentLines(lines))
    decreases |lines|
  {
    if |lines| >= 1 {
      var init := lines[..|lines| - 1];
      var last := lines[|lines| - 1];
      var step: seq<Cmd> := [Str("// "), Str(last), Newline];
      CommentLinesText(init);
      PlainAppend(CommentLines(init), step);
      FlatAppend(CommentLines(init), step);
      CommentLineText(last);
      if |lines| == 1 {
        assert init == [];
      }
      assert "\n" + "// " == "\n// ";
      PrefixedLinesStep(lines, "// ", Plain(CommentLines(init)));
    }
  }


  lemma CommentLineText(line: string)
    ensures Plain([Str("// "), Str(line), Newline]) == "// " + line + "\n"
  {
    var step: seq<Cmd> := [Str("// "), Str(line), Newline];
    assert step[..2][..1] == [Str("// ")] && step[..2] == [Str("// "), Str(line)];
    assert [Str("// ")][..0] == [];
    assert Plain([Str("// ")]) == "// ";
  }

  /**
    `Render(item)`: the text an item writes on a fresh writer with the default
    indent string; `None` stands for the nil item.
   */
  function Render(item: Option<seq<Cmd>>): string
  {
    match item
    case None => ""
    case Some(cmds) => Exec(NewState(""), cmds).out
  }

  /**
    `Render(nil)` is ""; an item that opens no indented block renders as its
    plain text (so `Render(id)` is the identifier itself).
   */
  lemma RenderFlat(item: Option<seq<Cmd>>)
    ensures item.None? ==> Render(item) == ""
    ensures item.Some? && Flat(item.value) ==> Render(item) == Plain(item.value)
  {
    if item.Some? && Flat(item.value) {
      ExecFlat(NewState(""), item.value);
    }
  }
}
