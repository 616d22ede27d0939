/**
  The column-aligned table of table.go.

  `ColWidths` and `MaxWidth` say what `AddRow` keeps in `colw` and `maxw`;
  `TableCmds` is the list of writer calls `Write` makes.  The lemmas state the
  maxima, the padding being in range and the column alignment of the text.
 */
module Tables {
  import opened Text
  import opened CodeWriter

  datatype TableRow = TableRow(pfx: string, cols: seq<string>)

  function Max(a: int, b: int): int
  {
    if a >= b then a else b
  }

  /** Width of column `j` after one row: widened to the row's cell `j`, if it has one. */
  function WidthAt(colw: seq<nat>, cols: seq<string>, j: int): nat
    requires 0 <= j < Max(|colw|, |cols|)
  {
    if j < |colw| && j < |cols| then Max(colw[j], |cols[j]|)
    else if j < |colw| then colw[j]
    else |cols[j]|
  }

  /** The widths after `AddRow` of a row with cells `cols`. */
  function Widen(colw: seq<nat>, cols: seq<string>): (r: seq<nat>)
    ensures |r| == Max(|colw|, |cols|)
    ensures forall j :: 0 <= j < |r| ==> r[j] == WidthAt(colw, cols, j)
  {
    seq(Max(|colw|, |cols|), j requires 0 <= j < Max(|colw|, |cols|) => WidthAt(colw, cols, j))
  }

  /** The largest of `m` and the lengths of the cells. */
  function CellMax(m: int, cols: seq<string>): int
  {
    if |cols| == 0 then m else Max(CellMax(m, cols[..|cols| - 1]), |cols[|cols| - 1]|)
  }

  /** `colw` after adding `rows` to an empty table. */
  function ColWidths(rows: seq<TableRow>): seq<nat>
  {
    if |rows| == 0 then [] else Widen(ColWidths(rows[..|rows| - 1]), rows[|rows| - 1].cols)
  }

  /** `maxw` after adding `rows` to an empty table. */
  function MaxWidth(rows: seq<TableRow>): int
  {
    if |rows| == 0 then 0 else CellMax(MaxWidth(rows[..|rows| - 1]), rows[|rows| - 1].cols)
  }

  // ---------------------------------------------------------------------------
  // What the widths are.

  lemma {:induction false} CellMaxBounds(m: int, cols: seq<string>)
    ensures CellMax(m, cols) >= m
    ensures forall j :: 0 <= j < |cols| ==> |cols[j]| <= CellMax(m, cols)
    ensures CellMax(m, cols) == m || exists j :: 0 <= j < |cols| && |cols[j]| == CellMax(m, cols)
  {
    if |cols| > 0 {
      CellMaxBounds(m, cols[..|cols| - 1]);
    }
  }

  /** The row has at most `|colw|` cells and each fits its column's width. */
  predicate WithinWidths(cols: seq<string>, colw: seq<nat>)
  {
    |cols| <= |colw| && forall j :: 0 <= j < |cols| ==> |cols[j]| <= colw[j]
  }

  /** The row has a cell `j` of length `w`. */
  predicate HasCell(cols: seq<string>, j: int, w: int)
  {
    0 <= j < |cols| && |cols[j]| == w
  }

  /** No cell of the row is longer than `m`. */
  predicate CellsAtMost(cols: seq<string>, m: int)
  {
    forall j :: 0 <= j < |cols| ==> |cols[j]| <= m
  }

  /** Some row has a cell `j` of length `w`. */
  predicate Attained(rows: seq<TableRow>, j: int, w: int)
  {
    exists i :: 0 <= i < |rows| && HasCell(rows[i].cols, j, w)
  }

  /**
    `colw[j]` is at least the length of cell `j` of every row that has one,
    and every row has at most `len(colw)` cells.
   */
  lemma {:induction false} ColWidthsCover(rows: seq<TableRow>)
    ensures forall i :: 0 <= i < |rows| ==> WithinWidths(rows[i].cols, ColWidths(rows))
  {
    if |rows| > 0 {
      var init := rows[..|rows| - 1];
      ColWidthsCover(init);
      var cw := ColWidths(init);
      var last := rows[|rows| - 1].cols;
      assert ColWidths(rows) == Widen(cw, last);
      forall i | 0 <= i < |rows|
        ensures WithinWidths(rows[i].cols, ColWidths(rows))
      {
        if i < |rows| - 1 {
          assert rows[i] == init[i];
          assert WithinWidths(init[i].cols, cw);
          forall j | 0 <= j < |rows[i].cols|
            ensures |rows[i].cols[j]| <= ColWidths(rows)[j]
          {
            assert WidthAt(cw, last, j) >= cw[j];
          }
        } else {
          forall j | 0 <= j < |last|
            ensures |last[j]| <= ColWidths(rows)[j]
          {
            assert WidthAt(cw, last, j) >= |last[j]|;
          }
        }
      }
    }
  }

  /**
    Every width is attained: `colw[j]` is the length of cell `j` of some row,
    and `len(colw)` is the column count of some row.
   */
  lemma {:induction false} ColWidthsAttained(rows: seq<TableRow>)
    ensures forall j :: 0 <= j < |ColWidths(rows)| ==> Attained(rows, j, ColWidths(rows)[j])
    ensures |ColWidths(rows)| > 0 ==> exists i :: 0 <= i < |rows| && |rows[i].cols| == |ColWidths(rows)|
  {
    if |rows| > 0 {
      var init := rows[..|rows| - 1];
      var last := rows[|rows| - 1];
      ColWidthsAttained(init);
      var pw := ColWidths(init);
      var cw := ColWidths(rows);
      assert cw == Widen(pw, last.cols);
      forall j | 0 <= j < |cw|
        ensures Attained(rows, j, cw[j])
      {
        if HasCell(last.cols, j, cw[j]) {
          assert rows[|rows| - 1] == last;
        } else {
          assert j < |pw| && cw[j] == pw[j];
          assert Attained(init, j, pw[j]);
          var i :| 0 <= i < |init| && HasCell(init[i].cols, j, pw[j]);
          assert rows[i] == init[i];
        }
      }
      if |cw| > 0 {
        if |last.cols| == |cw| {
          assert rows[|rows| - 1] == last;
        } else {
          var i :| 0 <= i < |init| && |init[i].cols| == |pw|;
          assert rows[i] == init[i];
        }
      }
    }
  }

  /** `maxw` bounds every width and every cell, is never negative, and is 0 or some cell's length. */
  lemma {:induction false} MaxWidthBounds(rows: seq<TableRow>)
    ensures MaxWidth(rows) >= 0
    ensures forall j :: 0 <= j < |ColWidths(rows)| ==> ColWidths(rows)[j] <= MaxWidth(rows)
    ensures forall i :: 0 <= i < |rows| ==> CellsAtMost(rows[i].cols, MaxWidth(rows))
    ensures MaxWidth(rows) == 0 ||
      exists i, j :: 0 <= i < |rows| && HasCell(rows[i].cols, j, MaxWidth(rows))
  {
    if |rows| > 0 {
      var init := rows[..|rows| - 1];
      var last := rows[|rows| - 1];
      MaxWidthBounds(init);
      CellMaxBounds(MaxWidth(init), last.cols);
      var pw := ColWidths(init);
      assert ColWidths(rows) == Widen(pw, last.cols);
      forall j | 0 <= j < |ColWidths(rows)|
        ensures ColWidths(rows)[j] <= MaxWidth(rows)
      {
        assert WidthAt(pw, last.cols, j) <= MaxWidth(rows);
      }
      forall i | 0 <= i < |rows|
        ensures CellsAtMost(rows[i].cols, MaxWidth(rows))
      {
        if i < |rows| - 1 {
          assert rows[i] == init[i];
          assert CellsAtMost(init[i].cols, MaxWidth(init));
        }
      }
      if MaxWidth(rows) != 0 {
        if MaxWidth(rows) == MaxWidth(init) {
          var i, j :| 0 <= i < |init| && HasCell(init[i].cols, j, MaxWidth(init));
          assert rows[i] == init[i];
        } else {
          var j :| 0 <= j < |last.cols| && |last.cols[j]| == MaxWidth(rows);
          assert rows[|rows| - 1] == last;
          assert HasCell(rows[|rows| - 1].cols, j, MaxWidth(rows));
        }
      }
    }
  }

  // ---------------------------------------------------------------------------
  // What `Write` emits.

  /** Every non-last cell has a width, and fits in it. */
  predicate RowFits(cols: seq<string>, colw: seq<nat>)
  {
    |cols| <= |colw| + 1 && forall j :: 0 <= j < |cols| - 1 ==> |cols[j]| <= colw[j]
  }

  predicate Fits(rows: seq<TableRow>, colw: seq<nat>)
  {
    forall i :: 0 <= i < |rows| ==> RowFits(rows[i].cols, colw)
  }

  /** The calls for cell `j`: the cell, and after a non-last one its padding and a space. */
  function CellCmd(cols: seq<string>, colw: seq<nat>, j: nat): seq<Cmd>
    requires j < |cols| && RowFits(cols, colw)
  {
    [Str(cols[j])] + (if j < |cols| - 1 then [Str(Spaces(colw[j] - |cols[j]|)), Space] else [])
  }

  /** The calls for the first `k` cells. */
  function CellCmds(cols: seq<string>, colw: seq<nat>, k: nat): seq<Cmd>
    requires k <= |cols| && RowFits(cols, colw)
  {
    if k == 0 then [] else CellCmds(cols, colw, k - 1) + CellCmd(cols, colw, k - 1)
  }

  /** One row: its prefix when non-empty, its cells, a newline. */
  function RowCmds(row: TableRow, colw: seq<nat>): seq<Cmd>
    requires RowFits(row.cols, colw)
  {
    (if row.pfx != "" then [Str(row.pfx)] else []) + CellCmds(row.cols, colw, |row.cols|) + [Newline]
  }

  /** The calls `Write` makes: the rows in order. */
  function TableCmds(rows: seq<TableRow>, colw: seq<nat>): seq<Cmd>
    requires Fits(rows, colw)
  {
    if |rows| == 0 then [] else TableCmds(rows[..|rows| - 1], colw) + RowCmds(rows[|rows| - 1], colw)
  }

  /** Where cell `j` starts, counted from the end of the prefix: each earlier cell takes its width plus one. */
  function Offset(colw: seq<nat>, j: nat): nat
    requires j <= |colw|
  {
    if j == 0 then 0 else Offset(colw, j - 1) + colw[j - 1] + 1
  }

  /**
    The padding is always in range: the widths `AddRow` keeps fit every row,
    and each pad is at most `maxw` long.
   */
  lemma ColWidthsFit(rows: seq<TableRow>)
    ensures Fits(rows, ColWidths(rows))
    ensures forall j :: 0 <= j < |ColWidths(rows)| ==> ColWidths(rows)[j] <= MaxWidth(rows)
  {
    ColWidthsCover(rows);
    MaxWidthBounds(rows);
    forall i | 0 <= i < |rows|
      ensures RowFits(rows[i].cols, ColWidths(rows))
    {
      assert WithinWidths(rows[i].cols, ColWidths(rows));
    }
  }

  /** The text of the first `k` cells: each cell, padded and followed by a space unless it is the last. */
  function CellsText(cols: seq<string>, colw: seq<nat>, k: nat): string
    requires k <= |cols| && RowFits(cols, colw)
  {
    if k == 0 then "" else CellsText(cols, colw, k - 1) + CellText(cols, colw, k - 1)
  }

  /** The text of cell `j`: the cell, then, unless it is the last, its padding and a space. */
  function CellText(cols: seq<string>, colw: seq<nat>, j: nat): string
    requires j < |cols| && RowFits(cols, colw)
  {
    cols[j] + (if j < |cols| - 1 then Spaces(colw[j] - |cols[j]|) + " " else "")
  }

  /** The text of one row: its prefix, its cells, a newline. */
  function RowText(row: TableRow, colw: seq<nat>): string
    requires RowFits(row.cols, colw)
  {
    row.pfx + CellsText(row.cols, colw, |row.cols|) + "\n"
  }

  lemma {:induction false} CellsPlain(cols: seq<string>, colw: seq<nat>, k: nat)
    requires k <= |cols| && RowFits(cols, colw)
    ensures Plain(CellCmds(cols, colw, k)) == CellsText(cols, colw, k)
  {
    if k > 0 {
      var j := k - 1;
      var t := CellText(cols, colw, j);
      CellsPlain(cols, colw, j);
      CellsPlainStep(cols, colw, j);
      assert CellsText(cols, colw, j + 1) == CellsText(cols, colw, j) + t;
    }
  }

  lemma CellsPlainStep(cols: seq<string>, colw: seq<nat>, k: nat)
    requires k < |cols| && RowFits(cols, colw)
    ensures Plain(CellCmds(cols, colw, k + 1)) == Plain(CellCmds(cols, colw, k)) + CellText(cols, colw, k)
  {
    assert CellCmds(cols, colw, k + 1) == CellCmds(cols, colw, k) + CellCmd(cols, colw, k);
    PlainAppend(CellCmds(cols, colw, k), CellCmd(cols, colw, k));
    CellPlain(cols, colw, k);
  }

  lemma CellPlain(cols: seq<string>, colw: seq<nat>, j: nat)
    requires j < |cols| && RowFits(cols, colw)
    ensures Plain(CellCmd(cols, colw, j)) == CellText(cols, colw, j)
  {
    if j < |cols| - 1 {
      var pad := Spaces(colw[j] - |cols[j]|);
      PlainSmall(cols[j], pad, ' ');
      Assoc(cols[j], pad, " ");
    } else {
      PlainSmall(cols[j], "", ' ');
    }
  }

  /** Without indentation, a row's calls write exactly `RowText`. */
  lemma RowPlain(row: TableRow, colw: seq<nat>)
    requires RowFits(row.cols, colw)
    ensures Plain(RowCmds(row, colw)) == RowText(row, colw)
  {
    var pre: seq<Cmd> := if row.pfx != "" then [Str(row.pfx)] else [];
    var cells := CellCmds(row.cols, colw, |row.cols|);
    CellsPlain(row.cols, colw, |row.cols|);
    PlainAppend(pre + cells, [Newline]);
    PlainAppend(pre, cells);
    assert [Newline][..0] == [];
    if row.pfx != "" {
      assert [Str(row.pfx)][..0] == [];
    }
  }

  /** The cells before the last take their column width plus one each; the last one is not padded. */
  lemma {:induction false} CellsLength(cols: seq<string>, colw: seq<nat>, k: nat)
    requires k <= |cols| && RowFits(cols, colw)
    ensures k < |cols| ==> k <= |colw| && |CellsText(cols, colw, k)| == Offset(colw, k)
    ensures k == |cols| > 0 ==>
      (k - 1 <= |colw| && |CellsText(cols, colw, k)| == Offset(colw, k - 1) + |cols[k - 1]|)
  {
    if k > 0 {
      CellsLength(cols, colw, k - 1);
    }
  }

  /** `text` holds `cell` starting at index `start`. */
  predicate CellAt(text: string, start: int, cell: string)
  {
    0 <= start && start + |cell| <= |text| && text[start..start + |cell|] == cell
  }

  /** Cell `j` sits at `Offset(colw, j)` in the cells' text. */
  lemma {:induction false} CellsContain(cols: seq<string>, colw: seq<nat>, k: nat, j: nat)
    requires k <= |cols| && RowFits(cols, colw) && j < k
    ensures j <= |colw| && Offset(colw, j) + |cols[j]| <= |CellsText(cols, colw, k)|
    ensures CellsText(cols, colw, k)[Offset(colw, j)..Offset(colw, j) + |cols[j]|] == cols[j]
  {
    var prev := CellsText(cols, colw, k - 1);
    var text := CellsText(cols, colw, k);
    assert text[..|prev|] == prev;
    if j == k - 1 {
      CellsLength(cols, colw, k - 1);
      assert text[|prev|..|prev| + |cols[j]|] == cols[j];
    } else {
      CellsContain(cols, colw, k - 1, j);
      assert text[Offset(colw, j)..Offset(colw, j) + |cols[j]|] == prev[Offset(colw, j)..Offset(colw, j) + |cols[j]|];
    }
  }

  /**
    The shape of one row's text (indentation aside): the prefix verbatim and
    unpadded, a final newline, nothing but the prefix for a row without cells,
    and no padding after the last cell.
   */
  lemma RowShape(row: TableRow, colw: seq<nat>)
    requires RowFits(row.cols, colw)
    ensures Plain(RowCmds(row, colw)) == RowText(row, colw)
    ensures |RowText(row, colw)| > |row.pfx|
    ensures RowText(row, colw)[..|row.pfx|] == row.pfx
    ensures RowText(row, colw)[|RowText(row, colw)| - 1] == '\n'
    ensures |row.cols| == 0 ==> RowText(row, colw) == row.pfx + "\n"
    ensures |row.cols| > 0 ==>
      (|row.cols| - 1 <= |colw| &&
       |RowText(row, colw)| == |row.pfx| + Offset(colw, |row.cols| - 1) + |row.cols[|row.cols| - 1]| + 1)
  {
    RowPlain(row, colw);
    CellsLength(row.cols, colw, |row.cols|);
  }

  /**
    Column alignment: in the text of a row's cells, which follows the prefix,
    cell `j` starts at `Offset(colw, j)` whatever the cells' contents, so
    cells line up across rows whose prefixes have equal length.
   */
  lemma CellsAligned(cols: seq<string>, colw: seq<nat>)
    requires RowFits(cols, colw)
    ensures forall j :: 0 <= j < |cols| ==>
      j <= |colw| && CellAt(CellsText(cols, colw, |cols|), Offset(colw, j), cols[j])
  {
    forall j | 0 <= j < |cols|
      ensures j <= |colw| && CellAt(CellsText(cols, colw, |cols|), Offset(colw, j), cols[j])
    {
      CellsContain(cols, colw, |cols|, j);
    }
  }

  /** The table's text is the rows' texts in row order; an empty table emits nothing. */
  lemma TableText(rows: seq<TableRow>, colw: seq<nat>)
    requires Fits(rows, colw)
    ensures |rows| == 0 ==> Plain(TableCmds(rows, colw)) == ""
    ensures |rows| > 0 ==>
      Plain(TableCmds(rows, colw)) ==
        Plain(TableCmds(rows[..|rows| - 1], colw)) + RowText(rows[|rows| - 1], colw)
  {
    if |rows| > 0 {
      PlainAppend(TableCmds(rows[..|rows| - 1], colw), RowCmds(rows[|rows| - 1], colw));
      RowPlain(rows[|rows| - 1], colw);
    }
  }

  // Single steps of `Write`, for the loops' invariants.

  /** A prefix of the padding string is a shorter run of spaces. */
  lemma PadPrefix(m: nat, n: nat)
    requires n <= m
    ensures Spaces(m)[..n] == Spaces(n)
    decreases m
  {
    if n < m {
      PadPrefix(m - 1, n);
      assert Spaces(m)[..n] == Spaces(m - 1)[..n];
    }
  }

  lemma TableStep(st: State, rows: seq<TableRow>, colw: seq<nat>, r: nat)
    requires r < |rows| && Fits(rows, colw)
    ensures Fits(rows[..r], colw) && RowFits(rows[r].cols, colw)
    ensures Exec(st, TableCmds(rows[..r + 1], colw)) ==
      Exec(Exec(st, TableCmds(rows[..r], colw)), RowCmds(rows[r], colw))
  {
    assert rows[..r + 1][..r] == rows[..r];
    ExecAppend(st, TableCmds(rows[..r], colw), RowCmds(rows[r], colw));
  }

  lemma PrefixStep(st: State, pfx: string)
    ensures Exec(st, if pfx != "" then [Str(pfx)] else []) ==
      if pfx != "" then AfterWriteString(st, pfx) else st
  {
    ExecStep(st, [], Str(pfx));
  }

  /** The writer's state after cell `k`: the cell, then, unless it is the last, its padding and a space. */
  function CellState(st: State, cols: seq<string>, colw: seq<nat>, k: nat): State
    requires k < |cols| && RowFits(cols, colw)
  {
    var s1 := AfterWriteString(st, cols[k]);
    if k < |cols| - 1 then AfterWriteByte(AfterWriteString(s1, Spaces(colw[k] - |cols[k]|)), ' ') else s1
  }

  lemma CellExec(st: State, cols: seq<string>, colw: seq<nat>, k: nat)
    requires k < |cols| && RowFits(cols, colw)
    ensures Exec(st, CellCmd(cols, colw, k)) == CellState(st, cols, colw, k)
  {
    var c := Str(cols[k]);
    ExecStep(st, [], c);
    assert [] + [c] == [c];
    if k < |cols| - 1 {
      var p := Str(Spaces(colw[k] - |cols[k]|));
      assert CellCmd(cols, colw, k) == [c] + [p] + [Space];
      ExecStep(st, [c], p);
      ExecStep(st, [c] + [p], Space);
    } else {
      assert CellCmd(cols, colw, k) == [c];
    }
  }

  /** One more cell: its calls take the writer from the state after the others to `CellState`. */
  lemma CellsStep(st: State, cols: seq<string>, colw: seq<nat>, k: nat)
    requires k < |cols| && RowFits(cols, colw)
    ensures Exec(st, CellCmds(cols, colw, k + 1)) == CellState(Exec(st, CellCmds(cols, colw, k)), cols, colw, k)
  {
    assert CellCmds(cols, colw, k + 1) == CellCmds(cols, colw, k) + CellCmd(cols, colw, k);
    ExecAppend(st, CellCmds(cols, colw, k), CellCmd(cols, colw, k));
    CellExec(Exec(st, CellCmds(cols, colw, k)), cols, colw, k);
  }

  /** A row's calls: the prefix, then the cells from there, then a newline. */
  lemma RowExec(st: State, row: TableRow, colw: seq<nat>)
    requires RowFits(row.cols, colw)
    ensures var s1 := if row.pfx != "" then AfterWriteString(st, row.pfx) else st;
      Exec(st, RowCmds(row, colw)) == AfterWriteByte(Exec(s1, CellCmds(row.cols, colw, |row.cols|)), '\n')
  {
    var pre: seq<Cmd> := if row.pfx != "" then [Str(row.pfx)] else [];
    var cells := CellCmds(row.cols, colw, |row.cols|);
    PrefixStep(st, row.pfx);
    ExecAppend(st, pre, cells);
    ExecStep(st, pre + cells, Newline);
  }

  /**
    What a fresh table writes once `rows` have been added to it in order:
    `tbl := Table{}`, `tbl.AddRow` of each row, `tbl.Write(w)`.
   */
  function Tabulate(rows: seq<TableRow>): seq<Cmd>
  {
    ColWidthsFit(rows);
    TableCmds(rows, ColWidths(rows))
  }

  // ---------------------------------------------------------------------------

  class Table {
    var rows: seq<TableRow>
    var colw: seq<nat>
    var maxw: int

    predicate Valid()
      reads this
    {
      colw == ColWidths(rows) && maxw == MaxWidth(rows)
    }

    /** The zero `Table`. */
    constructor ()
      ensures Valid() && rows == []
    {
      rows := [];
      colw := [];
      maxw := 0;
    }

    method AddRow(prefix: string, columns: seq<string>)
      requires Valid()
      modifies this
      ensures Valid()
      ensures rows == old(rows) + [TableRow(prefix, columns)]
      ensures colw == Widen(old(colw), columns) && maxw == CellMax(old(maxw), columns)
    {
      var idx := 0;
      while idx < |columns|
        invariant 0 <= idx <= |columns|
        invariant colw == Widen(old(colw), columns[..idx])
        invariant maxw == CellMax(old(maxw), columns[..idx])
        invariant rows == old(rows)
      {
        assert columns[..idx + 1][..idx] == columns[..idx];
        var l := |columns[idx]|;
        if idx < |colw| {
          if l > colw[idx] {
            colw := colw[idx := l];
          }
        } else {
          colw := colw + [l];
        }
        if l > maxw {
          maxw := l;
        }
        idx := idx + 1;
        assert colw == Widen(old(colw), columns[..idx]);
      }
      assert columns[..idx] == columns;
      rows := rows + [TableRow(prefix, columns)];
      assert rows[..|rows| - 1] == old(rows);
    }

    method Write(w: Writer)
      requires Valid()
      modifies w
      ensures Fits(rows, colw)
      ensures w.Snapshot() == Exec(old(w.Snapshot()), TableCmds(rows, colw))
    {
      ColWidthsFit(rows);
      MaxWidthBounds(rows);
      var pad := Spaces(maxw);
      ghost var s0 := w.Snapshot();
      var r := 0;
      while r < |rows|
        invariant 0 <= r <= |rows|
        invariant w.Snapshot() == Exec(s0, TableCmds(rows[..r], colw))
      {
        TableStep(s0, rows, colw, r);
        WriteRow(w, rows[r], pad);
        r := r + 1;
      }
      assert rows[..r] == rows;
    }

    /** One iteration of `Write`'s loop: the prefix if non-empty, the cells with padding, a newline. */
    method WriteRow(w: Writer, row: TableRow, pad: string)
      requires RowFits(row.cols, colw) && 0 <= maxw && pad == Spaces(maxw)
      requires forall j :: 0 <= j < |colw| ==> colw[j] <= maxw
      modifies w
      ensures w.Snapshot() == Exec(old(w.Snapshot()), RowCmds(row, colw))
    {
      var widths := colw;
      if row.pfx != "" {
        var _ := w.WriteString(row.pfx);
      }
      ghost var s1 := w.Snapshot();
      var idx := 0;
      while idx < |row.cols|
        invariant 0 <= idx <= |row.cols|
        invariant w.Snapshot() == Exec(s1, CellCmds(row.cols, widths, idx))
      {
        CellsStep(s1, row.cols, widths, idx);
        var col := row.cols[idx];
        var _ := w.WriteString(col);
        if idx < |row.cols| - 1 {
          PadPrefix(|pad|, widths[idx] - |col|);
          var _ := w.WriteString(pad[..widths[idx] - |col|]);
          w.WriteByte(' ');
        }
        idx := idx + 1;
      }
      w.Newline();
      RowExec(old(w.Snapshot()), row, colw);
    }
  }
}
