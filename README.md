# gocode code generators, modelled in Dafny

gocode is a small Go library for generating source text: an indent-tracking
`Writer`, a column-aligned `Table`, a catalogue of Go syntax nodes whose
`write` methods lay out generated Go code (`golang/`), an unfinished rewrite
of that catalogue (`go/`), and an SQL layer that writes conditions, names and
queries in a PostgreSQL or SQL Server dialect (`sql/`).

This project models that core and proves what its text looks like.

- **Writer** (`writer.dfy`, module `CodeWriter`). `Writer` is a class with
  the indent string, the depth, the line-start flag and the text written so
  far (standing in for the buffered sink). Its methods are proved against
  state functions (`AfterWriteByte`, `AfterWriteString`, `AfterWrite`, `Exec`).
  A Go closure handed to `Indent`, and every node's `write` method, is
  represented by the list of writer calls it makes (`seq<Cmd>`). `Exec`
  performs such a list on a state, `Writer.Do` performs it on a writer, and
  `Plain` is its text with the inserted indentation left out. `ExecStrip`
  proves that reading at every depth: when the indent string is a run of one
  character (the default "\t") that the text does not contain, removing that
  character from the output leaves exactly `Plain`. `WriteStringIndented`
  gives `WriteString`'s output in closed form.
- **Table** (`table.dfy`, module `Tables`). `Table` is a class whose `AddRow`
  keeps the column widths and the overall maximum. `Write` is proved to make
  the calls `TableCmds` describes, and the lemmas state the maxima, the
  padding range and the column alignment.
- **golang/** (`golang*.dfy`). Each node family (expressions, types,
  statements, declarations) is a datatype with its `simple` predicate and its
  `write` call list. `GolangLayout` proves that a node that is not simple is
  always written with an indented block. `GolangText` and `GolangStmtText`
  give the text of each writer. `GolangFile` models the `File` class:
  `pkgAlias`, `Add`, `Render` and `parseTags`, with the tag round trip.
- **go/** (`go_*.dfy`). This is the rewrite's own datatypes, builders and
  writers: comments in single and multi-line form, `writeList`, expressions,
  types, statements with `newLineAfter` spacing, the declaration groups as
  classes, `Imports.Ensure` and both import writers. Sorting is specified by
  its result (`Sorting.SortByKey`).
- **sql/** (`sql_cond.dfy`, `sql_writer.dfy`). This covers the `Or` builder
  with its flattening, precedence-driven parentheses, dialect name quoting,
  separated name and expression lists, query sets with their panic on an
  unknown operator, and the SELECT rows `WriteSelect` builds.

Where the code departs from its evident intent, the model follows the code:

- `BlockStmt.simpleStmt` examines only the first statement
  (golang/stmt.go:65-67). A block of two simple statements is therefore
  "simple" and is still written as an indented block
  (`GolangLayout.SimpleBlockOfTwo`).
- `writeList` in single mode writes its items twice
  (go/base.go:40-58): once inline, then again as an indented block.
- go/import.go never sets `prvSys`, so it writes no separator row. go/file.go
  starts `prvSys` at true, so it writes an empty row before the first
  import without a '.'.
- `isSysImport` in go/file.go is true for a path that contains a '.', which
  is the opposite of `isSysPkg` in go/import.go. Each writer is modelled with
  its own test.
- `Ensure` does not deduplicate: registering the same path twice fails on
  the alias.
- `If` of go/stmt.go drops its init argument.
- sql/dialect.go calls `condPred`, which is not declared anywhere; the
  model uses `condPrec`, the only precedence function there is.
- `WriteSelect` builds its table and never writes it, so a `Select` writes
  nothing, and a query set of two selects writes only its keyword line.
- `WriteQuerySet` writes no newline between the left query and the keyword.

## Model

| member | source | states |
|---|---|---|
| CodeWriter.NewState | writer.go:54-63 | the start state: an empty indent string becomes "\t" (any other is kept), depth 0, at line start, nothing written |
| CodeWriter.Writer.constructor | writer.go:48-64 | a new writer is in the state `NewState(tabString)` |
| CodeWriter.Writer.ensureIndented | writer.go:122-132 | the writer moves to `AfterEnsureIndented`: depth copies of the indent string when at line start, and the flag cleared; nothing otherwise |
| CodeWriter.Writer.WriteByte | writer.go:66-74 | the writer moves to `AfterWriteByte(old, b)` |
| CodeWriter.WriteByteRule | writer.go:66-74 | '\n' sets the line-start flag and is written bare; any other byte at line start is preceded by exactly depth copies of the indent string and clears the flag; otherwise only the byte is added |
| CodeWriter.Writer.WriteString | writer.go:76-87 | the writer moves to `AfterWriteString(old, str)` and the result is `len(str)` |
| CodeWriter.WriteStringLeavesLineStart | writer.go:76-87 | `WriteString` always clears the line-start flag, even for "" or a string ending in '\n', in which case the next line's indentation is already written |
| CodeWriter.WriteStringUnindented | writer.go:76-87 | with no indentation to insert, `WriteString` writes `str` exactly |
| CodeWriter.LinesIndented | writer.go:77-86 | the line loop of `WriteString` at any depth: the pieces joined by '\n' plus the indentation, with the indentation first as well when the writer was at line start; the flag ends cleared |
| CodeWriter.WriteStringIndented | writer.go:76-87 | `WriteString(str)` in closed form: each '\n' of `str` is followed by depth copies of the indent string, which also lead when the writer was at line start |
| CodeWriter.EnsureIndentedStrip | writer.go:122-132 | `ensureIndented` adds only copies of the indent string: nothing remains once its character is removed |
| CodeWriter.WriteByteStrip | writer.go:66-74 | a byte other than the indent character leaves only itself once that character is removed |
| CodeWriter.LinesStrip | writer.go:77-86 | the line loop, once the indent character is removed, adds the pieces joined by '\n' |
| CodeWriter.WriteStringStrip | writer.go:76-87 | at any depth, `WriteString(str)` writes `str` once the indent character (absent from `str`) is removed |
| CodeWriter.WriteStrip | writer.go:89-102 | the same for `Write(data)` |
| CodeWriter.LinesKeepDepth | writer.go:77-84 | the line loop of `WriteString` keeps the indent string and the depth |
| CodeWriter.Writer.Write | writer.go:89-102 | the writer moves to `AfterWrite(old, data)`, `WriteByte` of each byte in order, and the result is `len(data)` |
| CodeWriter.WriteKeepsDepth | writer.go:89-102 | `Write` keeps the indent string and the depth |
| CodeWriter.WriteUnindented | writer.go:89-102 | with no indentation to insert, `Write` writes `data` exactly |
| CodeWriter.Writer.Space | writer.go:104-106 | `WriteByte(' ')` |
| CodeWriter.Writer.Newline | writer.go:108-110 | `WriteByte('\n')` |
| CodeWriter.Writer.Indent | writer.go:112-116 | the writer moves to `Exec(old, [Indented(action)])`: the action runs one level deeper |
| CodeWriter.IndentRestoresDepth | writer.go:112-116 | `Indent(action)` runs the action at depth + 1, and afterwards the depth is the depth before |
| CodeWriter.ExecKeepsDepth | writer.go:112-116 | depth balance: any call list, nested `Indent`s included, leaves the depth and the indent string as they were |
| CodeWriter.ExecUnindented | writer.go:66-116 | with an empty indent string, every call list adds exactly its plain text to the output |
| CodeWriter.ExecStrip | writer.go:66-116 | at any depth and with nested `Indent`s, a call list adds exactly its plain text once the indent character (a run of which is the indent string, absent from the text) is removed |
| CodeWriter.CallStrip | writer.go:112-116 | the same for one call, an `Indent` block included |
| CodeWriter.NewWriterStrip | writer.go:48-116 | a fresh writer with the default "\t" indent (or any run of one character) emits a call list's plain text plus indent characters only |
| CodeWriter.ExecFlat | writer.go:122-132 | at depth 0, a call list that opens no indented block adds exactly its plain text, whatever the indent string |
| CodeWriter.ExecOneLine | writer.go:122-125 | once a line has started, calls that write no newline add their plain text and insert no indentation |
| Tables.Table.constructor | table.go:5-10 | the zero table: no rows, and the widths and maximum are those of no rows |
| Tables.Table.AddRow | table.go:18-39 | exactly one row (prefix and cells as given) is appended; the widths become `Widen(old colw, columns)`, the maximum `CellMax(old maxw, columns)`; the invariant is kept |
| Tables.Widen | table.go:19-29 | after `AddRow`, there are max(len(colw), len(columns)) widths; width j is the larger of the old width and cell j's length, and widths beyond the row are unchanged |
| Tables.CellMaxBounds | table.go:30-32 | the new maximum is at least the old one and every cell's length, and it is the old maximum or some cell's length |
| Tables.ColWidthsCover | table.go:19-29 | after any sequence of `AddRow`s, width j is at least the length of cell j of every row, and no row has more cells than there are widths |
| Tables.ColWidthsAttained | table.go:22-28 | every width is the length of cell j of some row, and the number of widths is the column count of some row |
| Tables.MaxWidthBounds | table.go:30-32 | `maxw` is never negative, bounds every width and every cell, and is 0 or some cell's length |
| Tables.ColWidthsFit | table.go:53 | the padding slice `pad[:colw[idx]-len(col)]` is always in range |
| Tables.Table.Write | table.go:41-60 | the writer performs `TableCmds(rows, colw)` |
| Tables.TableText | table.go:44-59 | the table's text is the rows' texts in row order; an empty table writes nothing |
| Tables.RowShape | table.go:44-59 | a row is its prefix verbatim, then its cells, then a newline; a row without cells is its prefix and a newline; the last cell is not padded |
| Tables.CellsLength | table.go:49-56 | every cell before the last takes its column width plus one character; the last cell takes only its length |
| Tables.CellsContain | table.go:49-56 | cell j of a row sits at offset `Offset(colw, j)` of the row's cell text |
| Tables.CellsAligned | table.go:49-56 | cell j starts at the same offset whatever the contents of the cells, so cells line up across rows with prefixes of equal length |
| Text.Split | writer.go:77 | `strings.Split` with a one-byte separator gives at least one piece |
| Text.JoinSplit | writer.go:77-84 | joining the pieces of a split with the separator gives the string back |
| Text.SplitJoin | golang/file.go:179 | splitting a join of separator-free pieces gives the pieces back |
| Strconv.Decimal | golang/expr.go:166-168 | the decimal form of an unsigned number is a non-empty string of digits |
| Strconv.DecimalRoundTrip | golang/expr.go:166-168 | reading the decimal form back gives the number |
| Strconv.DecimalInjective | golang/expr.go:162-168 | different numbers have different decimal forms |
| Strconv.Quote | golang/expr.go:174-176 | a quoted string starts and ends with '"' |
| Strconv.QuoteRune | golang/expr.go:158-160 | a quoted rune starts and ends with '\'' |
| Strconv.UnquoteQuote | golang/file.go:186 | `Unquote(Quote(s)) == s` |
| Strconv.QuoteNoSpace | golang/type.go:290-294 | quoting adds no space |
| Sorting.KeyLessOrder | go/import.go:76-85 | the import order (group first, then byte-wise path) is a strict total order |
| Sorting.LexLessTotal | go/import.go:84 | two different paths are ordered one way or the other |
| Sorting.Insert | go/import.go:76-85 | inserting gives a permutation of the list plus the element, sorted when the list was |
| Sorting.SortByKey | go/import.go:76-85 | the result of `sort.Slice`: a sorted permutation of the input |
| GolangBase.Valid | golang/base.go:47-63 | the scan accepts exactly the identifiers: non-empty, a letter or '_' first, letters, digits and '_' after |
| GolangBase.ExportedOrInternal | golang/base.go:39-45 | a valid identifier is exactly one of exported and internal; an invalid one is neither |
| GolangBase.IDCmds | golang/base.go:65-67 | `ID.write` writes the identifier unchanged, on one line |
| GolangBase.CommentText | golang/base.go:27-37 | an empty comment writes nothing; otherwise every '\n'-separated line becomes "// " + line + "\n" |
| GolangBase.RenderFlat | golang/base.go:19-25 | `Render(nil)` is ""; an item that opens no indented block renders as its plain text |
| GolangLayout.ExprIndents | golang/expr.go:301-315 | an expression that is not simple is written with an indented block |
| GolangLayout.ArgsIndent | golang/expr.go:276-299 | arguments that are not all simple are written with an indented block |
| GolangLayout.ExprsIndent | golang/expr.go:126-144 | a list holding an expression that is not simple is written with an indented block |
| GolangLayout.TypeIndents | golang/type.go:102-224 | a type that is not simple is written with an indented block |
| GolangLayout.TypesIndent | golang/type.go:226-252 | generic arguments that are not all simple are written with an indented block |
| GolangLayout.ParamIndents | golang/decl.go:395-404 | a parameter whose type is not simple is written with an indented block |
| GolangLayout.ParamListIndents | golang/decl.go:336-344 | parameters whose types are not all simple are written with an indented block |
| GolangLayout.ParamsIndent | golang/decl.go:346-358 | the same for `Params.write` |
| GolangLayout.ReturnIndents | golang/decl.go:360-393 | results that are not simple are written with an indented block |
| GolangLayout.StmtIndents | golang/stmt.go:53-164 | a statement that is not simple is written with an indented block |
| GolangLayout.AssignIndents | golang/stmt.go:53-63 | an assignment that is not simple is written with an indented block |
| GolangLayout.BlockIndents | golang/stmt.go:65-93 | a block whose first statement is not simple is written as an indented block |
| GolangLayout.IfIndents | golang/stmt.go:119-151 | an `if` that is not simple is written with an indented block |
| GolangLayout.ElseIndents | golang/stmt.go:119-151 | the same for the else part |
| GolangLayout.LocalDeclIndents | golang/decl.go:130-302 | a declaration group used as a statement that is not simple is written with an indented block |
| GolangLayout.TypeDeclIndents | golang/decl.go:130-174 | a type group that is not simple is written with an indented block |
| GolangLayout.FuncIndents | golang/decl.go:176-200 | a function that is not simple is written with an indented block |
| GolangLayout.VarsIndent | golang/decl.go:202-251 | a var or const group that is not simple is written with an indented block |
| GolangLayout.DeclIndents | golang/decl.go:73-302 | every declaration but a comment: not simple means written with an indented block |
| GolangLayout.SimpleBlockOfTwo | golang/stmt.go:65-67 | a block of two simple statements counts as simple but is written as an indented block |
| GolangLayout.SimpleSymbolWithStructArg | golang/expr.go:308 | a symbol is simple whatever its generic arguments, even one written with an indented block |
| GolangText.ExprsText | golang/expr.go:136-144 | `Exprs.write` writes the expressions joined by ", " |
| GolangText.ArgsText | golang/expr.go:276-299 | simple arguments give "(" + arguments joined by ", " + ")"; otherwise "(", a newline, each argument followed by ",\n", then ")" |
| GolangText.KeywordLiteralText | golang/expr.go:146-156 | nil renders as "nil", a bool as "true" or "false" |
| GolangText.RuneLiteralText | golang/expr.go:158-160 | a rune renders as its quoted form |
| GolangText.IntLiteralText | golang/expr.go:162-164 | an int renders as its decimal form, with '-' when negative |
| GolangText.UintLiteralText | golang/expr.go:166-168 | a uint renders as its decimal form |
| GolangText.StringLiteralText | golang/expr.go:174-176 | a string renders quoted, and unquoting the text gives the string back |
| GolangText.OperatorText | golang/expr.go:253-264 | a unary expression is the operator then the operand; a binary one is lhs, " ", op, " ", rhs |
| GolangText.StructLiteralText | golang/expr.go:178-199 | a struct literal without fields is its type and "{}"; otherwise its type, "{", a newline, one "id: value,\n" per field, then "}" |
| GolangText.MapLiteralText | golang/expr.go:201-222 | the same for a map literal, one "key: value,\n" per entry |
| GolangText.GenArgsText | golang/type.go:236-252 | nothing when empty, else "[" + types joined by ", " + "]" |
| GolangText.NamedTypeText | golang/type.go:106-114 | "pkg." only when the package is not empty, then the id and the generic arguments |
| GolangText.PtrTypeText | golang/type.go:120-123 | "*" and the target |
| GolangText.SliceTypeText | golang/type.go:129-138 | "[", the length when present, "]", the item type |
| GolangText.MapTypeText | golang/type.go:144-149 | "map[", the key, "]", the value |
| GolangText.EmptyTypeText | golang/type.go:155-214 | an empty struct is "struct {}" and an empty interface "interface {}" |
| GolangText.TypeConstsText | golang/type.go:254-262 | the constraints joined by " \| " |
| GolangText.TypeConstText | golang/type.go:264-270 | "~" before a derived constraint, then its type |
| GolangText.InterfaceFuncsText | golang/type.go:296-301 | every method line ends in a newline |
| GolangText.InterfaceText | golang/type.go:197-214 | "interface {", a newline, the constraints, a newline only when there are both constraints and methods, the method lines, "}" |
| GolangText.TagText | golang/type.go:290-294 | a tag is name + ":" + quoted value, on one line |
| GolangText.TagsText | golang/type.go:272-288 | no tags write nothing; otherwise the tags between backquotes, separated by single spaces |
| GolangText.TagsRender | golang/type.go:272-288 | the rendered tags are empty exactly when there are no tags |
| GolangText.FieldRowColumns | golang/type.go:163-183 | a named field's row is [id, type], an embedded field's [type]; tags are added as the third column (with an empty second column for an embedded field); the doc comment is the prefix |
| GolangText.FieldRowTagColumns | golang/type.go:163-183 | a field with tags has them in its third column |
| GolangStmtText.BlockText | golang/stmt.go:69-93 | "{}" with no statement; "{ stmt }" for one simple statement; otherwise "{", a newline, the statements each ending in a newline with a blank line between consecutive ones, "}" |
| GolangStmtText.AssignText | golang/stmt.go:57-63 | destinations joined by ", ", " op ", sources joined by ", " |
| GolangStmtText.KeywordStmtText | golang/stmt.go:157-164 | "return", and " value" only with a value; `break` and `continue` write their keyword |
| GolangStmtText.IfText | golang/stmt.go:135-151 | "if ", "init; " only with an init, the condition, " ", the then-block, " else " and the else part only when present |
| GolangStmtText.ParamText | golang/decl.go:395-404 | the name, "..." when variadic, a space, the type |
| GolangStmtText.ParamsText | golang/decl.go:346-358 | the parameters joined by ", ", always in parentheses |
| GolangStmtText.ReturnText | golang/decl.go:370-393 | nothing without results; " T" for one unnamed result; otherwise " (" + results joined by ", " + ")" |
| GolangStmtText.GenParamText | golang/decl.go:330-334 | a generic parameter is its name, a space, "~" for a derived constraint, and the constraint's type |
| GolangStmtText.GenParamsText | golang/decl.go:312-328 | nothing when empty, else "[" + parameters joined by ", " + "]" |
| GolangStmtText.ReceiverText | golang/decl.go:184-200 | a method's receiver is "(" + parameter + ") "; a plain function has none |
| GolangStmtText.PackageText | golang/decl.go:81-84 | "package " and the name |
| GolangStmtText.SingleImportText | golang/decl.go:93-101 | "import ", "alias " only for a non-empty alias, the quoted path, on one line |
| GolangStmtText.ImportGroupText | golang/decl.go:90-128 | no import writes nothing; several give "import (", a newline, the table, ")" |
| GolangStmtText.ImportRowsColumns | golang/decl.go:103-122 | one row per import, in order, ending in the quoted path; with any alias, every row has an alias column in front |
| GolangStmtText.AliasColumn | golang/decl.go:103-109 | the alias column is there exactly when some import has an alias |
| GolangStmtText.VarRowColumns | golang/decl.go:232-250 | a group row has the rendered doc as prefix and the columns id, type, and "= value" only with a value |
| GolangStmtText.SingleVarText | golang/decl.go:220-230 | one declaration: the doc, the keyword and a space, the id, a space, the type, " = value" only with a value |
| GolangStmtText.VarGroupText | golang/decl.go:231-250 | several declarations: the keyword, " (", a newline, the table, ")" |
| GolangStmtText.TypeGroupText | golang/decl.go:145-174 | "type (", a newline, the entries each ending in a newline with a blank line between them, ")" |
| GolangFile.File.constructor | golang/file.go:21-26 | `NewFile`: the doc and package as given, no imports, no declarations |
| GolangFile.File.Add | golang/file.go:28-34 | a nil declaration is ignored; any other is appended at the end; nothing else changes |
| GolangFile.AliasOf | golang/file.go:158-162 | the search finds nothing exactly when no import has the path, and otherwise an import's alias for that path |
| GolangFile.Register | golang/file.go:153-172 | "" gives "" and no change; a known path gives its alias; a new path appends exactly one import; earlier imports are kept |
| GolangFile.File.PkgAlias | golang/file.go:153-172 | the imports and the result are those `Register` gives; nothing else changes |
| GolangFile.RegisterIdempotent | golang/file.go:158-162 | asking again for a path gives the same alias and changes nothing |
| GolangFile.RegisterKeepsRegistered | golang/file.go:164-171 | if import k has alias "pkg{k+1}" for all k, `pkgAlias` keeps it so |
| GolangFile.RegisteredAliasesDistinct | golang/file.go:164-171 | in such an import list no two imports share an alias |
| GolangFile.RegisteredAliasUnique | golang/file.go:153-172 | an alias `pkgAlias` hands out names exactly one import |
| GolangFile.AliasOfFirst | golang/file.go:158-162 | the first import with the path decides the alias |
| GolangFile.File.NamedType | golang/file.go:36-42 | a named type whose package is the alias `pkgAlias` gives for the path |
| GolangFile.File.Symbol | golang/file.go:121-126 | a symbol whose package is the alias `pkgAlias` gives for the path |
| GolangFile.FileItems | golang/file.go:128-151 | the items: the generated-file marker, the doc only if not empty, the package clause, the imports only if any, the declarations in order |
| GolangFile.File.Render | golang/file.go:128-151 | the writer performs the items, each followed by a newline, with a blank line between items |
| GolangFile.ItemsText | golang/file.go:138-150 | every item ends with a newline and consecutive items are separated by a blank line |
| GolangFile.TagOfParts | golang/file.go:182-193 | an item reads as a tag exactly when its first ':' is past index 0 and the rest unquotes; the tag is the part before and the unquoted rest |
| GolangFile.ParseTags | golang/file.go:174-197 | "" gives no tag; otherwise the tags of the space-separated items that read as tags, in order |
| GolangFile.ParsedNames | golang/file.go:174-197 | every tag read has a non-empty name without ':' or space |
| GolangFile.ParseTagsRoundTrip | golang/file.go:174-197 | `parseTags` reads back what `Tags.write` writes between the backquotes, for names without ':' or space and values without space |
| GoBase.CommentSingleText | go/base.go:22-26 | the single-line form is "/*", the comment with every newline replaced by a space, "*/", on one line |
| GoBase.ReplaceFree | go/base.go:25 | no newline survives the replacement |
| GoBase.CommentMultiText | go/base.go:27-33 | the multi-line form writes every '\n'-separated line as "//" + line + "\n", with no space after "//" |
| GoBase.CommentMultiLines | go/base.go:27-33 | dropping each "//" and joining the lines gives the comment back |
| GoBase.IDCmds | go/base.go:36-38 | the identifier is written verbatim in both forms |
| GoBase.WriteListText | go/base.go:40-58 | single mode writes the items joined by ", " and then once more as indented lines "item,\n"; multi-line mode writes only the lines |
| GoBase.WriteListDepth | go/base.go:51-57 | the lines are written one level deeper and the depth is restored after them |
| GoBase.WriteList | go/base.go:40-58 | the writer performs the calls `WriteListText` describes |
| GoAstText.KeywordText | go/expr.go:147-153 | nil writes "nil", a bool "true" or "false" |
| GoAstText.LiteralText | go/expr.go:155-173 | a rune, int, uint or string literal writes its formatted text |
| GoAstText.RangeText | go/expr.go:175-185 | the lower bound when present, ':', the upper bound when present |
| GoAstText.SymbolText | go/expr.go:187-208 | "pkg." only with a package, then the id, "[a, b]" only with generic arguments |
| GoAstText.SymbolConstructorText | go/expr.go:37-39 | a symbol built by `Symbol` has no package |
| GoAstText.ParenText | go/expr.go:210-214 | "(" e ")" |
| GoAstText.MemberText | go/expr.go:216-220 | e "." id |
| GoAstText.CallText | go/expr.go:222-235 | the callee, "(", arguments joined by ", ", ")", always inline |
| GoAstText.ExprListText | go/expr.go:226-232 | the arguments loop writes them joined by ", " |
| GoAstText.IndexText | go/expr.go:237-242 | e "[" i "]" |
| GoAstText.UnaryText | go/expr.go:244-247 | the operator immediately followed by the operand |
| GoAstText.UnaryConstructorsText | go/expr.go:57-79 | the six unary constructors write "+", "-", "!", "^", "&" and "*" before the operand |
| GoAstText.NamedText | go/type.go:67-88 | "pkg." only with a package, the id, "[a, b]" only with generic arguments |
| GoAstText.TypeArgsText | go/type.go:75-87 | no generic arguments write nothing, otherwise "[a, b]" |
| GoAstText.NamedConstructorText | go/type.go:5-7 | a type built by `Named`, and each predeclared type, has no package |
| GoAstText.PtrText | go/type.go:90-93 | "*" and the target |
| GoAstText.SliceText | go/type.go:95-104 | "[", the size when present, "]", the item type |
| GoAstText.MapText | go/type.go:106-111 | "map[", the key, "]", the item type |
| GoAstText.ExprFlat | go/expr.go:147-247 | no expression opens an indented block |
| GoAstText.TypeFlat | go/type.go:67-111 | no type opens an indented block |
| GoStmt.If | go/stmt.go:57-59 | `If` drops its init and keeps the condition, the then-block and the else part |
| GoStmtText.IfConstructorText | go/stmt.go:57-59 | an `if` built by `If` never writes an init |
| GoStmtText.CompoundConstructors | go/stmt.go:13-51 | each compound-assignment constructor wraps its operands in one-element lists with its own operator |
| GoStmtText.CompoundText | go/stmt.go:13-51 | a compound assignment writes its destination, " op ", its source |
| GoStmtText.AssignText | go/stmt.go:129-149 | destinations joined by ", ", " op ", sources joined by ", " |
| GoStmtText.BlockText | go/stmt.go:154-175 | "{}" when empty; else "{", a newline, the statements each followed by a newline, with one more newline before a statement whose predecessor's `newLineAfter` holds, then "}" |
| GoStmtText.BlockDepth | go/stmt.go:163-172 | the statements are written one level deeper and the depth is restored after the block |
| GoStmtText.IfText | go/stmt.go:192-211 | "if ", "init; " with an init, "cond " with a condition, the then-block, " else " and the else part when present |
| GoStmtText.ReturnText | go/stmt.go:215-222 | "return", and " value" only with a value |
| GoStmtText.KeywordStmtText | go/stmt.go:179-187 | `break` and `continue` write their keyword |
| GoDecl.GenParam | go/decl.go:89-91 | the constructor keeps its arguments |
| GoDecl.Param | go/decl.go:93-95 | the constructor keeps its arguments |
| GoDecl.ConfigBlock | go/decl.go:184-190 | the body block holds what the body callback adds, nothing for a nil callback |
| GoDecl.FuncItem | go/decl.go:31-53 | a receiver only when the receiver's type is not nil; the body built by the callback; everything else as given |
| GoDecl.TypeDecls.Add | go/decl.go:13-21 | appends exactly one item carrying the given fields |
| GoDecl.TypeDecls.Config | go/decl.go:184-190 | the callback's additions are appended in order; a nil callback adds nothing |
| GoDecl.TypeDecls.Write | go/decl.go:168-170 | nothing is written |
| GoDecl.FuncDecls.Add | go/decl.go:31-53 | appends exactly the item `FuncItem` describes |
| GoDecl.FuncDecls.Config | go/decl.go:184-190 | the callback's additions are appended in order |
| GoDecl.FuncDecls.Write | go/decl.go:172-174 | nothing is written |
| GoDecl.VarDecls.Add | go/decl.go:63-70 | appends exactly one item carrying the given fields |
| GoDecl.VarDecls.Config | go/decl.go:184-190 | the callback's additions are appended in order |
| GoDecl.VarDecls.Write | go/decl.go:176-178 | nothing is written |
| GoDecl.ConstDecls.Add | go/decl.go:80-87 | appends exactly one item carrying the given fields |
| GoDecl.ConstDecls.Config | go/decl.go:184-190 | the callback's additions are appended in order |
| GoDecl.ConstDecls.Write | go/decl.go:180-182 | nothing is written |
| GoImport.DetectPkgAlias | go/import.go:139-150 | the text after the last '/', or the whole path without one |
| GoImport.EnsureOutcome | go/import.go:25-53 | an explicit alias is kept and marked explicit, otherwise it is derived from the path; an invalid alias fails; an alias in use fails, for the same path too; otherwise the import carries the comment, alias and path |
| GoImport.Imports.Ensure | go/import.go:25-53 | the outcome is `EnsureOutcome`; on success exactly that import is appended, on failure nothing changes |
| GoImport.EnsureKeepsAliases | go/import.go:34-51 | a successful `Ensure` keeps every alias valid and the aliases pairwise distinct |
| GoImport.EnsureAgainFails | go/import.go:38-42 | registering a path a second time with the same alias argument fails: there is no deduplication |
| GoImport.EnsureDerivedAlias | go/import.go:26-32 | without an alias argument, the import is registered under the last element of its path, marked implicit |
| GoImport.ImportRow | go/import.go:115-133 | with an alias column, the cells are the explicit alias (or "") and the quoted path; otherwise the quoted path; the comment is the prefix |
| GoImport.ImportRows | go/import.go:87-98 | one row per import, in order, and no separator row |
| GoImport.SortedImports | go/import.go:76-85 | the sorted imports are a permutation of the imports |
| GoImport.SortedImportsOrder | go/import.go:76-85 | every import without a '.' precedes every import with one, and paths ascend within each group |
| GoImport.ImportRowsPaths | go/import.go:115-133 | unquoting a row's last cell gives its import's path |
| GoImport.Imports.Write | go/import.go:55-109 | two or more imports are sorted in place; the writer performs the single-import line or the block |
| GoImport.BuildRows | go/import.go:87-98 | the loop builds `ImportRows` |
| GoImport.SingleImportText | go/import.go:59-73 | the comment, "import ", "alias " for a non-empty alias, the quoted path, a newline |
| GoImport.ImportBlockText | go/import.go:100-108 | "import (\n", the table, ")\n" |
| GoFile.SortedFileImports | go/file.go:66-75 | after the sort, imports with a '.' precede the others and paths ascend within each group |
| GoFile.SeparatorRows | go/file.go:78-88 | on the sorted imports there is exactly one empty row when some import has no '.', none otherwise |
| GoFile.FirstRow | go/file.go:78-88 | the first row is the empty row exactly when the first import has no '.' |
| GoFile.FileRow | go/file.go:90-94 | [alias, path] when any import has an alias, else [path] |
| GoFile.FileRowsImports | go/file.go:81-95 | dropping the empty rows leaves exactly one row per import, in order |
| GoFile.SingleFileImportText | go/file.go:52-63 | "import", " alias" for a non-empty alias, " " and the quoted path, a newline |
| GoFile.FileText | go/file.go:35-46 | the comments, "package <name>" and two newlines, then the imports |
| GoFile.CommentsText | go/file.go:36-39 | each comment is written in multi-line form, then one more newline |
| GoFile.File.constructor | go/file.go:12-17 | `NewFile`: comments and package as given, no imports, no declarations |
| GoFile.File.Write | go/file.go:35-46 | two or more imports are sorted in place; the writer performs the comments, the package clause and the imports |
| GoFile.File.WriteImports | go/file.go:48-104 | the imports are sorted when two or more; the writer performs nothing, the single line, or the block |
| GoFile.BuildFileRows | go/file.go:77-95 | the row loop with its `prvSys` flag builds `FileRows` |
| GoFile.File.Types | go/decl.go:5-11 | one new group is appended to the declarations, holds what the callback adds, and is returned |
| GoFile.File.Funcs | go/decl.go:23-29 | the same for function groups |
| GoFile.File.Vars | go/decl.go:55-61 | the same for var groups |
| GoFile.File.Consts | go/decl.go:72-78 | the same for const groups |
| SqlCond.CondPrec | sql/cond.go:82-86 | OR binds loosest (0), comparisons and unary tests tightest (3), AND and NOT in between |
| SqlCond.Or | sql/cond.go:51-72 | `OrOf(Collect(ops))`: nil operands dropped, OR operands spliced in order, then nil, the only operand, or an OR of all |
| SqlCond.Operands | sql/cond.go:74-76 | the operands an OR was built from |
| SqlCond.CollectAppend | sql/cond.go:54-62 | operands are collected in order: a split list collects piecewise |
| SqlCond.CollectMembers | sql/cond.go:54-62 | a condition is collected exactly when it was passed, or inside a passed OR |
| SqlCond.OrNil | sql/cond.go:64-66 | `Or` gives nil exactly when every operand is nil or an OR without operands |
| SqlCond.OrNormal | sql/cond.go:52-71 | from operands `Or` built, the result holds no nested OR, and an OR has at least two operands |
| SqlCond.OrIdempotent | sql/cond.go:51-72 | `Or` of a single result of `Or` gives it back |
| SqlCond.OrNested | sql/cond.go:51-72 | the OR of two ORs is the OR of all their operands |
| SqlWriter.JoinedText | sql/expr.go:12-20 | a separated list writes the items joined by the separator |
| SqlWriter.JoinedLength | sql/expr.go:13-16 | n items give their calls plus n - 1 separators |
| SqlWriter.RenderItem | sql/item.go:11-15 | `Render` returns the text the item's calls write on a fresh writer |
| SqlWriter.RenderFlat | sql/item.go:11-15 | an item that opens no indented block renders as its plain text |
| SqlWriter.QuoteRoundTrip | sql/postgres.go:15-17 | quoting is undone by unquoting, and any text that unquotes is the quoting of what it unquotes to |
| SqlWriter.RenderName | sql/sqlserver.go:15-17 | a name renders as "name" in PostgreSQL and [name] in SQL Server, verbatim |
| SqlWriter.WriteName | sql/names.go:24-26 | the writer performs the dialect's quoting of the name |
| SqlWriter.NamesText | sql/names.go:14-22 | the quoted names joined by ", ", nothing when empty, in 2n - 1 calls |
| SqlWriter.WriteNames | sql/names.go:14-22 | the writer performs `NamesCmds` |
| SqlWriter.ObjectNamePlain | sql/names.go:28-35 | the quoted schema and '.' only with a schema, then the quoted name |
| SqlWriter.ObjectNameText | sql/names.go:28-35 | "schema"."name" in PostgreSQL and [schema].[name] in SQL Server; without a schema only the quoted name |
| SqlWriter.WriteObjectName | sql/names.go:28-35 | the writer performs `ObjectNameCmds` |
| SqlWriter.ExprsText | sql/expr.go:12-20 | the expressions joined by ", " |
| SqlWriter.WriteExprs | sql/expr.go:12-20 | the writer performs `ExprsCmds` |
| SqlWriter.OperandText | sql/dialect.go:50-60 | an operand is in parentheses exactly when its precedence is below the context's |
| SqlWriter.OrText | sql/dialect.go:40-48 | an OR writes its operands joined by " OR ", none in parentheses |
| SqlWriter.WriteCond | sql/cond.go:78-80 | the writer performs `CondCmds` |
| SqlWriter.WriteOrCond | sql/dialect.go:40-48 | the writer performs `OrCmds` |
| SqlWriter.WriteCondOperand | sql/dialect.go:50-60 | the writer performs `OperandCmds` |
| SqlWriter.SetOpKeywords | sql/dialect.go:20-29 | exactly union, intersect and except have a keyword, the operator in upper case |
| SqlWriter.QuerySetText | sql/dialect.go:17-38 | the left text, the keyword, " ALL" if set, a newline, the right text |
| SqlWriter.QuerySetPanic | sql/dialect.go:18-28 | an unknown operator panics once the left query is written |
| SqlWriter.WriteQuery | sql/query.go:85-91 | the writer performs `QueryOutcome` and reports its panic |
| SqlWriter.WriteQuerySet | sql/dialect.go:17-38 | the same for a query set |
| SqlWriter.SelectRows | sql/query.go:93-129 | one row per column plus one FROM row when there is a source; the keyword is in the first row only; each cell is the expression, " AS alias" with an alias, "," except on the last |
| SqlWriter.WriteSelect | sql/query.go:93-129 | the table holds `ColumnRows` then `FromRows`, and nothing is written |
| SqlWriter.AddColumnRows | sql/query.go:96-118 | the column loop adds `ColumnRows` |

## Left out

- I/O: `WriteFile`, `Flush`, the package-level `WriteString` helper and the
  bufio sink (writer.go:18-46, writer.go:118-120). The output is a string.
- Lengths: Go's `len` counts bytes, the model counts characters; the text is
  treated as ASCII.
- Depth after a panic: `Indent` has no `defer`, so a panic inside the action
  leaves the depth raised; the model has no panics inside writer actions.
- Reflection: `File.Type` and `File.TypeOf` (golang/file.go:44-119).
- Floating point: float literals are carried as preformatted text.
- Library calls: `strconv` is replaced by ASCII stand-ins (module `Strconv`).
  `token.IsIdentifier` is the ASCII identifier test without keywords.
  `fmt.Fprintf` is one `Write` of the formatted text.
- Sorting: `Sorting.SortByKey` is an insertion sort that stands for
  `sort.Slice`. Only its result, a sorted permutation, is claimed.
- casing.go, web/api/stdhttp/gen.go, sql/cte.go and sql/writer.go are not
  part of this model. The SQL writer and its dialect are separate parameters.
- go/base.go `toString`: it calls `w.Close`, which writer.go does not have.
- GoFile.ImportItem: the path's type `StringVal` (go/file.go:30) and the
  `Path.write(w, true)` and `toString(itm.Path)` calls (go/file.go:61, 91,
  93) have no definition in go/file.go. The path is modelled as a string
  written with `strconv.Quote`, as go/import.go:71 and :127 write theirs.
- GoFile.File.WriteImports: `w.Indent(func(w *code.Writer) {…})` at go/file.go:99
  passes a callback whose signature is not that of writer.go:112's `Indent`.
  The model uses writer.go's `Indent`, an indented call list.
- CodeWriter.ExecStrip: the call-list form holds when the indent string is a
  run of one character that the text does not contain (the default "\t" and
  tab-free text). For other indent strings only `WriteString`'s closed form
  (`WriteStringIndented`) describes where the indentation goes.
- `w.Table(rows...)` and `code.Row` are not in table.go. The go/ import
  writers take the table's calls as a parameter.
- The comment renderer of go/import.go is a parameter too.
- GoImport.DetectPkgAlias: the Go function has no return when the derived
  alias is not valid. The model returns the candidate, and `Ensure` then
  fails.
- Select fields `Joins`, `GroupBy`, `OrderBy`, `Where`, `Offset` and
  `Limit` are never read by `WriteSelect` and are not modelled.
- SQL expression and select-source implementations are not part of the
  core. An expression is the calls its `write` makes, and a source either
  renders or panics.
- `AndCond`, `NotCond`, `BinCond` and `UnCond` have no `write` in the
  source. Their calls are a parameter of the condition writers.
- The golang/ writers that fill a local `Table` in a loop (struct fields,
  import, var and const groups) are modelled as the rows they add.
- The golang/ writers are modelled as call lists, not as methods on a
  writer.
- FuncExpr, SymbolExpr, MemberExpr and CallExpr writers of golang/, and
  `FuncType`, have text given by their call lists only. No separate text
  lemma is stated for them.
