/**
  `_convert_markdown_table` (backend/app/channels/dingtalk.py): rewrites pipe tables
  as quoted bullet lines, because DingTalk does not render tables.
 */
module DingTalkTables {
  import opened Text

  /** `line.strip().startswith("|")`. */
  predicate StartsPipe(line: string) {
    Strip(line) != "" && Strip(line)[0] == '|'
  }

  /** `_TABLE_SEPARATOR_RE` on the stripped line. */
  predicate IsSeparator(line: string) {
    var t := Strip(line);
    |t| >= 3 && t[0] == '|' && t[|t| - 1] == '|' && forall i :: 1 <= i < |t| - 1 ==> t[i] in "-:| "
  }

  predicate AllStartPipe(lines: seq<string>) {
    forall i :: 0 <= i < |lines| ==> StartsPipe(lines[i])
  }

  function StripAll(parts: seq<string>): (r: seq<string>)
    ensures |r| == |parts|
  {
    if parts == [] then [] else [Strip(parts[0])] + StripAll(parts[1..])
  }

  lemma {:induction false} StripAllAt(parts: seq<string>, i: nat)
    requires i < |parts|
    ensures StripAll(parts)[i] == Strip(parts[i])
  {
    if i > 0 {
      StripAllAt(parts[1..], i - 1);
    }
  }

  function Cells(line: string): seq<string> {
    StripAll(Split(Trim(Strip(line), Just('|')), '|'))
  }

  function Bullet(header: string, cell: string): string {
    "> **" + header + "**: " + cell
  }

  function Min(a: nat, b: nat): nat {
    if a <= b then a else b
  }

  /** The bullets for the first `n` columns. */
  function Bullets(headers: seq<string>, cells: seq<string>, n: nat): (r: seq<string>)
    requires n <= |headers| && n <= |cells|
    ensures |r| == n
  {
    if n == 0 then [] else Bullets(headers, cells, n - 1) + [Bullet(headers[n - 1], cells[n - 1])]
  }

  lemma {:induction false} BulletsAt(headers: seq<string>, cells: seq<string>, n: nat, i: nat)
    requires i < n <= |headers| && n <= |cells|
    ensures Bullets(headers, cells, n)[i] == Bullet(headers[i], cells[i])
  {
    if i < n - 1 {
      BulletsAt(headers, cells, n - 1, i);
    }
  }

  /** A body row: one bullet for each column that has both a header and a cell, then a blank line. */
  function RowLines(headers: seq<string>, row: string): seq<string> {
    Bullets(headers, Cells(row), Min(|headers|, |Cells(row)|)) + [""]
  }

  function RowsLines(headers: seq<string>, rows: seq<string>): seq<string> {
    if rows == [] then [] else RowsLines(headers, rows[..|rows| - 1]) + RowLines(headers, rows[|rows| - 1])
  }

  // ---------------------------------------------------------------------------
  // Documents as blocks
  // ---------------------------------------------------------------------------

  datatype Block =
    | Line(text: string)
    | Table(header: string, separator: string, rows: seq<string>)

  function SourceOf(b: Block): seq<string> {
    match b
    case Line(text) => [text]
    case Table(header, separator, rows) => [header, separator] + rows
  }

  function RenderingOf(b: Block): seq<string> {
    match b
    case Line(text) => [text]
    case Table(header, _, rows) => RowsLines(Cells(header), rows)
  }

  /** The Markdown lines of a document. */
  function Source(blocks: seq<Block>): seq<string> {
    if blocks == [] then [] else SourceOf(blocks[0]) + Source(blocks[1..])
  }

  /** What DingTalk should get: lines as they are, tables as bullets. */
  function Rendering(blocks: seq<Block>): seq<string> {
    if blocks == [] then [] else RenderingOf(blocks[0]) + Rendering(blocks[1..])
  }

  predicate PipeFirst(lines: seq<string>) {
    lines != [] && StartsPipe(lines[0])
  }

  predicate SeparatorFirst(lines: seq<string>) {
    lines != [] && IsSeparator(lines[0])
  }

  /** Blocks that say what a document is: a table is a pipe line, a separator and all the pipe lines
      that follow; every other line stands alone. */
  predicate WellParsed(blocks: seq<Block>) {
    blocks == [] || (
      && WellParsed(blocks[1..])
      && match blocks[0]
         case Line(text) => !(StartsPipe(text) && SeparatorFirst(Source(blocks[1..])))
         case Table(header, separator, rows) =>
           && StartsPipe(header) && IsSeparator(separator)
           && AllStartPipe(rows)
           && !PipeFirst(Source(blocks[1..])))
  }

  /** How many pipe lines come first. */
  function PipeRun(lines: seq<string>): (n: nat)
    ensures n <= |lines| && (n < |lines| ==> !StartsPipe(lines[n]))
  {
    if lines != [] && StartsPipe(lines[0]) then 1 + PipeRun(lines[1..]) else 0
  }

  lemma {:induction false} RunStartsPipe(lines: seq<string>, i: nat)
    requires i < PipeRun(lines)
    ensures StartsPipe(lines[i])
  {
    if i > 0 {
      RunStartsPipe(lines[1..], i - 1);
    }
  }

  function Blocks(lines: seq<string>): seq<Block>
    decreases |lines|
  {
    if lines == [] then []
    else if |lines| > 1 && StartsPipe(lines[0]) && IsSeparator(lines[1]) then
      var n := PipeRun(lines[2..]);
      [Table(lines[0], lines[1], lines[2..][..n])] + Blocks(lines[2 + n..])
    else [Line(lines[0])] + Blocks(lines[1..])
  }

  lemma {:induction false} RunOf(rows: seq<string>, rest: seq<string>)
    requires AllStartPipe(rows)
    requires !PipeFirst(rest)
    ensures PipeRun(rows + rest) == |rows|
  {
    if rows == [] {
      assert rows + rest == rest;
    } else {
      assert (rows + rest)[1..] == rows[1..] + rest;
      RunOf(rows[1..], rest);
    }
  }

  lemma BlocksOfLine(lines: seq<string>, text: string, rest: seq<string>)
    requires lines == [text] + rest && !(StartsPipe(text) && SeparatorFirst(rest))
    ensures Blocks(lines) == [Line(text)] + Blocks(rest)
  {
    assert lines[1..] == rest;
  }

  lemma BlocksOfTable(lines: seq<string>, header: string, separator: string, rows: seq<string>, rest: seq<string>)
    requires lines == [header, separator] + rows + rest
    requires StartsPipe(header) && IsSeparator(separator) && !PipeFirst(rest)
    requires AllStartPipe(rows)
    ensures Blocks(lines) == [Table(header, separator, rows)] + Blocks(rest)
  {
    RunOf(rows, rest);
    assert lines[2..] == rows + rest && lines[2..][..|rows|] == rows && lines[2 + |rows|..] == rest;
  }

  /** What `Blocks` looks at first. */
  lemma FirstBlock(lines: seq<string>) returns (b: Block, rest: seq<string>)
    requires lines != []
    ensures lines == SourceOf(b) + rest && |rest| < |lines| && Blocks(lines) == [b] + Blocks(rest)
    ensures b.Line? ==> !(StartsPipe(b.text) && SeparatorFirst(rest))
    ensures b.Table? ==>
      && StartsPipe(b.header) && IsSeparator(b.separator) && !PipeFirst(rest)
      && AllStartPipe(b.rows)
  {
    if |lines| > 1 && StartsPipe(lines[0]) && IsSeparator(lines[1]) {
      var tail := lines[2..];
      var n := PipeRun(tail);
      b, rest := Table(lines[0], lines[1], tail[..n]), lines[2 + n..];
      forall i | 0 <= i < n ensures StartsPipe(tail[..n][i]) { RunStartsPipe(tail, i); }
      assert rest == tail[n..];
    } else {
      b, rest := Line(lines[0]), lines[1..];
    }
  }

  /** Every text is a well-parsed document. */
  lemma {:induction false} BlocksWellParsed(lines: seq<string>)
    ensures WellParsed(Blocks(lines)) && Source(Blocks(lines)) == lines
    decreases |lines|
  {
    if lines != [] {
      var b, rest := FirstBlock(lines);
      BlocksWellParsed(rest);
      var blocks := Blocks(lines);
      assert blocks[0] == b && blocks[1..] == Blocks(rest);
    }
  }

  /** ... in only one way. */
  lemma {:induction false} ParseIsUnique(blocks: seq<Block>)
    requires WellParsed(blocks)
    ensures Blocks(Source(blocks)) == blocks
  {
    if blocks != [] {
      var rest := Source(blocks[1..]);
      ParseIsUnique(blocks[1..]);
      match blocks[0] {
        case Line(text) => BlocksOfLine(Source(blocks), text, rest);
        case Table(header, separator, rows) => BlocksOfTable(Source(blocks), header, separator, rows, rest);
      }
      assert blocks == [blocks[0]] + blocks[1..];
    }
  }

  // ---------------------------------------------------------------------------
  // The converter
  // ---------------------------------------------------------------------------

  function Converted(text: string): string {
    Join("\n", Rendering(Blocks(Split(text, '\n'))))
  }

  /** What the lines from `i` on become. */
  function RenderingFrom(lines: seq<string>, i: nat): seq<string>
    requires i <= |lines|
  {
    Rendering(Blocks(lines[i..]))
  }

  /** `_convert_markdown_table`. */
  method ConvertMarkdownTable(text: string) returns (converted: string)
    ensures converted == Converted(text)
  {
    var lines := Split(text, '\n');
    var result: seq<string> := [];
    var i := 0;
    while i < |lines|
      invariant 0 <= i <= |lines|
      invariant result + RenderingFrom(lines, i) == RenderingFrom(lines, 0)
      decreases |lines| - i
    {
      if i + 1 < |lines| && StartsPipe(lines[i]) && IsSeparator(lines[i + 1]) {
        var rows, next := ConvertRows(Cells(lines[i]), lines, i + 2);
        TableAt(lines, i, next);
        Regrouped(result, rows, RenderingFrom(lines, next));
        result, i := result + rows, next;
      } else {
        LineAt(lines, i);
        Regrouped(result, [lines[i]], RenderingFrom(lines, i + 1));
        result, i := result + [lines[i]], i + 1;
      }
    }
    WholeRendering(lines, result, i);
    converted := Join("\n", result);
  }

  lemma Regrouped(a: seq<string>, b: seq<string>, c: seq<string>)
    ensures a + (b + c) == (a + b) + c
  {
  }

  lemma WholeRendering(lines: seq<string>, result: seq<string>, i: nat)
    requires i == |lines| && result + RenderingFrom(lines, i) == RenderingFrom(lines, 0)
    ensures result == Rendering(Blocks(lines))
  {
    assert lines[0..] == lines;
  }

  /** The loop over the body rows of a table. */
  method ConvertRows(headers: seq<string>, lines: seq<string>, start: nat) returns (rows: seq<string>, i: nat)
    requires start <= |lines|
    ensures i == start + PipeRun(lines[start..]) && i <= |lines|
    ensures rows == RowsLines(headers, lines[start..i])
  {
    rows, i := [], start;
    while i < |lines| && StartsPipe(lines[i])
      invariant start <= i <= |lines|
      invariant i + PipeRun(lines[i..]) == start + PipeRun(lines[start..])
      invariant rows == RowsLines(headers, lines[start..i])
      decreases |lines| - i
    {
      RowsGrow(headers, lines, start, i);
      var row := AppendRow(headers, lines[i]);
      rows := rows + row;
      i := i + 1;
    }
    RunEnds(lines, i);
  }

  lemma RunEnds(lines: seq<string>, i: nat)
    requires i <= |lines| && (i < |lines| ==> !StartsPipe(lines[i]))
    ensures PipeRun(lines[i..]) == 0
  {
  }

  lemma LineAt(lines: seq<string>, i: nat)
    requires i < |lines| && !(i + 1 < |lines| && StartsPipe(lines[i]) && IsSeparator(lines[i + 1]))
    ensures RenderingFrom(lines, i) == [lines[i]] + RenderingFrom(lines, i + 1)
  {
    assert lines[i..] == [lines[i]] + lines[i + 1..];
    BlocksOfLine(lines[i..], lines[i], lines[i + 1..]);
  }

  /** The bullets of one body row, by the loop over `zip(headers, cells)`. */
  method AppendRow(headers: seq<string>, line: string) returns (row: seq<string>)
    ensures row == RowLines(headers, line)
  {
    var cells := Cells(line);
    row := [];
    for k := 0 to Min(|headers|, |cells|)
      invariant row == Bullets(headers, cells, k)
    {
      row := row + [Bullet(headers[k], cells[k])];
    }
    row := row + [""];
  }

  lemma RowsGrow(headers: seq<string>, lines: seq<string>, start: nat, i: nat)
    requires start <= i < |lines|
    ensures StartsPipe(lines[i]) ==> PipeRun(lines[i..]) == 1 + PipeRun(lines[i + 1..])
    ensures RowsLines(headers, lines[start..i + 1]) == RowsLines(headers, lines[start..i]) + RowLines(headers, lines[i])
  {
    var rows := lines[start..i + 1];
    assert rows[..|rows| - 1] == lines[start..i] && rows[|rows| - 1] == lines[i];
    assert lines[i..][1..] == lines[i + 1..];
  }

  lemma TableAt(lines: seq<string>, here: nat, end: nat)
    requires here + 2 <= end <= |lines| && StartsPipe(lines[here]) && IsSeparator(lines[here + 1])
    requires end == here + 2 + PipeRun(lines[here + 2..])
    ensures RenderingFrom(lines, here)
            == RowsLines(Cells(lines[here]), lines[here + 2..end]) + RenderingFrom(lines, end)
  {
    var from := lines[here..];
    assert from[2..] == lines[here + 2..] && from[2..][..end - here - 2] == lines[here + 2..end];
    assert from[end - here..] == lines[end..];
    var blocks := Blocks(from);
    assert blocks[0] == Table(lines[here], lines[here + 1], lines[here + 2..end])
           && blocks[1..] == Blocks(lines[end..]);
  }

  /** Every document is converted block by block. */
  lemma DocumentConverts(blocks: seq<Block>)
    requires WellParsed(blocks) && blocks != [] && NoneHolds(Source(blocks), '\n')
    ensures Converted(Join("\n", Source(blocks))) == Join("\n", Rendering(blocks))
  {
    assert Source(blocks) != [];
    SplitJoin(Source(blocks), '\n');
    ParseIsUnique(blocks);
  }

  // ---------------------------------------------------------------------------
  // Idempotence
  // ---------------------------------------------------------------------------

  ghost predicate NoTable(lines: seq<string>) {
    forall i :: 0 <= i && i + 1 < |lines| ==> !(StartsPipe(lines[i]) && IsSeparator(lines[i + 1]))
  }

  lemma BulletIsNoPipe(header: string, cell: string)
    ensures !StartsPipe(Bullet(header, cell))
  {
    var s := Bullet(header, cell);
    assert s[0] == '>';
    TrimKeepsFirst(s, WhiteSpace);
  }

  lemma BlankIsNoPipe()
    ensures !StartsPipe("")
  {
  }

  lemma {:induction false} RowsAreNoPipes(headers: seq<string>, rows: seq<string>)
    ensures forall i :: 0 <= i < |RowsLines(headers, rows)| ==> !StartsPipe(RowsLines(headers, rows)[i])
  {
    if rows != [] {
      RowsAreNoPipes(headers, rows[..|rows| - 1]);
      var cells := Cells(rows[|rows| - 1]);
      var n := Min(|headers|, |cells|);
      forall k | 0 <= k < n ensures !StartsPipe(Bullets(headers, cells, n)[k]) {
        BulletsAt(headers, cells, n, k);
        BulletIsNoPipe(headers[k], cells[k]);
      }
      BlankIsNoPipe();
    }
  }

  lemma HeadIsNoPipe(blocks: seq<Block>)
    requires WellParsed(blocks) && !PipeFirst(Source(blocks))
    ensures !PipeFirst(Rendering(blocks))
  {
    if blocks != [] {
      assert Source(blocks)[0] == SourceOf(blocks[0])[0];
    }
  }

  lemma HeadIsNoSeparator(blocks: seq<Block>)
    requires WellParsed(blocks) && !SeparatorFirst(Source(blocks))
    ensures !SeparatorFirst(Rendering(blocks))
  {
    if blocks != [] && blocks[0].Table? {
      var rows := RowsLines(Cells(blocks[0].header), blocks[0].rows);
      RowsAreNoPipes(Cells(blocks[0].header), blocks[0].rows);
      HeadIsNoPipe(blocks[1..]);
      assert Rendering(blocks) == rows + Rendering(blocks[1..]);
    }
  }

  lemma NoTableConcat(a: seq<string>, b: seq<string>)
    requires NoTable(a) && NoTable(b)
    requires a != [] ==> !(StartsPipe(a[|a| - 1]) && SeparatorFirst(b))
    ensures NoTable(a + b)
  {
  }

  /** The rendering of a document never holds a pipe line followed by a separator. */
  lemma {:induction false} NoTableLeft(blocks: seq<Block>)
    requires WellParsed(blocks)
    ensures NoTable(Rendering(blocks))
  {
    if blocks != [] {
      NoTableLeft(blocks[1..]);
      match blocks[0] {
        case Line(text) => HeadAfterLine(text, blocks[1..]);
        case Table(header, _, rows) =>
          RowsAreNoPipes(Cells(header), rows);
      }
      NoTableConcat(RenderingOf(blocks[0]), Rendering(blocks[1..]));
    }
  }

  lemma HeadAfterLine(text: string, rest: seq<Block>)
    requires WellParsed(rest) && !(StartsPipe(text) && SeparatorFirst(Source(rest)))
    ensures !(StartsPipe(text) && SeparatorFirst(Rendering(rest)))
  {
    if StartsPipe(text) {
      HeadIsNoSeparator(rest);
    }
  }

  /** A text without tables is left as it is. */
  lemma {:induction false} NoTableUnchanged(lines: seq<string>)
    requires NoTable(lines)
    ensures Rendering(Blocks(lines)) == lines
    decreases |lines|
  {
    if lines != [] {
      NoTableUnchanged(lines[1..]);
      assert lines == [lines[0]] + lines[1..];
    }
  }

  lemma CellsWithin(line: string, c: char)
    requires c !in line
    ensures NoneHolds(Cells(line), c)
  {
    TrimWithin(line, WhiteSpace, c);
    TrimWithin(Strip(line), Just('|'), c);
    var parts := Split(Trim(Strip(line), Just('|')), '|');
    SplitWithin(Trim(Strip(line), Just('|')), '|', c);
    forall i | 0 <= i < |parts| ensures c !in StripAll(parts)[i] {
      StripAllAt(parts, i);
      TrimWithin(parts[i], WhiteSpace, c);
    }
  }

  lemma {:induction false} RowsOneLine(headers: seq<string>, rows: seq<string>)
    requires NoneHolds(headers, '\n') && NoneHolds(rows, '\n')
    ensures NoneHolds(RowsLines(headers, rows), '\n')
  {
    if rows != [] {
      RowsOneLine(headers, rows[..|rows| - 1]);
      var row := rows[|rows| - 1];
      var n := Min(|headers|, |Cells(row)|);
      CellsWithin(row, '\n');
      forall k | 0 <= k < n ensures '\n' !in Bullets(headers, Cells(row), n)[k] {
        BulletsAt(headers, Cells(row), n, k);
      }
    }
  }

  lemma {:induction false} RenderingOneLine(blocks: seq<Block>)
    requires NoneHolds(Source(blocks), '\n')
    ensures NoneHolds(Rendering(blocks), '\n')
  {
    if blocks != [] {
      var here, rest := SourceOf(blocks[0]), Source(blocks[1..]);
      forall i | 0 <= i < |rest| ensures '\n' !in rest[i] { assert rest[i] == Source(blocks)[|here| + i]; }
      forall i | 0 <= i < |here| ensures '\n' !in here[i] { assert here[i] == Source(blocks)[i]; }
      RenderingOneLine(blocks[1..]);
      if blocks[0].Table? {
        assert here[0] == blocks[0].header && here[2..] == blocks[0].rows;
        CellsWithin(blocks[0].header, '\n');
        RowsOneLine(Cells(blocks[0].header), blocks[0].rows);
      }
    }
  }

  /** Converting twice is converting once, for every text. */
  lemma ConversionIdempotent(text: string)
    ensures Converted(Converted(text)) == Converted(text)
  {
    var lines := Split(text, '\n');
    var out := Rendering(Blocks(lines));
    BlocksWellParsed(lines);
    NoTableLeft(Blocks(lines));
    SplitFree(text, '\n');
    RenderingOneLine(Blocks(lines));
    if out == [] {
      IndexOfAbsent("", '\n');
      assert Split("", '\n') == [""];
      NoTableUnchanged([""]);
    } else {
      SplitJoin(out, '\n');
      NoTableUnchanged(out);
    }
  }

  // ---------------------------------------------------------------------------
  // Cells
  // ---------------------------------------------------------------------------

  /** Cells as a table prints them: between pipes, padded. */
  function Padded(cells: seq<string>): (r: seq<string>)
    ensures |r| == |cells| && forall i :: 0 <= i < |r| ==> r[i] == " " + cells[i] + " "
  {
    if cells == [] then [] else [" " + cells[0] + " "] + Padded(cells[1..])
  }

  function Printed(cells: seq<string>): string {
    "|" + Join("|", Padded(cells)) + "|"
  }

  ghost predicate CellText(cell: string) {
    '|' !in cell && Trimmed(cell, WhiteSpace)
  }

  lemma {:induction false} JoinEnds(sep: string, parts: seq<string>, c: char)
    requires parts != []
    requires forall i :: 0 <= i < |parts| ==> parts[i] != "" && parts[i][0] == c && parts[i][|parts[i]| - 1] == c
    ensures var s := Join(sep, parts); s != "" && s[0] == c && s[|s| - 1] == c
  {
    if |parts| > 1 {
      JoinEnds(sep, parts[1..], c);
    }
  }

  /** Every row of pipe-free trimmed cells, empty ones included, is read back cell by cell. */
  lemma CellsOfPrinted(cells: seq<string>)
    requires cells != [] && forall i :: 0 <= i < |cells| ==> CellText(cells[i])
    ensures StartsPipe(Printed(cells)) && Cells(Printed(cells)) == cells
  {
    var padded, inner := Padded(cells), Join("|", Padded(cells));
    JoinEnds("|", padded, ' ');
    assert Printed(cells) == "" + Printed(cells) + "";
    TrimIs("", Printed(cells), "", WhiteSpace);
    TrimIs("|", inner, "|", Just('|'));
    SplitJoin(padded, '|');
    forall i | 0 <= i < |cells| ensures StripAll(padded)[i] == cells[i] {
      StripAllAt(padded, i);
      TrimIs(" ", cells[i], " ", WhiteSpace);
    }
  }

  /** A printed row of a printed table becomes its header-cell pairs, as many as both have, and a blank line. */
  lemma PrintedRow(headers: seq<string>, cells: seq<string>)
    requires headers != [] && forall i :: 0 <= i < |headers| ==> CellText(headers[i])
    requires cells != [] && forall i :: 0 <= i < |cells| ==> CellText(cells[i])
    ensures var r := RowLines(Cells(Printed(headers)), Printed(cells));
            && |r| == Min(|headers|, |cells|) + 1 && r[|r| - 1] == ""
            && forall i :: 0 <= i < |r| - 1 ==> r[i] == "> **" + headers[i] + "**: " + cells[i]
  {
    CellsOfPrinted(headers);
    CellsOfPrinted(cells);
    var n := Min(|headers|, |cells|);
    forall i | 0 <= i < n ensures Bullets(headers, cells, n)[i] == Bullet(headers[i], cells[i]) {
      BulletsAt(headers, cells, n, i);
    }
  }

  // ---------------------------------------------------------------------------
  // Whole tables, on characters
  // ---------------------------------------------------------------------------

  ghost predicate DashChars(s: string) {
    forall i :: 0 <= i < |s| ==> s[i] == '-' || s[i] == ':' || s[i] == '|' || s[i] == ' '
  }

  /** Padding, a pipe, at least one of `-`, `:`, `|` and blank, a pipe, padding. */
  ghost predicate DashRow(line: string, lead: string, mid: string, trail: string) {
    && line == lead + ("|" + mid + "|") + trail && AllIn(lead, WhiteSpace) && AllIn(trail, WhiteSpace)
    && mid != "" && DashChars(mid)
  }

  /** `_TABLE_SEPARATOR_RE`: the separators are exactly the dash rows. */
  lemma SeparatorIff(line: string)
    ensures IsSeparator(line) <==> exists lead, mid, trail :: DashRow(line, lead, mid, trail)
  {
    if IsSeparator(line) {
      var lead, trail := TrimParts(line, WhiteSpace);
      var t := Strip(line);
      var mid := t[1..|t| - 1];
      assert t == "|" + mid + "|";
      forall i | 0 <= i < |mid| ensures mid[i] in "-:| " { assert mid[i] == t[i + 1]; }
      assert DashRow(line, lead, mid, trail);
    }
    if lead, mid, trail :| DashRow(line, lead, mid, trail) {
      var t := "|" + mid + "|";
      TrimIs(lead, t, trail, WhiteSpace);
      forall i | 1 <= i < |t| - 1 ensures t[i] in "-:| " { assert t[i] == mid[i - 1]; }
    }
  }

  /** A row as Markdown writes it: padding, a pipe, cells with any padding between pipes, and a closing
      pipe or none. Without a closing pipe the last cell must end visibly. */
  ghost predicate RowText(line: string, padded: seq<string>, lead: string, closing: string, trail: string) {
    && padded != [] && line == lead + ("|" + Join("|", padded) + closing) + trail
    && AllIn(lead, WhiteSpace) && AllIn(trail, WhiteSpace)
    && NoneHolds(padded, '|') && padded[0] != "" && padded[|padded| - 1] != ""
    && (closing == "|" || (closing == "" && !IsSpace(padded[|padded| - 1][|padded[|padded| - 1]| - 1])))
  }

  ghost predicate IsRow(line: string, padded: seq<string>) {
    exists lead, closing, trail :: RowText(line, padded, lead, closing, trail)
  }

  lemma {:induction false} JoinedEnds(sep: string, parts: seq<string>)
    requires parts != [] && parts[0] != "" && parts[|parts| - 1] != ""
    ensures var s, last := Join(sep, parts), parts[|parts| - 1];
            s != "" && s[0] == parts[0][0] && s[|s| - 1] == last[|last| - 1]
  {
    if |parts| > 1 {
      var rest := parts[1..];
      if rest[0] != "" {
        JoinedEnds(sep, rest);
      } else {
        JoinedLast(sep, rest);
      }
    }
  }

  lemma {:induction false} JoinedLast(sep: string, parts: seq<string>)
    requires parts != [] && parts[|parts| - 1] != ""
    ensures var s, last := Join(sep, parts), parts[|parts| - 1]; s != "" && s[|s| - 1] == last[|last| - 1]
  {
    if |parts| > 1 {
      JoinedLast(sep, parts[1..]);
    }
  }

  /** Such a row is read back as its cells, without their padding. */
  lemma CellsOfRow(line: string, padded: seq<string>)
    requires IsRow(line, padded)
    ensures StartsPipe(line) && |Cells(line)| == |padded|
    ensures forall i :: 0 <= i < |padded| ==> Cells(line)[i] == Strip(padded[i])
  {
    var lead, closing, trail :| RowText(line, padded, lead, closing, trail);
    var inner, last := Join("|", padded), padded[|padded| - 1];
    JoinedEnds("|", padded);
    assert '|' !in padded[0] && '|' !in last;
    RowParts(line, inner, lead, closing, trail);
    SplitJoin(padded, '|');
    forall i | 0 <= i < |padded| ensures StripAll(padded)[i] == Strip(padded[i]) { StripAllAt(padded, i); }
  }

  lemma RowParts(line: string, inner: string, lead: string, closing: string, trail: string)
    requires line == lead + ("|" + inner + closing) + trail && AllIn(lead, WhiteSpace) && AllIn(trail, WhiteSpace)
    requires inner != "" && inner[0] != '|' && inner[|inner| - 1] != '|'
    requires closing == "|" || (closing == "" && !IsSpace(inner[|inner| - 1]))
    ensures StartsPipe(line) && Trim(Strip(line), Just('|')) == inner
  {
    var core := "|" + inner + closing;
    assert core[|core| - 1] == if closing == "" then inner[|inner| - 1] else '|';
    TrimIs(lead, core, trail, WhiteSpace);
    TrimIs("|", inner, closing, Just('|'));
  }

  /** What a row should come out as: a bullet for each column that has both a header and a cell, then a
      blank line. */
  function BulletedRow(headers: seq<string>, cells: seq<string>): seq<string> {
    var n := if |headers| < |cells| then |headers| else |cells|;
    seq(n, i requires 0 <= i < n => "> **" + Strip(headers[i]) + "**: " + Strip(cells[i])) + [""]
  }

  function Bulleted(headers: seq<string>, rows: seq<seq<string>>): seq<string> {
    if rows == [] then []
    else Bulleted(headers, rows[..|rows| - 1]) + BulletedRow(headers, rows[|rows| - 1])
  }

  lemma RowBulleted(headerLine: string, headers: seq<string>, line: string, cells: seq<string>)
    requires IsRow(headerLine, headers) && IsRow(line, cells)
    ensures RowLines(Cells(headerLine), line) == BulletedRow(headers, cells)
  {
    CellsOfRow(headerLine, headers);
    CellsOfRow(line, cells);
    var n := Min(|headers|, |cells|);
    forall i | 0 <= i < n
      ensures Bullets(Cells(headerLine), Cells(line), n)[i] == "> **" + Strip(headers[i]) + "**: " + Strip(cells[i])
    {
      BulletsAt(Cells(headerLine), Cells(line), n, i);
    }
  }

  ghost predicate AreRows(lines: seq<string>, rows: seq<seq<string>>) {
    |lines| == |rows| && forall i :: 0 <= i < |rows| ==> IsRow(lines[i], rows[i])
  }

  lemma {:induction false} RowsBulleted(headerLine: string, headers: seq<string>, lines: seq<string>,
                                        rows: seq<seq<string>>)
    requires IsRow(headerLine, headers) && AreRows(lines, rows)
    ensures RowsLines(Cells(headerLine), lines) == Bulleted(headers, rows)
    decreases |rows|
  {
    if rows != [] {
      var n := |rows| - 1;
      RowsBulleted(headerLine, headers, lines[..n], rows[..n]);
      RowBulleted(headerLine, headers, lines[n], rows[n]);
    }
  }

  /** Lines without pipes. */
  ghost predicate Prose(lines: seq<string>) {
    NoneHolds(lines, '|')
  }

  lemma ProseStartsNoPipe(line: string)
    requires '|' !in line
    ensures !StartsPipe(line)
  {
    TrimWithin(line, WhiteSpace, '|');
  }

  lemma LineParses(text: string, rest: seq<Block>)
    requires '|' !in text && WellParsed(rest)
    ensures var blocks := [Line(text)] + rest;
            && WellParsed(blocks) && Source(blocks) == [text] + Source(rest)
            && Rendering(blocks) == [text] + Rendering(rest)
  {
    ProseStartsNoPipe(text);
    assert ([Line(text)] + rest)[1..] == rest;
  }

  lemma ConsConcat(lines: seq<string>, c: seq<string>)
    requires lines != []
    ensures [lines[0]] + (lines[1..] + c) == lines + c
  {
  }

  /** The blocks of lines without pipes in front of others. */
  lemma {:induction false} ProseParses(lines: seq<string>, rest: seq<Block>) returns (blocks: seq<Block>)
    requires Prose(lines) && WellParsed(rest)
    ensures WellParsed(blocks)
    ensures Source(blocks) == lines + Source(rest) && Rendering(blocks) == lines + Rendering(rest)
    decreases |lines|
  {
    if lines == [] {
      blocks := rest;
    } else {
      var tail := ProseParses(lines[1..], rest);
      LineParses(lines[0], tail);
      ConsConcat(lines, Source(rest));
      ConsConcat(lines, Rendering(rest));
      blocks := [Line(lines[0])] + tail;
    }
  }

  lemma TableParses(header: string, dashes: string, lines: seq<string>, after: seq<string>)
      returns (blocks: seq<Block>)
    requires StartsPipe(header) && IsSeparator(dashes) && AllStartPipe(lines) && Prose(after)
    ensures WellParsed(blocks) && Source(blocks) == [header, dashes] + lines + after
    ensures Rendering(blocks) == RowsLines(Cells(header), lines) + after
  {
    var tail := ProseParses(after, []);
    if after != [] { ProseStartsNoPipe(after[0]); }
    assert Source(tail) == after && Rendering(tail) == after;
    blocks := [Table(header, dashes, lines)] + tail;
    assert blocks[1..] == tail;
  }

  /**
    A table in a text: a header row, a dash row and body rows, between lines without pipes, become
    exactly the bullets of the rows; everything else stays.
   */
  lemma TableConverts(before: seq<string>, header: string, headers: seq<string>, dashes: string,
                      lines: seq<string>, rows: seq<seq<string>>, after: seq<string>)
    requires Prose(before) && Prose(after) && IsRow(header, headers) && AreRows(lines, rows)
    requires exists lead, mid, trail :: DashRow(dashes, lead, mid, trail)
    requires NoneHolds(before + ([header, dashes] + lines + after), '\n')
    ensures Converted(Join("\n", before + ([header, dashes] + lines + after))) ==
            Join("\n", before + (Bulleted(headers, rows) + after))
  {
    SeparatorIff(dashes);
    CellsOfRow(header, headers);
    forall i | 0 <= i < |lines| ensures StartsPipe(lines[i]) { CellsOfRow(lines[i], rows[i]); }
    var table := TableParses(header, dashes, lines, after);
    RowsBulleted(header, headers, lines, rows);
    var blocks := ProseParses(before, table);
    assert Source(blocks) != [];
    DocumentConverts(blocks);
  }
}
