/**
 * The text table of cmd/docker.go: `generateSimpleTable` sizes each column
 * to its widest cell, pads every cell to that width plus two, draws a dash
 * rule under the headers and trims the result; `toTitle` turns `-` and `_`
 * into spaces.
 *
 * Widths count characters: cells are taken to be ASCII, where Go's byte
 * length and `fmt`'s rune padding agree.
 */
module Docker {
  import opened Wrappers
  import opened GoText
  import opened Seqs

  // -------------------------------------------------------------- padding

  /** `fmt`'s `%-*s`: `s` left-justified in a field of `w` characters. */
  function Pad(s: string, w: nat): (r: string)
    ensures |r| == if |s| < w then w else |s|
    ensures r[..|s|] == s
    ensures forall k :: |s| <= k < |r| ==> r[k] == ' '
  {
    if |s| < w then s + Repeat(' ', w - |s|) else s
  }

  // -------------------------------------------------------- column widths

  /** No row has more cells than there are headers (else `colWidths[i]` is out of range). */
  predicate Fits(headers: seq<string>, rows: seq<seq<string>>)
  {
    forall q :: 0 <= q < |rows| ==> |rows[q]| <= |headers|
  }

  /** The width of column `i`: the longest of its header and of its cells in `rows`. */
  function ColWidth(headers: seq<string>, rows: seq<seq<string>>, i: nat): (w: nat)
    requires i < |headers|
    ensures w >= |headers[i]|
    ensures forall q :: 0 <= q < |rows| && i < |rows[q]| ==> w >= |rows[q][i]|
  {
    if |rows| == 0 then |headers[i]|
    else
      var w := ColWidth(headers, rows[..|rows| - 1], i);
      var last := rows[|rows| - 1];
      if i < |last| && |last[i]| > w then |last[i]| else w
  }

  /** The width is that of the header or of some cell: no column is wider than it must be. */
  lemma {:induction false} ColWidthAttained(headers: seq<string>, rows: seq<seq<string>>, i: nat)
    requires i < |headers|
    ensures ColWidth(headers, rows, i) == |headers[i]|
      || exists q :: 0 <= q < |rows| && i < |rows[q]| && ColWidth(headers, rows, i) == |rows[q][i]|
  {
    if |rows| > 0 {
      var init := rows[..|rows| - 1];
      ColWidthAttained(headers, init, i);
      if ColWidth(headers, rows, i) != ColWidth(headers, init, i) {
        assert i < |rows[|rows| - 1]|;
      } else if ColWidth(headers, init, i) != |headers[i]| {
        var q :| 0 <= q < |init| && i < |init[q]| && ColWidth(headers, init, i) == |init[q][i]|;
        assert rows[q] == init[q];
      }
    }
  }

  /** All column widths. */
  function Widths(headers: seq<string>, rows: seq<seq<string>>): (ws: seq<nat>)
    ensures |ws| == |headers|
  {
    seq(|headers|, i requires 0 <= i < |headers| => ColWidth(headers, rows, i))
  }

  // --------------------------------------------------------------- output

  /** The padded cells of one line, written one after another. */
  function PaddedCells(cells: seq<string>, widths: seq<nat>): string
    requires |cells| <= |widths|
  {
    if |cells| == 0 then ""
    else PaddedCells(cells[..|cells| - 1], widths) + Pad(cells[|cells| - 1], widths[|cells| - 1] + 2)
  }

  /** The rule under the headers: each column's width plus two, in dashes. */
  function Dashes(widths: seq<nat>): string
  {
    if |widths| == 0 then ""
    else Dashes(widths[..|widths| - 1]) + Repeat('-', widths[|widths| - 1] + 2)
  }

  /** The row lines, one per row, in input order. */
  function RowLines(rows: seq<seq<string>>, widths: seq<nat>): (ls: seq<string>)
    requires forall q :: 0 <= q < |rows| ==> |rows[q]| <= |widths|
    ensures |ls| == |rows|
    ensures forall q :: 0 <= q < |rows| ==> ls[q] == PaddedCells(rows[q], widths)
  {
    if |rows| == 0 then []
    else RowLines(rows[..|rows| - 1], widths) + [PaddedCells(rows[|rows| - 1], widths)]
  }

  /** The builder's contents before trimming, for given column widths. */
  function Layout(headers: seq<string>, rows: seq<seq<string>>, ws: seq<nat>): string
    requires Fits(headers, rows) && |ws| == |headers|
  {
    PaddedCells(headers, ws) + "\n" + Dashes(ws) + "\n" + Terminated(RowLines(rows, ws), '\n')
  }

  /** The builder's contents before trimming. */
  function RawTable(headers: seq<string>, rows: seq<seq<string>>): string
    requires Fits(headers, rows)
  {
    Layout(headers, rows, Widths(headers, rows))
  }

  /** What `generateSimpleTable` returns when it does not panic. */
  function Table(headers: seq<string>, rows: seq<seq<string>>): string
    requires Fits(headers, rows)
  {
    TrimSpace(RawTable(headers, rows))
  }

  /**
   * The width pass of `generateSimpleTable` (cmd/docker.go:72-83): the
   * array starts at the header lengths and grows to each longer cell.
   * None is the index-out-of-range panic of a row longer than the headers.
   */
  method ColumnWidths(headers: seq<string>, rows: seq<seq<string>>) returns (widths: Option<seq<nat>>)
    ensures widths.None? <==> !Fits(headers, rows)
    ensures widths.Some? ==> widths.value == Widths(headers, rows)
  {
    var colWidths := new nat[|headers|];
    for i := 0 to |headers|
      invariant forall j :: 0 <= j < i ==> colWidths[j] == |headers[j]|
    {
      colWidths[i] := |headers[i]|;
    }
    assert forall j :: 0 <= j < |headers| ==> colWidths[j] == ColWidth(headers, rows[..0], j);
    for r := 0 to |rows|
      invariant forall j :: 0 <= j < |headers| ==> colWidths[j] == ColWidth(headers, rows[..r], j)
      invariant forall q :: 0 <= q < r ==> |rows[q]| <= |headers|
    {
      var fits := WidenRow(colWidths, headers, rows, r);
      if !fits {
        return None;
      }
    }
    assert rows[..|rows|] == rows;
    return Some(colWidths[..]);
  }

  /**
   * One pass of the width loop (cmd/docker.go:77-81): row `r` widens the
   * columns it is wider in. False is the panic of a cell past the last
   * header.
   */
  method WidenRow(colWidths: array<nat>, headers: seq<string>, rows: seq<seq<string>>, r: nat) returns (fits: bool)
    requires r < |rows| && colWidths.Length == |headers|
    requires forall j :: 0 <= j < |headers| ==> colWidths[j] == ColWidth(headers, rows[..r], j)
    modifies colWidths
    ensures fits <==> |rows[r]| <= |headers|
    ensures fits ==> forall j :: 0 <= j < |headers| ==> colWidths[j] == ColWidth(headers, rows[..r + 1], j)
  {
    var row := rows[r];
    assert rows[..r + 1][..r] == rows[..r];
    for i := 0 to |row|
      invariant i <= |headers|
      invariant forall j :: 0 <= j < |headers| ==>
        colWidths[j] == (if j < i then ColWidth(headers, rows[..r + 1], j) else ColWidth(headers, rows[..r], j))
    {
      if i >= |headers| {
        return false;
      }
      if |row[i]| > colWidths[i] {
        colWidths[i] := |row[i]|;
      }
    }
    return true;
  }

  /** One line of padded cells (cmd/docker.go:87-89 and 98-100). */
  method WriteCells(cells: seq<string>, widths: seq<nat>) returns (line: string)
    requires |cells| <= |widths|
    ensures line == PaddedCells(cells, widths)
  {
    line := "";
    for i := 0 to |cells|
      invariant line == PaddedCells(cells[..i], widths)
    {
      assert cells[..i + 1][..i] == cells[..i];
      line := line + Pad(cells[i], widths[i] + 2);
    }
    assert cells[..|cells|] == cells;
  }

  /** The dash rule (cmd/docker.go:92-95). */
  method WriteRule(widths: seq<nat>) returns (rule: string)
    ensures rule == Dashes(widths)
  {
    rule := "";
    for i := 0 to |widths|
      invariant rule == Dashes(widths[..i])
    {
      assert widths[..i + 1][..i] == widths[..i];
      rule := rule + Repeat('-', widths[i] + 2);
    }
    assert widths[..|widths|] == widths;
  }

  /** The writing pass of `generateSimpleTable` (cmd/docker.go:85-104), given the widths. */
  method WriteTable(headers: seq<string>, rows: seq<seq<string>>, widths: seq<nat>) returns (table: string)
    requires Fits(headers, rows) && |widths| == |headers|
    ensures table == TrimSpace(Layout(headers, rows, widths))
  {
    var header := WriteCells(headers, widths);
    var rule := WriteRule(widths);
    var body := "";
    for r := 0 to |rows|
      invariant body == Terminated(RowLines(rows[..r], widths), '\n')
    {
      assert rows[..r + 1][..r] == rows[..r];
      var line := WriteCells(rows[r], widths);
      ghost var done := RowLines(rows[..r + 1], widths);
      assert done == RowLines(rows[..r], widths) + [line];
      TerminatedSnoc(RowLines(rows[..r], widths), line, '\n');
      body := body + line + "\n";
    }
    assert rows[..|rows|] == rows;
    return TrimSpace(header + "\n" + rule + "\n" + body);
  }

  /**
   * `generateSimpleTable` (cmd/docker.go:71-105): the width pass, then the
   * writing pass. None is the panic of a row longer than the headers.
   */
  method GenerateSimpleTable(headers: seq<string>, rows: seq<seq<string>>) returns (table: Option<string>)
    ensures table.None? <==> !Fits(headers, rows)
    ensures table.Some? ==> table.value == Table(headers, rows)
  {
    var widths := ColumnWidths(headers, rows);
    if widths.None? {
      return None;
    }
    var text := WriteTable(headers, rows, widths.value);
    return Some(text);
  }

  // ----------------------------------------------------------- properties

  /** The sum of the column widths, each plus its two spaces. */
  function FieldSum(widths: seq<nat>): nat
  {
    if |widths| == 0 then 0 else FieldSum(widths[..|widths| - 1]) + widths[|widths| - 1] + 2
  }

  /**
   * Every cell is padded to exactly its column's width plus two, so a line
   * of `k` cells is as long as the first `k` fields.
   */
  lemma {:induction false} PaddedCellsLength(cells: seq<string>, widths: seq<nat>)
    requires |cells| <= |widths|
    requires forall i :: 0 <= i < |cells| ==> |cells[i]| <= widths[i]
    ensures |PaddedCells(cells, widths)| == FieldSum(widths[..|cells|])
  {
    if |cells| > 0 {
      var n := |cells| - 1;
      PaddedCellsLength(cells[..n], widths);
      assert widths[..|cells|][..n] == widths[..n];
    }
  }

  /** The rule is `Σ(width + 2)` dashes. */
  lemma {:induction false} DashesShape(widths: seq<nat>)
    ensures |Dashes(widths)| == FieldSum(widths)
    ensures forall k :: 0 <= k < |Dashes(widths)| ==> Dashes(widths)[k] == '-'
  {
    if |widths| > 0 {
      DashesShape(widths[..|widths| - 1]);
    }
  }

  /** The header line is exactly as long as the rule beneath it. */
  lemma HeaderMatchesRule(headers: seq<string>, rows: seq<seq<string>>)
    ensures |PaddedCells(headers, Widths(headers, rows))| == |Dashes(Widths(headers, rows))|
  {
    var ws := Widths(headers, rows);
    PaddedCellsLength(headers, ws);
    assert ws[..|headers|] == ws;
    DashesShape(ws);
  }

  /** A row with a cell for every column is as long as the rule. */
  lemma FullRowMatchesRule(headers: seq<string>, rows: seq<seq<string>>, q: nat)
    requires q < |rows| && |rows[q]| == |headers|
    ensures |PaddedCells(rows[q], Widths(headers, rows))| == |Dashes(Widths(headers, rows))|
  {
    var ws := Widths(headers, rows);
    PaddedCellsLength(rows[q], ws);
    assert ws[..|rows[q]|] == ws;
    DashesShape(ws);
  }

  /** No cell contains a newline. */
  predicate SingleLineCells(cells: seq<string>)
  {
    forall i :: 0 <= i < |cells| ==> '\n' !in cells[i]
  }

  /** Padding adds only spaces, so a line of single-line cells has no newline. */
  lemma {:induction false} PaddedCellsOneLine(cells: seq<string>, widths: seq<nat>)
    requires |cells| <= |widths| && SingleLineCells(cells)
    ensures '\n' !in PaddedCells(cells, widths)
  {
    if |cells| > 0 {
      PaddedCellsOneLine(cells[..|cells| - 1], widths);
      var c := cells[|cells| - 1];
      var p := Pad(c, widths[|cells| - 1] + 2);
      assert '\n' !in p by {
        assert forall k :: 0 <= k < |p| ==> (k < |c| ==> p[k] == c[k]) && (k >= |c| ==> p[k] == ' ');
      }
    }
  }

  /**
   * Before trimming, the table reads line by line as the header line, the
   * rule, then one line per row in input order, then the empty piece after
   * the last newline.
   */
  lemma TableLines(headers: seq<string>, rows: seq<seq<string>>)
    requires Fits(headers, rows) && SingleLineCells(headers)
    requires forall q :: 0 <= q < |rows| ==> SingleLineCells(rows[q])
    ensures var ws := Widths(headers, rows);
      Split(RawTable(headers, rows), '\n')
      == [PaddedCells(headers, ws), Dashes(ws)] + RowLines(rows, ws) + [""]
  {
    var ws := Widths(headers, rows);
    var h, d := PaddedCells(headers, ws), Dashes(ws);
    var lines := RowLines(rows, ws);
    var body := Terminated(lines, '\n');
    PaddedCellsOneLine(headers, ws);
    DashesOneLine(ws);
    forall q | 0 <= q < |lines|
      ensures '\n' !in lines[q]
    {
      PaddedCellsOneLine(rows[q], ws);
    }
    assert RawTable(headers, rows) == h + "\n" + d + "\n" + body;
    TwoLinesThen(h, d, lines);
  }

  /** Two single lines and a block of terminated lines read back as those lines. */
  lemma TwoLinesThen(h: string, d: string, lines: seq<string>)
    requires '\n' !in h && '\n' !in d
    requires forall i :: 0 <= i < |lines| ==> '\n' !in lines[i]
    ensures Split(h + "\n" + d + "\n" + Terminated(lines, '\n'), '\n') == [h, d] + lines + [""]
  {
    var body := Terminated(lines, '\n');
    calc {
      Split(h + "\n" + d + "\n" + body, '\n');
      { assert h + "\n" + d + "\n" + body == h + ['\n'] + (d + ['\n'] + body); }
      Split(h + ['\n'] + (d + ['\n'] + body), '\n');
      { SplitLead(h, d + ['\n'] + body, '\n'); }
      [h] + Split(d + ['\n'] + body, '\n');
      { SplitLead(d, body, '\n'); }
      [h] + ([d] + Split(body, '\n'));
      { SplitTerminated(lines, '\n'); }
      [h] + ([d] + (lines + [""]));
      [h, d] + lines + [""];
    }
  }

  /** Helper for TableLines: the rule is one line. */
  lemma DashesOneLine(widths: seq<nat>)
    ensures '\n' !in Dashes(widths)
  {
    DashesShape(widths);
    var d := Dashes(widths);
    assert forall k :: 0 <= k < |d| ==> d[k] != '\n';
  }

  // -------------------------------------------------------------- toTitle

  /**
   * The first half of `toTitle` (cmd/docker.go:107-112): every `-` and `_`
   * becomes a space, and nothing else changes.
   */
  function TitleSpacing(s: string): (r: string)
    ensures |r| == |s|
    ensures '-' !in r && '_' !in r
    ensures forall i :: 0 <= i < |s| && s[i] != '-' && s[i] != '_' ==> r[i] == s[i]
    ensures forall i :: 0 <= i < |s| && (s[i] == '-' || s[i] == '_') ==> r[i] == ' '
  {
    ReplaceChar(ReplaceChar(s, '-', ' '), '_', ' ')
  }
}
