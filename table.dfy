/**
 * The table printed after the schedule: one header line, one line of dashes
 * and one line per harvest record, every column padded to the widest of its
 * cells and its label, columns joined by " | ".
 */
module TableRender {

  import opened Decimal
  import opened HarvestSchedule

  datatype Column = Crop | PlantDate | Dtm | EstimatedHarvest

  /** The columns in the order they are printed. */
  const Columns: seq<Column> := [Crop, PlantDate, Dtm, EstimatedHarvest]

  /** The text of the four cells of one line. */
  datatype Cells = Cells(crop: string, plantDate: string, dtm: string, harvest: string)

  function Cell(cells: Cells, c: Column): string
  {
    match c
    case Crop => cells.crop
    case PlantDate => cells.plantDate
    case Dtm => cells.dtm
    case EstimatedHarvest => cells.harvest
  }

  const HeaderCells := Cells("Crop", "Plant Date", "DTM (Days)", "Estimated Harvest")

  function Label(c: Column): string { Cell(HeaderCells, c) }

  /** The cells of a record's line: the days to maturity as a decimal number, the other fields as they are. */
  function RecordCells(r: HarvestRecord): Cells
  {
    Cells(r.crop, r.plantDate, IntString(r.dtm), r.harvestDate)
  }

  function Text(r: HarvestRecord, c: Column): string { Cell(RecordCells(r), c) }

  /** Only the numeric column is right-aligned. */
  predicate RightAligned(c: Column) { c == Dtm }

  function Max(a: int, b: int): int { if a < b then b else a }

  /** `ch * n` */
  function Repeat(ch: char, n: nat): (s: string)
  {
    seq(n, _ => ch)
  }

  /**
   * A cell padded with spaces to width `w` (a format spec `<w` or `>w`): text
   * longer than `w` is kept whole, never truncated.
   */
  function Pad(c: Column, s: string, w: nat): (r: string)
    ensures |r| == Max(|s|, w)
  {
    var fill := Repeat(' ', if |s| < w then w - |s| else 0);
    if RightAligned(c) then fill + s else s + fill
  }

  /**
   * A left-aligned cell is its text followed by spaces; a right-aligned cell
   * is spaces followed by its text.
   */
  lemma PadShape(c: Column, s: string, w: nat)
    ensures var r := Pad(c, s, w);
      if RightAligned(c) then r[|r| - |s|..] == s && forall i :: 0 <= i < |r| - |s| ==> r[i] == ' '
      else r[..|s|] == s && forall i :: |s| <= i < |r| ==> r[i] == ' '
  {
  }

  const Separator := " | "

  /** A width for every column. */
  predicate Complete(widths: map<Column, nat>)
  {
    forall c: Column :: c in widths
  }

  lemma CompleteWhenListed(m: map<Column, nat>)
    requires Crop in m && PlantDate in m && Dtm in m && EstimatedHarvest in m
    ensures Complete(m)
  {
    forall c: Column ensures c in m {
      match c
      case Crop =>
      case PlantDate =>
      case Dtm =>
      case EstimatedHarvest =>
    }
  }

  lemma SameWidths(m1: map<Column, nat>, m2: map<Column, nat>)
    requires Complete(m1) && Complete(m2)
    requires m1[Crop] == m2[Crop] && m1[PlantDate] == m2[PlantDate]
    requires m1[Dtm] == m2[Dtm] && m1[EstimatedHarvest] == m2[EstimatedHarvest]
    ensures m1 == m2
  {
    forall c: Column ensures m1[c] == m2[c] {
      match c
      case Crop =>
      case PlantDate =>
      case Dtm =>
      case EstimatedHarvest =>
    }
    assert m1.Keys == m2.Keys;
  }

  /**
   * Parts joined with the separator between consecutive parts (the f-string's
   * literal `" | "`, three characters each time).
   */
  function Join(parts: seq<string>): (line: string)
    requires parts != []
    ensures |line| == SumLengths(parts) + 3 * (|parts| - 1)
  {
    var last := |parts| - 1;
    if last == 0 then parts[0] else Join(parts[..last]) + Separator + parts[last]
  }

  function SumLengths(parts: seq<string>): nat
  {
    if parts == [] then 0 else SumLengths(parts[..|parts| - 1]) + |parts[|parts| - 1]|
  }

  lemma SumLengthsStep(parts: seq<string>, k: nat)
    requires k < |parts|
    ensures SumLengths(parts[..k + 1]) == SumLengths(parts[..k]) + |parts[k]|
  {
    assert parts[..k + 1][..k] == parts[..k];
  }

  lemma {:induction false} SumLengthsPrefix(parts: seq<string>, k: nat)
    requires k <= |parts|
    ensures SumLengths(parts[..k]) <= SumLengths(parts)
    decreases |parts| - k
  {
    if k < |parts| {
      SumLengthsStep(parts, k);
      SumLengthsPrefix(parts, k + 1);
    } else {
      assert parts[..k] == parts;
    }
  }

  /** Where part `k` starts in the joined line; the part, and the separator after it, lie within the line. */
  function Start(parts: seq<string>, k: nat): (n: nat)
    requires k < |parts|
    ensures n + |parts[k]| <= |Join(parts)|
    ensures k + 1 < |parts| ==> n + |parts[k]| + |Separator| <= |Join(parts)|
  {
    SumLengthsStep(parts, k);
    SumLengthsPrefix(parts, k + 1);
    SumLengths(parts[..k]) + 3 * k
  }

  /** Part `k` of a joined line stands at its start. */
  lemma {:induction false} JoinPart(parts: seq<string>, k: nat)
    requires k < |parts|
    ensures Join(parts)[Start(parts, k)..Start(parts, k) + |parts[k]|] == parts[k]
  {
    var last := |parts| - 1;
    if last > 0 {
      var init := parts[..last];
      var front := Join(init) + Separator;
      assert Join(parts) == front + parts[last];
      if k == last {
        assert Start(parts, k) == |front|;
      } else {
        assert init[..k] == parts[..k];
        assert Start(parts, k) == Start(init, k);
        JoinPart(init, k);
        assert Join(parts)[Start(parts, k)..Start(parts, k) + |parts[k]|]
            == Join(init)[Start(parts, k)..Start(parts, k) + |parts[k]|];
      }
    }
  }

  /** Between parts `k` and `k + 1` of a joined line stands the separator. */
  lemma {:induction false} JoinSeparator(parts: seq<string>, k: nat)
    requires k + 1 < |parts|
    ensures Join(parts)[Start(parts, k) + |parts[k]|..Start(parts, k) + |parts[k]| + |Separator|] == Separator
  {
    var last := |parts| - 1;
    var init := parts[..last];
    var front := Join(init) + Separator;
    assert Join(parts) == front + parts[last];
    assert init[..k] == parts[..k];
    assert Start(parts, k) == Start(init, k);
    if k + 1 == last {
      SumLengthsStep(parts, k);
      assert init[..k + 1] == init;
      assert Start(parts, k) + |parts[k]| == |Join(init)|;
    } else {
      JoinSeparator(init, k);
      assert Join(parts)[Start(parts, k) + |parts[k]|..Start(parts, k) + |parts[k]| + |Separator|]
          == Join(init)[Start(parts, k) + |parts[k]|..Start(parts, k) + |parts[k]| + |Separator|];
    }
  }

  /** The four cells of a line, each padded to its column's width. */
  function PaddedCells(cells: Cells, widths: map<Column, nat>): (parts: seq<string>)
    requires Complete(widths)
    ensures |parts| == |Columns|
    ensures forall k :: 0 <= k < |Columns| ==> parts[k] == Pad(Columns[k], Cell(cells, Columns[k]), widths[Columns[k]])
  {
    [Pad(Crop, cells.crop, widths[Crop]), Pad(PlantDate, cells.plantDate, widths[PlantDate]),
     Pad(Dtm, cells.dtm, widths[Dtm]), Pad(EstimatedHarvest, cells.harvest, widths[EstimatedHarvest])]
  }

  /**
   * One line of the table: the four padded cells joined by the separator. Each
   * column takes its width, or its cell's length when the cell is longer (a
   * cell is never cut), and the three separators add three characters each.
   */
  function FormatLine(cells: Cells, widths: map<Column, nat>): (line: string)
    requires Complete(widths)
    ensures |line| == Max(|cells.crop|, widths[Crop]) + Max(|cells.plantDate|, widths[PlantDate])
                      + Max(|cells.dtm|, widths[Dtm]) + Max(|cells.harvest|, widths[EstimatedHarvest]) + 3 * |Separator|
  {
    PaddedLength(cells, widths);
    Join(PaddedCells(cells, widths))
  }

  lemma PaddedLength(cells: Cells, widths: map<Column, nat>)
    requires Complete(widths)
    ensures SumLengths(PaddedCells(cells, widths))
         == Max(|cells.crop|, widths[Crop]) + Max(|cells.plantDate|, widths[PlantDate])
            + Max(|cells.dtm|, widths[Dtm]) + Max(|cells.harvest|, widths[EstimatedHarvest])
  {
    var parts := PaddedCells(cells, widths);
    assert parts[..0] == [];
    SumLengthsStep(parts, 0);
    SumLengthsStep(parts, 1);
    SumLengthsStep(parts, 2);
    SumLengthsStep(parts, 3);
    assert parts[..4] == parts;
  }

  /** The length of every line whose cells fit: the four widths and three separators. */
  function TotalWidth(widths: map<Column, nat>): nat
    requires Complete(widths)
  {
    widths[Crop] + widths[PlantDate] + widths[Dtm] + widths[EstimatedHarvest] + 3 * |Separator|
  }

  /** Where the column at position `k` starts on a line whose cells fit. */
  function Offset(widths: map<Column, nat>, k: nat): nat
    requires Complete(widths) && k < |Columns|
  {
    if k == 0 then 0 else Offset(widths, k - 1) + widths[Columns[k - 1]] + |Separator|
  }

  /** Every cell is at most as long as its column is wide. */
  predicate Fits(cells: Cells, widths: map<Column, nat>)
    requires Complete(widths)
  {
    forall c :: |Cell(cells, c)| <= widths[c]
  }

  /** When the cells fit, every line is equally long: the four widths plus three separators. */
  lemma LineLength(cells: Cells, widths: map<Column, nat>)
    requires Complete(widths) && Fits(cells, widths)
    ensures |FormatLine(cells, widths)| == TotalWidth(widths)
  {
    assert |Cell(cells, Crop)| <= widths[Crop];
    assert |Cell(cells, PlantDate)| <= widths[PlantDate];
    assert |Cell(cells, Dtm)| <= widths[Dtm];
    assert |Cell(cells, EstimatedHarvest)| <= widths[EstimatedHarvest];
  }

  /** On a line whose cells fit, the column at position `k` holds its padded cell, starting at the column's offset. */
  lemma LineCell(cells: Cells, widths: map<Column, nat>, k: nat)
    requires Complete(widths) && Fits(cells, widths) && k < |Columns|
    ensures var line, c, o := FormatLine(cells, widths), Columns[k], Offset(widths, k);
      o + widths[c] <= |line| && line[o..o + widths[c]] == Pad(c, Cell(cells, c), widths[c])
  {
    var parts := PaddedCells(cells, widths);
    assert |Cell(cells, Columns[k])| <= widths[Columns[k]];
    assert parts[k] == Pad(Columns[k], Cell(cells, Columns[k]), widths[Columns[k]]);
    StartIsOffset(cells, widths, k);
    JoinPart(parts, k);
  }

  /** On a line whose cells fit, every column but the last is followed by the separator. */
  lemma LineSeparator(cells: Cells, widths: map<Column, nat>, k: nat)
    requires Complete(widths) && Fits(cells, widths) && k + 1 < |Columns|
    ensures var line, e := FormatLine(cells, widths), Offset(widths, k) + widths[Columns[k]];
      e + |Separator| <= |line| && line[e..e + |Separator|] == Separator
  {
    var parts := PaddedCells(cells, widths);
    assert |Cell(cells, Columns[k])| <= widths[Columns[k]];
    assert |parts[k]| == widths[Columns[k]];
    StartIsOffset(cells, widths, k);
    SeparatorAfter(parts, FormatLine(cells, widths), k, Offset(widths, k) + widths[Columns[k]]);
  }

  lemma SeparatorAfter(parts: seq<string>, line: string, k: nat, e: nat)
    requires k + 1 < |parts| && line == Join(parts) && e == Start(parts, k) + |parts[k]|
    ensures e + |Separator| <= |line| && line[e..e + |Separator|] == Separator
  {
    JoinSeparator(parts, k);
  }

  lemma {:induction false} StartIsOffset(cells: Cells, widths: map<Column, nat>, k: nat)
    requires Complete(widths) && Fits(cells, widths) && k < |Columns|
    ensures Start(PaddedCells(cells, widths), k) == Offset(widths, k)
  {
    var parts := PaddedCells(cells, widths);
    if k > 0 {
      StartIsOffset(cells, widths, k - 1);
      SumLengthsStep(parts, k - 1);
      assert |Cell(cells, Columns[k - 1])| <= widths[Columns[k - 1]];
    }
  }

  /**
   * On a record's line the days to maturity are right-aligned: the column
   * holds spaces, then the number in decimal.
   */
  lemma DtmColumn(r: HarvestRecord, widths: map<Column, nat>)
    requires Complete(widths) && Fits(RecordCells(r), widths)
    ensures var line, o, w, s := FormatLine(RecordCells(r), widths), Offset(widths, 2), widths[Dtm], IntString(r.dtm);
      |s| <= w && o + w <= |line|
      && line[o + w - |s|..o + w] == s
      && forall i :: o <= i < o + w - |s| ==> line[i] == ' '
  {
    assert |Cell(RecordCells(r), Dtm)| <= widths[Dtm];
    LineCell(RecordCells(r), widths, 2);
    RightAlignedAt(FormatLine(RecordCells(r), widths), Offset(widths, 2), widths[Dtm], IntString(r.dtm));
  }

  /** A right-aligned cell of width `w` at offset `o` of a line: spaces, then the text ending at the right edge. */
  lemma RightAlignedAt(line: string, o: nat, w: nat, s: string)
    requires |s| <= w && o + w <= |line| && line[o..o + w] == Pad(Dtm, s, w)
    ensures line[o + w - |s|..o + w] == s
    ensures forall i :: o <= i < o + w - |s| ==> line[i] == ' '
  {
    var cell := line[o..o + w];
    PadShape(Dtm, s, w);
    assert line[o + w - |s|..o + w] == cell[w - |s|..];
    forall i | o <= i < o + w - |s| ensures line[i] == ' ' {
      assert line[i] == cell[i - o];
    }
  }

  /** The largest of a non-empty list of lengths (Python's `max`). */
  function MaxOf(xs: seq<nat>): (m: nat)
    requires xs != []
    ensures forall j :: 0 <= j < |xs| ==> xs[j] <= m
    ensures exists j :: 0 <= j < |xs| && m == xs[j]
  {
    var last := |xs| - 1;
    if last == 0 then xs[0]
    else
      var m := MaxOf(xs[..last]);
      assert forall j :: 0 <= j < last ==> xs[..last][j] == xs[j];
      Max(m, xs[last])
  }

  /** The lengths of the texts of column `c`, one per record. */
  function CellLengths(rows: seq<HarvestRecord>, c: Column): (ls: seq<nat>)
    ensures |ls| == |rows| && forall j :: 0 <= j < |rows| ==> ls[j] == |Text(rows[j], c)|
  {
    seq(|rows|, j requires 0 <= j < |rows| => |Text(rows[j], c)|)
  }

  /** The longest text in column `c` over a non-empty list of records. */
  function MaxCellLength(rows: seq<HarvestRecord>, c: Column): nat
    requires rows != []
  {
    MaxOf(CellLengths(rows, c))
  }

  /**
   * The width of column `c`: the least width that holds the label and every
   * cell of the column, so equal to the label's length or to some cell's.
   */
  function ColumnWidth(rows: seq<HarvestRecord>, c: Column): (w: nat)
    requires rows != []
    ensures |Label(c)| <= w
    ensures forall j :: 0 <= j < |rows| ==> |Text(rows[j], c)| <= w
    ensures w == |Label(c)| || exists j :: 0 <= j < |rows| && w == |Text(rows[j], c)|
  {
    var ls := CellLengths(rows, c);
    var m := MaxOf(ls);
    Max(m, |Label(c)|)
  }

  const AllColumns: set<Column> := {Crop, PlantDate, Dtm, EstimatedHarvest}

  lemma EveryColumn()
    ensures forall c: Column :: c in AllColumns
  {
    forall c: Column ensures c in AllColumns {
      match c
      case Crop =>
      case PlantDate =>
      case Dtm =>
      case EstimatedHarvest =>
    }
  }

  /** The widths of all four columns. */
  function Widths(rows: seq<HarvestRecord>): (widths: map<Column, nat>)
    requires rows != []
    ensures Complete(widths)
    ensures forall c :: widths[c] == ColumnWidth(rows, c)
  {
    EveryColumn();
    map c | c in AllColumns :: ColumnWidth(rows, c)
  }

  /**
   * The widths as the program computes them: first the longest cell of each
   * column, then each entry raised, key by key, to its label's length.
   */
  method ColumnWidths(rows: seq<HarvestRecord>) returns (widths: map<Column, nat>)
    requires rows != []
    ensures widths == Widths(rows)
  {
    var longest: map<Column, nat> := map[];
    longest := longest[Crop := MaxCellLength(rows, Crop)];
    longest := longest[PlantDate := MaxCellLength(rows, PlantDate)];
    longest := longest[Dtm := MaxCellLength(rows, Dtm)];
    longest := longest[EstimatedHarvest := MaxCellLength(rows, EstimatedHarvest)];
    CompleteWhenListed(longest);
    widths := longest;
    for k := 0 to |Columns|
      invariant Complete(widths)
      invariant widths[Crop] == if k > 0 then Max(longest[Crop], |Label(Crop)|) else longest[Crop]
      invariant widths[PlantDate] == if k > 1 then Max(longest[PlantDate], |Label(PlantDate)|) else longest[PlantDate]
      invariant widths[Dtm] == if k > 2 then Max(longest[Dtm], |Label(Dtm)|) else longest[Dtm]
      invariant widths[EstimatedHarvest] == if k > 3 then Max(longest[EstimatedHarvest], |Label(EstimatedHarvest)|) else longest[EstimatedHarvest]
    {
      var key := Columns[k];
      widths := widths[key := Max(widths[key], |Label(key)|)];
    }
    RaisedWidths(rows, longest, widths);
  }

  /** Raising each column's longest cell to its label's length gives the column widths. */
  lemma RaisedWidths(rows: seq<HarvestRecord>, longest: map<Column, nat>, widths: map<Column, nat>)
    requires rows != [] && Complete(longest) && Complete(widths)
    requires longest[Crop] == MaxCellLength(rows, Crop) && longest[PlantDate] == MaxCellLength(rows, PlantDate)
    requires longest[Dtm] == MaxCellLength(rows, Dtm) && longest[EstimatedHarvest] == MaxCellLength(rows, EstimatedHarvest)
    requires widths[Crop] == Max(longest[Crop], |Label(Crop)|) && widths[PlantDate] == Max(longest[PlantDate], |Label(PlantDate)|)
    requires widths[Dtm] == Max(longest[Dtm], |Label(Dtm)|)
    requires widths[EstimatedHarvest] == Max(longest[EstimatedHarvest], |Label(EstimatedHarvest)|)
    ensures widths == Widths(rows)
  {
    var w := Widths(rows);
    assert w[Crop] == ColumnWidth(rows, Crop) && w[PlantDate] == ColumnWidth(rows, PlantDate);
    assert w[Dtm] == ColumnWidth(rows, Dtm) && w[EstimatedHarvest] == ColumnWidth(rows, EstimatedHarvest);
    SameWidths(widths, w);
  }

  /** Every record's cells, and the labels, fit the computed widths. */
  lemma CellsFit(rows: seq<HarvestRecord>)
    requires rows != []
    ensures Fits(HeaderCells, Widths(rows))
    ensures forall j :: 0 <= j < |rows| ==> Fits(RecordCells(rows[j]), Widths(rows))
  {
    var w := Widths(rows);
    forall c | true ensures |Cell(HeaderCells, c)| <= w[c] {
      assert w[c] == ColumnWidth(rows, c);
    }
    forall j, c | 0 <= j < |rows| ensures |Cell(RecordCells(rows[j]), c)| <= w[c] {
      assert w[c] == ColumnWidth(rows, c);
      assert Cell(RecordCells(rows[j]), c) == Text(rows[j], c);
    }
  }

  /** One line per record, in record order (the loop over the schedule). */
  method FormatRows(rows: seq<HarvestRecord>, widths: map<Column, nat>) returns (lines: seq<string>)
    requires Complete(widths)
    ensures lines == RowLines(rows, widths)
  {
    lines := [];
    for j := 0 to |rows|
      invariant lines == RowLines(rows, widths)[..j]
    {
      RowLinesStep(rows, widths, j);
      lines := lines + [FormatLine(RecordCells(rows[j]), widths)];
    }
    RowLinesAll(rows, widths);
  }

  lemma RowLinesStep(rows: seq<HarvestRecord>, widths: map<Column, nat>, j: nat)
    requires Complete(widths) && j < |rows|
    ensures RowLines(rows, widths)[..j + 1] == RowLines(rows, widths)[..j] + [FormatLine(RecordCells(rows[j]), widths)]
  {
    TakeOneMore(RowLines(rows, widths), j);
  }

  lemma TakeOneMore(s: seq<string>, j: nat)
    requires j < |s|
    ensures s[..j + 1] == s[..j] + [s[j]]
  {
  }

  lemma RowLinesAll(rows: seq<HarvestRecord>, widths: map<Column, nat>)
    requires Complete(widths)
    ensures RowLines(rows, widths)[..|rows|] == RowLines(rows, widths)
  {
  }

  /** The lines of every record, in record order. */
  function RowLines(rows: seq<HarvestRecord>, widths: map<Column, nat>): (lines: seq<string>)
    requires Complete(widths)
    ensures |lines| == |rows|
    ensures forall j :: 0 <= j < |rows| ==> lines[j] == FormatLine(RecordCells(rows[j]), widths)
  {
    seq(|rows|, j requires 0 <= j < |rows| => FormatLine(RecordCells(rows[j]), widths))
  }

  /** The header, a line of dashes exactly as long as the header, then the records' lines. */
  function Layout(rows: seq<HarvestRecord>, widths: map<Column, nat>): seq<string>
    requires Complete(widths)
  {
    var header := FormatLine(HeaderCells, widths);
    [header, Repeat('-', |header|)] + RowLines(rows, widths)
  }

  /** The printed table: nothing for an empty schedule, otherwise the layout with the computed widths. */
  function Table(schedule: seq<HarvestRecord>): (lines: seq<string>)
    ensures |lines| == if schedule == [] then 0 else |schedule| + 2
  {
    if schedule == [] then [] else Layout(schedule, Widths(schedule))
  }

  /** A layout starts with the header and dashes exactly as long as the header. */
  lemma LayoutHeader(rows: seq<HarvestRecord>, widths: map<Column, nat>)
    requires Complete(widths)
    ensures var lines := Layout(rows, widths);
      |lines| == |rows| + 2 && lines[0] == FormatLine(HeaderCells, widths) && lines[1] == Repeat('-', |lines[0]|)
  {
  }

  /** After the header and the dashes, a layout has a line per record, in record order. */
  lemma LayoutRows(rows: seq<HarvestRecord>, widths: map<Column, nat>)
    requires Complete(widths)
    ensures var lines := Layout(rows, widths);
      |lines| == |rows| + 2 && forall j :: 0 <= j < |rows| ==> lines[j + 2] == FormatLine(RecordCells(rows[j]), widths)
  {
  }

  /** When every record's cells fit, every record's line is as long as the total width. */
  lemma RowLinesWidth(rows: seq<HarvestRecord>, widths: map<Column, nat>)
    requires Complete(widths)
    requires forall j :: 0 <= j < |rows| ==> Fits(RecordCells(rows[j]), widths)
    ensures forall line :: line in RowLines(rows, widths) ==> |line| == TotalWidth(widths)
  {
    forall j | 0 <= j < |rows| {
      LineLength(RecordCells(rows[j]), widths);
    }
  }

  /** When every cell fits, all lines of a layout are equally long. */
  lemma LayoutWidth(rows: seq<HarvestRecord>, widths: map<Column, nat>)
    requires Complete(widths) && Fits(HeaderCells, widths)
    requires forall j :: 0 <= j < |rows| ==> Fits(RecordCells(rows[j]), widths)
    ensures forall line :: line in Layout(rows, widths) ==> |line| == TotalWidth(widths)
  {
    LineLength(HeaderCells, widths);
    RowLinesWidth(rows, widths);
  }

  /**
   * The table of a non-empty schedule: the header, dashes as long as the
   * header, one line per record in schedule order, all lines equally long.
   */
  lemma TableShape(schedule: seq<HarvestRecord>)
    requires schedule != []
    ensures var lines, w := Table(schedule), Widths(schedule);
      |lines| == |schedule| + 2
      && lines[0] == FormatLine(HeaderCells, w)
      && lines[1] == Repeat('-', |lines[0]|)
      && (forall j :: 0 <= j < |schedule| ==> lines[j + 2] == FormatLine(RecordCells(schedule[j]), w))
      && (forall line :: line in lines ==> |line| == TotalWidth(w))
  {
    CellsFit(schedule);
    LayoutHeader(schedule, Widths(schedule));
    LayoutRows(schedule, Widths(schedule));
    LayoutWidth(schedule, Widths(schedule));
  }

  /** The lines printed for a non-empty schedule with the given widths. */
  method PrintedLines(rows: seq<HarvestRecord>, widths: map<Column, nat>) returns (lines: seq<string>)
    requires Complete(widths)
    ensures lines == Layout(rows, widths)
  {
    var header := FormatLine(HeaderCells, widths);
    var body := FormatRows(rows, widths);
    lines := [header, Repeat('-', |header|)] + body;
  }

  /** The table as the program prints it: the widths first, then the lines. */
  method RenderTable(schedule: seq<HarvestRecord>) returns (lines: seq<string>)
    ensures lines == Table(schedule)
    ensures lines == [] <==> schedule == []
  {
    if schedule == [] {
      return [];
    }
    var widths := ColumnWidths(schedule);
    lines := PrintedLines(schedule, widths);
  }
}
