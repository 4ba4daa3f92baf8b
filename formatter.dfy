/**
 * The Telegram table formatter: reads the markdown tables out of a memory
 * text and renders them as framed, icon-headed blocks of text.
 *
 * A table is a run of lines that start with `|`. Its first line gives the
 * headers, the line just before it the title, and each later line that is
 * not a `|---|` separator and has as many cells as the headers a row.
 * Tables without rows are dropped.
 */
module Formatter {
  import opened Wrappers
  import opened Strings
  import opened Schema

  /** A parsed markdown table. */
  datatype Table = Table(title: string, headers: seq<string>, rows: seq<seq<string>>)

  /** The icon shown before a table's title, per category. */
  const TABLE_ICONS: map<string, string> := map[
    BOSS_PROFILE := "\U{1F464}",
    PERSONALITY_TRAITS := "\U{1F9E0}",
    GOALS_ASPIRATIONS := "\U{1F3AF}",
    HABITS_ROUTINES := "\U{23F0}",
    SKILLS_EXPERTISE := "\U{26A1}",
    FRIENDS_CONTACTS := "\U{1F465}",
    FAMILY_MEMBERS := "\U{1F468}\U{200D}\U{1F469}\U{200D}\U{1F467}\U{200D}\U{1F466}",
    BUSINESS_ASSOCIATES := "\U{1F4BC}",
    ACTIVE_PROJECTS := "\U{1F4C1}",
    BUSINESS_IDEAS_VENTURES := "\U{1F4A1}",
    FOOD_DRINK_PREFERENCES := "\U{1F37D}\U{FE0F}",
    TECHNOLOGY_TOOLS := "\U{1F6E0}\U{FE0F}",
    ENTERTAINMENT_PREFERENCES := "\U{1F3AC}",
    WORK_STYLE_ENVIRONMENT := "\U{1F3E2}",
    COMMUNICATION_STYLE := "\U{1F4AC}",
    TRAVEL_PLACES := "\U{1F30D}",
    KEY_DATES_MILESTONES := "\U{1F4C5}",
    DECISIONS_COMMITMENTS := "\U{2705}",
    PENDING_ACTION_ITEMS := "\U{1F4CB}",
    NOTES_MISCELLANEOUS := "\U{1F4DD}"
  ]

  /** The icon for any other title. */
  const DEFAULT_ICON := "\U{1F4CA}"

  /** The title of a table without a heading line. */
  const DEFAULT_TITLE := "Table"

  /** Width of the frame between its corners. */
  const FRAME_WIDTH := 45

  /** Width a row's text is padded to inside the frame. */
  const ROW_WIDTH := 43

  /** Cells a wide row shows, and the length each is cut to. */
  const WIDE_CELLS := 3
  const CELL_WIDTH := 12

  /** A wide table has at least this many headers; a two-column one at least two. */
  const WIDE_HEADERS := 4
  const PAIR_HEADERS := 2

  const TOP := "\U{250C}" + Repeat('\U{2500}', FRAME_WIDTH) + "\U{2510}"
  const BOTTOM := "\U{2514}" + Repeat('\U{2500}', FRAME_WIDTH) + "\U{2518}"
  const SIDE := "\U{2502}"
  const BULLET := "\U{25AB}\U{FE0F} "
  const CELL_SEPARATOR := "  \U{2022}  "
  const ELLIPSIS := ".."

  /** What `row[0]` renders as in a template string when the row is empty. */
  const UNDEFINED := "undefined"

  const NO_DATA_FOUND := "\U{1F4CA} No memory data found."
  const NO_DATA_TO_DISPLAY := "\U{1F4CA} No memory data to display."
  const MORE_HINT := "Use /memory view [section] to see specific sections."

  // ---------------------------------------------------------------------
  // Recognising lines
  // ---------------------------------------------------------------------

  /** No line terminator occurs in `s`: the regular-expression wildcard `.` matches each character. */
  predicate NoBreak(s: string) {
    forall k | 0 <= k < |s| :: !IsLineTerminator(s[k])
  }

  /** The end of the run of wildcard characters that starts at `q`. */
  function RunEnd(s: string, q: nat): (e: nat)
    requires q <= |s|
    ensures q <= e <= |s| && NoBreak(s[q..e])
    ensures e == |s| || IsLineTerminator(s[e])
    decreases |s| - q
  {
    if q == |s| || IsLineTerminator(s[q]) then q else RunEnd(s, q + 1)
  }

  /**
   * `/^\|.+?\|/`: a `|`, at least one wildcard character, then another `|`;
   * that is, a second `|` after the first character and before any line terminator.
   */
  predicate IsTableLine(line: string) {
    |line| >= 3 && line[0] == '|' && 2 < RunEnd(line, 1) && '|' in line[2..RunEnd(line, 1)]
  }

  /** `/^\|[-|\s]+\|$/`: a `|`, at least one dash, bar or blank, and a final `|`. */
  predicate IsSeparator(line: string) {
    && |line| >= 3 && line[0] == '|' && line[|line| - 1] == '|'
    && forall k | 1 <= k < |line| - 1 :: line[k] == '-' || line[k] == '|' || IsSpace(line[k])
  }

  /** `/^\[.*?\]$/`: the whole cell is a bracketed placeholder such as `[Field]`. */
  predicate IsBracketed(cell: string) {
    |cell| >= 2 && cell[0] == '[' && cell[|cell| - 1] == ']' && NoBreak(cell[1..|cell| - 1])
  }

  /** The end of the run of blanks that starts at `p`: where a greedy `\s*` first stops. */
  function SpaceEnd(s: string, p: nat): (e: nat)
    requires p <= |s|
    ensures p <= e <= |s|
    ensures forall k | p <= k < e :: IsSpace(s[k])
    ensures e == |s| || !IsSpace(s[e])
    decreases |s| - p
  {
    if p == |s| || !IsSpace(s[p]) then p else SpaceEnd(s, p + 1)
  }

  /**
   * `\s*(.+)` from `p` when `\s*` has taken the blanks up to `q`: `.+` needs
   * one wildcard character at `q`; failing that, `\s*` gives one character
   * back and `.+` tries again. The capture is what `.+` takes.
   */
  function CaptureFrom(s: string, p: nat, q: nat): Option<string>
    requires p <= q <= |s|
    decreases q - p
  {
    if q < |s| && !IsLineTerminator(s[q]) then Some(s[q..RunEnd(s, q)])
    else if q == p then None
    else CaptureFrom(s, p, q - 1)
  }

  /** `line.match(/^##?\s*(.+)/)`: `##?` takes a second `#` when it can and gives it back when the rest fails. */
  function HeadingCapture(line: string): Option<string> {
    if |line| == 0 || line[0] != '#' then None
    else if |line| >= 2 && line[1] == '#' && CaptureFrom(line, 2, SpaceEnd(line, 2)).Some? then
      CaptureFrom(line, 2, SpaceEnd(line, 2))
    else CaptureFrom(line, 1, SpaceEnd(line, 1))
  }

  /** A table's title from the line before its header line: the trimmed heading text, or "Table". */
  function TitleOf(prev: string): string {
    match HeadingCapture(prev)
    case Some(text) => Trim(text)
    case None => DEFAULT_TITLE
  }

  /** `parseTableRow(line)`: the trimmed pieces between the first and the last `|`. */
  function ParseTableRow(line: string): (cells: seq<string>)
    ensures |cells| == if Count(line, '|') >= 1 then Count(line, '|') - 1 else 0
    ensures forall k | 0 <= k < |cells| :: '|' !in cells[k]
    ensures forall k | 0 <= k < |cells| :: cells[k] == [] || (!IsSpace(cells[k][0]) && !IsSpace(cells[k][|cells[k]| - 1]))
  {
    var pieces := Split(line, '|');
    var trimmed := seq(|pieces|, k requires 0 <= k < |pieces| => Trim(pieces[k]));
    forall k | 0 <= k < |pieces|
      ensures '|' !in trimmed[k]
    {
      TrimKeepsOut(pieces[k], '|');
    }
    if |trimmed| <= 2 then [] else trimmed[1..|trimmed| - 1]
  }

  // ---------------------------------------------------------------------
  // The tables of a text, blockwise
  // ---------------------------------------------------------------------

  /**
   * What the parser sees in one line: the title it would give a table
   * starting below it, whether it (trimmed) is a table line or a separator,
   * and its cells.
   */
  datatype Line = Line(heading: string, isTable: bool, isSeparator: bool, cells: seq<string>)

  /** Reads one line of the memory text. */
  function Classify(raw: string): Line {
    var line := Trim(raw);
    Line(TitleOf(raw), IsTableLine(line), IsSeparator(line), ParseTableRow(line))
  }

  /** The lines of a memory text, each read. */
  function Classified(memory: string): (ls: seq<Line>)
    ensures |ls| == |Split(memory, '\n')|
  {
    var lines := Split(memory, '\n');
    seq(|lines|, k requires 0 <= k < |lines| => Classify(lines[k]))
  }

  /** The end of the run of table lines that starts at `h`. */
  function BlockEnd(ls: seq<Line>, h: nat): (e: nat)
    requires h <= |ls|
    ensures h <= e <= |ls|
    ensures forall k | h <= k < e :: ls[k].isTable
    ensures e == |ls| || !ls[e].isTable
    decreases |ls| - h
  {
    if h == |ls| || !ls[h].isTable then h else BlockEnd(ls, h + 1)
  }

  /** A data line becomes a row when it is not a separator and is as wide as the headers. */
  predicate KeepsRow(l: Line, width: nat) {
    !l.isSeparator && |l.cells| == width
  }

  /** The rows that the lines `lo` up to `hi` give a table of `width` headers. */
  function BlockRows(ls: seq<Line>, lo: nat, hi: nat, width: nat): seq<seq<string>>
    requires lo <= hi <= |ls|
    decreases hi
  {
    if hi == lo then []
    else BlockRows(ls, lo, hi - 1, width) + (if KeepsRow(ls[hi - 1], width) then [ls[hi - 1].cells] else [])
  }

  /** The title of the table whose header is line `h`: from the line before, or from nothing for the first line. */
  function TitleAbove(ls: seq<Line>, h: nat): string
    requires h < |ls|
  {
    if h == 0 then TitleOf("") else ls[h - 1].heading
  }

  /** The table whose header is line `h`. */
  function TableAt(ls: seq<Line>, h: nat): Table
    requires h < |ls|
  {
    Table(TitleAbove(ls, h), ls[h].cells, BlockRows(ls, h + 1, BlockEnd(ls, h + 1), |ls[h].cells|))
  }

  /** The tables of the lines from `i` on: each run of table lines is one table, kept when it has a row. */
  function TablesFrom(ls: seq<Line>, i: nat): seq<Table>
    requires i <= |ls|
    decreases |ls| - i
  {
    if i == |ls| then []
    else if !ls[i].isTable then TablesFrom(ls, i + 1)
    else
      var t := TableAt(ls, i);
      (if |t.rows| > 0 then [t] else []) + TablesFrom(ls, BlockEnd(ls, i + 1))
  }

  /** The tables of a memory text. */
  function Tables(memory: string): seq<Table> {
    TablesFrom(Classified(memory), 0)
  }

  // ---------------------------------------------------------------------
  // parseTables
  // ---------------------------------------------------------------------

  /** A run of table lines from `lo` that stops at `e` ends there. */
  lemma {:induction false} BlockEndAt(ls: seq<Line>, lo: nat, e: nat)
    requires lo <= e <= |ls|
    requires forall k | lo <= k < e :: ls[k].isTable
    requires e == |ls| || !ls[e].isTable
    ensures BlockEnd(ls, lo) == e
    decreases e - lo
  {
    if e > lo {
      BlockEndAt(ls, lo + 1, e);
    }
  }

  /** A line that is not a table line contributes nothing. */
  lemma {:induction false} TablesSkip(ls: seq<Line>, i: nat)
    requires i < |ls| && !ls[i].isTable
    ensures TablesFrom(ls, i) == TablesFrom(ls, i + 1)
  {
  }

  /** A run of table lines from `h` up to `i` gives its table (when it has a row) before the tables from `i` on. */
  lemma {:induction false} TablesClose(ls: seq<Line>, h: nat, i: nat)
    requires h < i <= |ls| && forall k | h <= k < i :: ls[k].isTable
    requires i == |ls| || !ls[i].isTable
    ensures TablesFrom(ls, h) == (if |TableAt(ls, h).rows| > 0 then [TableAt(ls, h)] else []) + TablesFrom(ls, i)
  {
    BlockEndAt(ls, h + 1, i);
  }

  /** One more line of a run adds its row when it keeps one. */
  lemma {:induction false} RowsStep(ls: seq<Line>, lo: nat, i: nat, width: nat)
    requires lo <= i < |ls|
    ensures BlockRows(ls, lo, i + 1, width) == BlockRows(ls, lo, i, width) + (if KeepsRow(ls[i], width) then [ls[i].cells] else [])
  {
  }

  /** Reads each line; the reading of line `k` is recalled only where `Classify(lines[k])` is mentioned. */
  lemma {:induction false} ReadLines(lines: seq<string>) returns (ls: seq<Line>)
    ensures |ls| == |lines|
    ensures forall k {:trigger Classify(lines[k])} | 0 <= k < |lines| :: ls[k] == Classify(lines[k])
  {
    ls := seq(|lines|, k requires 0 <= k < |lines| => Classify(lines[k]));
  }

  /** Lines read one by one are the lines of the memory text. */
  lemma {:induction false} SameLines(memory: string, ls: seq<Line>)
    requires |ls| == |Split(memory, '\n')|
    requires forall k {:trigger Classify(Split(memory, '\n')[k])} | 0 <= k < |ls| :: ls[k] == Classify(Split(memory, '\n')[k])
    ensures ls == Classified(memory)
  {
  }

  /** The open table, when there is one and it has a row: what closing it adds to the result. */
  function Close(open: Option<Table>): (r: seq<Table>)
    ensures |r| <= 1
    ensures r != [] <==> open.Some? && |open.value.rows| > 0
  {
    if open.Some? && |open.value.rows| > 0 then [open.value] else []
  }

  /** A data line under an open table: its cells become a row when it keeps one. */
  function Extend(t: Table, l: Line): (r: Table)
    ensures r.title == t.title && r.headers == t.headers
    ensures r.rows == t.rows + (if KeepsRow(l, |t.headers|) then [l.cells] else [])
  {
    if KeepsRow(l, |t.headers|) then t.(rows := t.rows + [l.cells]) else t
  }

  /**
   * The tables still to come when the lines from `i` on are read one at a
   * time with `open` as the table being built: the reading that the parser's
   * single pass performs.
   */
  function ScanFrom(ls: seq<Line>, i: nat, open: Option<Table>): seq<Table>
    requires i <= |ls|
    decreases |ls| - i
  {
    if i == |ls| then Close(open)
    else if !ls[i].isTable then Close(open) + ScanFrom(ls, i + 1, None)
    else if open.None? then ScanFrom(ls, i + 1, Some(Table(TitleAbove(ls, i), ls[i].cells, [])))
    else ScanFrom(ls, i + 1, Some(Extend(open.value, ls[i])))
  }

  /** With no table open, the line-by-line reading finds the tables of the blocks from `i` on. */
  lemma {:induction false} ScanClosed(ls: seq<Line>, i: nat)
    requires i <= |ls|
    ensures ScanFrom(ls, i, None) == TablesFrom(ls, i)
    decreases |ls| - i
  {
    if i < |ls| {
      if ls[i].isTable {
        ScanOpen(ls, i, i + 1);
      } else {
        ScanClosed(ls, i + 1);
      }
    }
  }

  /** The table of header `h` built from the lines before `i`. */
  function OpenTable(ls: seq<Line>, h: nat, i: nat): Table
    requires h < i <= |ls|
  {
    Table(TitleAbove(ls, h), ls[h].cells, BlockRows(ls, h + 1, i, |ls[h].cells|))
  }

  /** With the table of header `h` open and built up to line `i`, the reading finds the tables of the blocks from `h` on. */
  lemma {:induction false} ScanOpen(ls: seq<Line>, h: nat, i: nat)
    requires h < i <= |ls| && forall k | h <= k < i :: ls[k].isTable
    ensures ScanFrom(ls, i, Some(OpenTable(ls, h, i))) == TablesFrom(ls, h)
    decreases |ls| - i
  {
    if i == |ls| || !ls[i].isTable {
      if i < |ls| {
        ScanClosed(ls, i + 1);
      }
      ScanCloses(ls, h, i);
    } else {
      ScanExtends(ls, h, i);
      ScanOpen(ls, h, i + 1);
    }
  }

  /** At the end of a run the open table is its block's table; what follows is read with no table open. */
  lemma {:induction false} ScanCloses(ls: seq<Line>, h: nat, i: nat)
    requires h < i <= |ls| && forall k | h <= k < i :: ls[k].isTable
    requires i == |ls| || !ls[i].isTable
    requires i < |ls| ==> ScanFrom(ls, i + 1, None) == TablesFrom(ls, i + 1)
    ensures ScanFrom(ls, i, Some(OpenTable(ls, h, i))) == TablesFrom(ls, h)
  {
    var t := OpenTable(ls, h, i);
    BlockEndAt(ls, h + 1, i);
    assert TableAt(ls, h) == t;
    TablesClose(ls, h, i);
    var kept := if |t.rows| > 0 then [t] else [];
    assert Close(Some(t)) == kept;
    if i < |ls| {
      TablesSkip(ls, i);
      calc {
        ScanFrom(ls, i, Some(t));
        kept + ScanFrom(ls, i + 1, None);
        kept + TablesFrom(ls, i);
      }
    }
  }

  /** Inside a run, reading one more line extends the open table by that line's row. */
  lemma {:induction false} ScanExtends(ls: seq<Line>, h: nat, i: nat)
    requires h < i < |ls| && ls[i].isTable
    ensures ScanFrom(ls, i, Some(OpenTable(ls, h, i))) == ScanFrom(ls, i + 1, Some(OpenTable(ls, h, i + 1)))
  {
    RowsStep(ls, h + 1, i, |ls[h].cells|);
    assert Extend(OpenTable(ls, h, i), ls[i]) == OpenTable(ls, h, i + 1);
  }

  /** Reads line `i`: trims it, tests it against the table and separator patterns, splits it into cells and takes its heading. */
  method ReadLine(lines: seq<string>, ghost ls: seq<Line>, i: nat) returns (l: Line)
    requires i < |lines| == |ls|
    requires forall k {:trigger Classify(lines[k])} | 0 <= k < |lines| :: ls[k] == Classify(lines[k])
    ensures l == ls[i]
  {
    var line := Trim(lines[i]);
    l := Line(TitleOf(lines[i]), IsTableLine(line), IsSeparator(line), ParseTableRow(line));
    assert l == Classify(lines[i]);
  }

  /**
   * `parseTables(memory)`: one pass over the lines. A table line opens a
   * table when none is open (its headers from this line, its title from the
   * line before) and otherwise adds a row; any other line closes the open
   * table, which is kept when it has a row.
   */
  method ParseTables(memory: string) returns (tables: seq<Table>)
    ensures tables == Tables(memory)
  {
    var lines := Split(memory, '\n');
    ghost var ls := ReadLines(lines);
    tables := [];
    var current: Option<Table> := None;
    var i := 0;
    while i < |lines|
      invariant i <= |lines|
      invariant tables + ScanFrom(ls, i, current) == ScanFrom(ls, 0, None)
    {
      var l := ReadLine(lines, ls, i);
      if l.isTable {
        if current.None? {
          var title := TitleOf("");
          if i > 0 {
            var above := ReadLine(lines, ls, i - 1);
            title := above.heading;
          }
          current := Some(Table(title, l.cells, []));
        } else if !l.isSeparator {
          var row := l.cells;
          if |row| == |current.value.headers| {
            current := Some(current.value.(rows := current.value.rows + [row]));
          }
        }
      } else if current.Some? {
        assert ScanFrom(ls, i, current) == Close(current) + ScanFrom(ls, i + 1, None);
        if |current.value.rows| > 0 {
          tables := tables + [current.value];
        }
        current := None;
      }
      i := i + 1;
    }
    if current.Some? && |current.value.rows| > 0 {
      tables := tables + [current.value];
    }
    ScanClosed(ls, 0);
    SameLines(memory, ls);
  }

  // ---------------------------------------------------------------------
  // What parsing guarantees
  // ---------------------------------------------------------------------

  /** Every row a block gives is as wide as the headers and is the cells of a non-separator line of the block. */
  lemma {:induction false} BlockRowsFromData(ls: seq<Line>, lo: nat, hi: nat, width: nat)
    requires lo <= hi <= |ls|
    ensures forall r | r in BlockRows(ls, lo, hi, width) :: |r| == width
    ensures forall r | r in BlockRows(ls, lo, hi, width) ::
              (exists k | lo <= k < hi :: !ls[k].isSeparator && r == ls[k].cells)
    decreases hi
  {
    if hi > lo {
      BlockRowsFromData(ls, lo, hi - 1, width);
    }
  }

  /** Line `h` is a table line that does not continue a run: the header line of a table. */
  predicate IsHeader(ls: seq<Line>, h: nat)
    requires h < |ls|
  {
    ls[h].isTable && (h == 0 || !ls[h - 1].isTable)
  }

  /** `t` is the table of some header line from `lo` on. */
  ghost predicate FromHeader(ls: seq<Line>, lo: nat, t: Table) {
    exists h | lo <= h < |ls| :: IsHeader(ls, h) && t == TableAt(ls, h)
  }

  /**
   * Every table of the lines from a block boundary `i` on has a header line
   * `h`: a table line not preceded by one, whose table it is; it has a row,
   * and every row is as wide as its headers and is the cells of a later
   * non-separator line of the same run of table lines.
   */
  lemma {:induction false} TablesWellFormed(ls: seq<Line>, i: nat)
    requires i <= |ls|
    requires i == 0 || !ls[i - 1].isTable
    ensures forall t | t in TablesFrom(ls, i) :: |t.rows| > 0 && forall r | r in t.rows :: |r| == |t.headers|
    ensures forall t | t in TablesFrom(ls, i) :: FromHeader(ls, i, t)
    decreases |ls| - i
  {
    if i < |ls| {
      if !ls[i].isTable {
        TablesWellFormed(ls, i + 1);
      } else {
        var e := BlockEnd(ls, i + 1);
        if e < |ls| {
          TablesWellFormed(ls, e + 1);
        }
        BlockWide(ls, i, e);
        BlockHeaders(ls, i, e, e + 1);
      }
    }
  }

  /** A step of `TablesWellFormed` at a header line `i` whose run ends at `e`: the table has rows, all as wide as its headers. */
  lemma {:induction false} BlockWide(ls: seq<Line>, i: nat, e: nat)
    requires i < |ls| && ls[i].isTable && e == BlockEnd(ls, i + 1)
    requires e < |ls| ==> forall t | t in TablesFrom(ls, e + 1) :: |t.rows| > 0 && forall r | r in t.rows :: |r| == |t.headers|
    ensures forall t | t in TablesFrom(ls, i) :: |t.rows| > 0 && forall r | r in t.rows :: |r| == |t.headers|
  {
    var t := TableAt(ls, i);
    BlockRowsFromData(ls, i + 1, e, |t.headers|);
    var rest := TablesFrom(ls, e);
    assert TablesFrom(ls, i) == (if |t.rows| > 0 then [t] else []) + rest;
    if e < |ls| {
      assert rest == TablesFrom(ls, e + 1);
    } else {
      assert rest == [];
    }
    forall u | u in TablesFrom(ls, i)
      ensures |u.rows| > 0 && forall r | r in u.rows :: |r| == |u.headers|
    {
      if u !in rest {
        assert u == t;
      }
    }
  }

  /**
   * A step of `TablesWellFormed` at a header line `i` whose run ends at `e`,
   * with `next` the line after: its table and those after come from header lines.
   */
  lemma {:induction false} BlockHeaders(ls: seq<Line>, i: nat, e: nat, next: nat)
    requires i < |ls| && IsHeader(ls, i) && e == BlockEnd(ls, i + 1) && next == e + 1
    requires e < |ls| ==> forall t | t in TablesFrom(ls, next) :: FromHeader(ls, next, t)
    ensures forall t | t in TablesFrom(ls, i) :: FromHeader(ls, i, t)
  {
    var t := TableAt(ls, i);
    var rest := TablesFrom(ls, e);
    assert TablesFrom(ls, i) == (if |t.rows| > 0 then [t] else []) + rest;
    if e < |ls| {
      assert rest == TablesFrom(ls, e + 1);
    } else {
      assert rest == [];
    }
    forall u | u in TablesFrom(ls, i)
      ensures FromHeader(ls, i, u)
    {
      if u in rest {
        assert e < |ls| && u in TablesFrom(ls, next);
        var h :| next <= h < |ls| && IsHeader(ls, h) && u == TableAt(ls, h);
        assert i <= h;
      } else {
        assert u == t;
      }
    }
  }

  /** A line without a line feed gives a heading and cells without one. */
  lemma {:induction false} LineOneLine(raw: string)
    requires '\n' !in raw
    ensures '\n' !in Classify(raw).heading
    ensures forall c | c in Classify(raw).cells :: '\n' !in c
  {
    TitleOneLine(raw);
    TrimKeepsOut(raw, '\n');
    CellsOneLine(Trim(raw));
  }

  /** When no heading or cell of the lines holds a line feed, no title or cell of their tables does. */
  lemma {:induction false} TablesFromOneLine(ls: seq<Line>)
    requires forall k | 0 <= k < |ls| :: '\n' !in ls[k].heading && forall c | c in ls[k].cells :: '\n' !in c
    ensures forall t | t in TablesFrom(ls, 0) :: '\n' !in t.title
    ensures forall t, r, c | t in TablesFrom(ls, 0) && r in t.rows && c in r :: '\n' !in c
  {
    TablesWellFormed(ls, 0);
    TitleOneLine("");
    forall t | t in TablesFrom(ls, 0)
      ensures '\n' !in t.title
      ensures forall r, c | r in t.rows && c in r :: '\n' !in c
    {
      var h :| 0 <= h < |ls| && IsHeader(ls, h) && t == TableAt(ls, h);
      BlockRowsFromData(ls, h + 1, BlockEnd(ls, h + 1), |t.headers|);
    }
  }

  /** The lines of the memory text contain no line feed, so neither does any title or cell. */
  lemma {:induction false} TablesOneLine(memory: string)
    ensures forall t | t in Tables(memory) :: '\n' !in t.title
    ensures forall t, r, c | t in Tables(memory) && r in t.rows && c in r :: '\n' !in c
  {
    var lines := Split(memory, '\n');
    var ls := Classified(memory);
    forall k | 0 <= k < |ls|
      ensures '\n' !in ls[k].heading && forall c | c in ls[k].cells :: '\n' !in c
    {
      assert ls[k] == Classify(lines[k]);
      LineOneLine(lines[k]);
    }
    TablesFromOneLine(ls);
  }

  /** A title never holds a line feed: the capture stops at line terminators. */
  lemma {:induction false} TitleOneLine(prev: string)
    ensures '\n' !in TitleOf(prev)
  {
    match HeadingCapture(prev)
    case Some(text) =>
      CaptureOneLine(prev, 1, SpaceEnd(prev, 1));
      if |prev| >= 2 {
        CaptureOneLine(prev, 2, SpaceEnd(prev, 2));
      }
      TrimKeepsOut(text, '\n');
    case None =>
  }

  /** A capture of `.+` holds no line terminator. */
  lemma {:induction false} CaptureOneLine(s: string, p: nat, q: nat)
    requires p <= q <= |s|
    ensures CaptureFrom(s, p, q).Some? ==> '\n' !in CaptureFrom(s, p, q).value
    decreases q - p
  {
    if q < |s| && !IsLineTerminator(s[q]) {
      var e := RunEnd(s, q);
      assert forall k | 0 <= k < e - q :: s[q..e][k] == s[q + k];
    } else if q > p {
      CaptureOneLine(s, p, q - 1);
    }
  }

  /** The cells of a line without a line feed hold none. */
  lemma {:induction false} CellsOneLine(line: string)
    requires '\n' !in line
    ensures forall c | c in ParseTableRow(line) :: '\n' !in c
  {
    var pieces := Split(line, '|');
    SplitPiecesAvoid(line, '|', '\n');
    forall k | 0 <= k < |pieces|
      ensures '\n' !in Trim(pieces[k])
    {
      TrimKeepsOut(pieces[k], '\n');
    }
  }

  /** Pieces of a string without `x` do not contain `x`. */
  lemma {:induction false} SplitPiecesAvoid(s: string, c: char, x: char)
    requires x !in s
    ensures forall k | 0 <= k < |Split(s, c)| :: x !in Split(s, c)[k]
    decreases |s|
  {
    if s != [] {
      SplitPiecesAvoid(s[1..], c, x);
      SplitFirst(s[0], s[1..], c);
      assert [s[0]] + s[1..] == s;
    }
  }

  /** A heading `# text` or `## text` titles the table below it with the text. */
  lemma {:induction false} HeadingTitle(text: string)
    requires text != [] && NoBreak(text) && !IsSpace(text[0]) && !IsSpace(text[|text| - 1])
    ensures TitleOf("# " + text) == text
    ensures TitleOf("## " + text) == text
  {
    TrimFixes(text);
    HeadingAfter("# ", text);
    HeadingAfter("## ", text);
  }

  /** After a marker `#` or `##` and one blank, `.+` captures the rest of a heading that starts with no blank. */
  lemma {:induction false} HeadingAfter(marker: string, text: string)
    requires marker == "# " || marker == "## "
    requires text != [] && NoBreak(text) && !IsSpace(text[0])
    ensures HeadingCapture(marker + text) == Some(text)
  {
    var line, p := marker + text, |marker|;
    assert line[p..] == text;
    assert line[p] == text[0];
    assert SpaceEnd(line, p) == p;
    assert SpaceEnd(line, p - 1) == p;
    RunToEnd(line, p);
    assert !IsLineTerminator(line[p]);
    assert line[p..RunEnd(line, p)] == text;
    assert CaptureFrom(line, p - 1, p) == Some(text);
  }

  /** Without line terminators after `q`, the wildcard run goes to the end. */
  lemma {:induction false} RunToEnd(s: string, q: nat)
    requires q <= |s| && NoBreak(s[q..])
    ensures RunEnd(s, q) == |s|
    decreases |s| - q
  {
    if q < |s| {
      assert s[q..][0] == s[q];
      assert s[q..][1..] == s[q + 1..];
      RunToEnd(s, q + 1);
    }
  }

  /** A line not starting with `#` gives the default title; `"##"` alone titles a table "#", and `"## "` leaves it untitled. */
  lemma {:induction false} HeadingEdgeCases(prev: string)
    ensures (prev == [] || prev[0] != '#') ==> TitleOf(prev) == DEFAULT_TITLE
    ensures TitleOf("#") == DEFAULT_TITLE
    ensures TitleOf("##") == "#"
    ensures TitleOf("## ") == ""
  {
    assert SpaceEnd("#", 1) == 1;
    assert SpaceEnd("##", 2) == 2 && SpaceEnd("##", 1) == 1 && RunEnd("##", 1) == 2;
    assert Trim("#") == "#" by {
      TrimFixes("#");
    }
    assert SpaceEnd("## ", 2) == 3 && RunEnd("## ", 2) == 3;
    assert Trim(" ") == "";
  }

  // ---------------------------------------------------------------------
  // Rendering
  // ---------------------------------------------------------------------

  /** `getTableIcon(title)`: the category's icon, or the chart icon for any other title. */
  function TableIcon(title: string): (icon: string)
    ensures icon != []
    ensures title in CATEGORIES ==> icon == TABLE_ICONS[title]
    ensures title !in TABLE_ICONS ==> icon == DEFAULT_ICON
  {
    IconsCoverCategories();
    if title in TABLE_ICONS then TABLE_ICONS[title] else DEFAULT_ICON
  }

  /** The icon table has exactly one entry per category, none of them empty. */
  lemma {:induction false} IconsCoverCategories()
    ensures forall c | c in CATEGORIES :: c in TABLE_ICONS
    ensures forall c | c in TABLE_ICONS :: c in CATEGORIES && TABLE_ICONS[c] != [] && '\n' !in TABLE_ICONS[c]
  {
  }

  /** `truncateCell(cell, maxLength)`: a cell that fits is kept; a longer one is cut with ".." to exactly the limit. */
  function TruncateCell(cell: string, maxLength: nat): (r: string)
    ensures |cell| <= maxLength ==> r == cell
    ensures |cell| > maxLength ==> |r| >= 2 && r[..|r| - 2] <= cell && r[|r| - 2..] == ELLIPSIS
    ensures |cell| > maxLength && maxLength >= 2 ==> |r| == maxLength && r != cell
  {
    if |cell| <= maxLength then cell
    else cell[..if maxLength >= 2 then maxLength - 2 else 0] + ELLIPSIS
  }

  /** The cells a wide row shows: its first three, each cut to twelve characters. */
  function ShownCells(row: seq<string>): (cells: seq<string>)
    ensures |cells| == if |row| < WIDE_CELLS then |row| else WIDE_CELLS
    ensures forall k | 0 <= k < |cells| :: cells[k] == TruncateCell(row[k], CELL_WIDTH) && |cells[k]| <= CELL_WIDTH
  {
    var first := Take(row, WIDE_CELLS);
    seq(|first|, k requires 0 <= k < |first| => TruncateCell(first[k], CELL_WIDTH))
  }

  /** `row.slice(1)`: all cells but the first. */
  function Rest(row: seq<string>): (r: seq<string>)
    ensures |row| > 0 ==> r == row[1..]
    ensures |row| == 0 ==> r == []
  {
    if |row| > 0 then row[1..] else []
  }

  /** `formatTableRow(row, headers)`: a bullet list for four or more headers, `key: rest` for two or three, else the cells. */
  function FormatTableRow(row: seq<string>, headers: seq<string>): string {
    if |headers| >= WIDE_HEADERS then BULLET + Join(ShownCells(row), CELL_SEPARATOR)
    else if |headers| >= PAIR_HEADERS then (if |row| > 0 then row[0] else UNDEFINED) + ": " + Join(Rest(row), " ")
    else Join(row, " ")
  }

  /** With four or more headers a row is a bullet item; its first three cells, when each fits, are shown whole. */
  lemma {:induction false} WideRow(row: seq<string>, headers: seq<string>)
    requires |headers| >= WIDE_HEADERS
    ensures BULLET <= FormatTableRow(row, headers)
    ensures |row| >= WIDE_CELLS && (forall k | 0 <= k < WIDE_CELLS :: |row[k]| <= CELL_WIDTH) ==>
              FormatTableRow(row, headers) == BULLET + row[0] + CELL_SEPARATOR + row[1] + CELL_SEPARATOR + row[2]
  {
    if |row| >= WIDE_CELLS && (forall k | 0 <= k < WIDE_CELLS :: |row[k]| <= CELL_WIDTH) {
      WideCells(row);
    }
  }

  /** With two or three headers a row reads `key: value`. */
  lemma {:induction false} PairRow(row: seq<string>, headers: seq<string>)
    requires PAIR_HEADERS <= |headers| < WIDE_HEADERS
    ensures |row| == 0 ==> FormatTableRow(row, headers) == UNDEFINED + ": "
    ensures |row| == 2 ==> FormatTableRow(row, headers) == row[0] + ": " + row[1]
  {
    if |row| == 2 {
      assert Rest(row) == [row[1]];
    }
  }

  /** With fewer than two headers a row is its cells joined by blanks. */
  lemma {:induction false} PlainRow(row: seq<string>, headers: seq<string>)
    requires |headers| < PAIR_HEADERS
    ensures |row| == 1 ==> FormatTableRow(row, headers) == row[0]
    ensures |row| == 2 ==> FormatTableRow(row, headers) == row[0] + " " + row[1]
  {
    if |row| == 2 {
      assert row[1..] == [row[1]];
      assert Join(row[1..], " ") == row[1];
    }
  }

  /** The first three cells, when each fits, are shown whole and joined by the cell separator. */
  lemma {:induction false} WideCells(row: seq<string>)
    requires |row| >= WIDE_CELLS && forall k | 0 <= k < WIDE_CELLS :: |row[k]| <= CELL_WIDTH
    ensures Join(ShownCells(row), CELL_SEPARATOR) == row[0] + CELL_SEPARATOR + row[1] + CELL_SEPARATOR + row[2]
  {
    var cells := ShownCells(row);
    assert cells == [row[0], row[1], row[2]];
    calc {
      Join(cells, CELL_SEPARATOR);
      row[0] + CELL_SEPARATOR + Join([row[1], row[2]], CELL_SEPARATOR);
      { assert [row[1], row[2]][1..] == [row[2]]; }
      row[0] + CELL_SEPARATOR + (row[1] + CELL_SEPARATOR + row[2]);
    }
  }

  /** A row is left out when every cell is a placeholder: `[...]`, empty, or `---`. */
  predicate IsPlaceholderRow(row: seq<string>) {
    forall k | 0 <= k < |row| :: IsBracketed(row[k]) || row[k] == "" || row[k] == "---"
  }

  /** A row's line inside the frame. */
  function RowLine(row: seq<string>, headers: seq<string>): string {
    SIDE + " " + PadEnd(FormatTableRow(row, headers), ROW_WIDTH) + SIDE
  }

  /** The rows that are not all placeholders, in order. */
  function Kept(rows: seq<seq<string>>): (r: seq<seq<string>>)
    ensures |r| <= |rows|
  {
    if rows == [] then []
    else Kept(rows[..|rows| - 1]) + (if IsPlaceholderRow(rows[|rows| - 1]) then [] else [rows[|rows| - 1]])
  }

  /** The lines inside the frame: one per kept row. */
  function BodyLines(rows: seq<seq<string>>, headers: seq<string>): (r: seq<string>)
    ensures |r| == |Kept(rows)|
  {
    if rows == [] then []
    else
      BodyLines(rows[..|rows| - 1], headers)
      + (if IsPlaceholderRow(rows[|rows| - 1]) then [] else [RowLine(rows[|rows| - 1], headers)])
  }

  /** The lines of a rendered table: icon and title, the top of the frame, the rows, the bottom of the frame. */
  function TableLines(table: Table): seq<string> {
    [TableIcon(table.title) + " " + table.title, TOP] + BodyLines(table.rows, table.headers) + [BOTTOM]
  }

  /** A rendered table, or nothing for a table without rows. */
  function TableText(table: Table): string {
    if |table.rows| == 0 then "" else Join(TableLines(table), "\n")
  }

  /** `formatTable(table)`: the lines pushed one by one and joined with line feeds. */
  method FormatTable(table: Table) returns (text: string)
    ensures text == TableText(table)
  {
    if |table.rows| == 0 {
      return "";
    }
    var icon := TableIcon(table.title);
    var lines := [icon + " " + table.title, TOP];
    for i := 0 to |table.rows|
      invariant lines == [icon + " " + table.title, TOP] + BodyLines(table.rows[..i], table.headers)
    {
      var row := table.rows[i];
      assert table.rows[..i + 1][..i] == table.rows[..i];
      if !IsPlaceholderRow(row) {
        var formattedRow := FormatTableRow(row, table.headers);
        lines := lines + [SIDE + " " + PadEnd(formattedRow, ROW_WIDTH) + SIDE];
      }
    }
    assert table.rows[..|table.rows|] == table.rows;
    lines := lines + [BOTTOM];
    text := Join(lines, "\n");
  }

  /** Rows kept are exactly the rows that are not all placeholders, and each gets its line in order. */
  lemma {:induction false} KeptRows(rows: seq<seq<string>>, headers: seq<string>)
    ensures forall r | r in Kept(rows) :: r in rows && !IsPlaceholderRow(r)
    ensures forall r | r in rows && !IsPlaceholderRow(r) :: r in Kept(rows)
    ensures forall k | 0 <= k < |Kept(rows)| :: BodyLines(rows, headers)[k] == RowLine(Kept(rows)[k], headers)
  {
    if rows != [] {
      var init := rows[..|rows| - 1];
      KeptRows(init, headers);
      assert rows == init + [rows[|rows| - 1]];
    }
  }

  /** A row's line holds no line feed when its cells hold none. */
  lemma {:induction false} RowLineOneLine(row: seq<string>, headers: seq<string>)
    requires forall k | 0 <= k < |row| :: '\n' !in row[k]
    ensures '\n' !in RowLine(row, headers)
  {
    ShownCellsOneLine(row);
    JoinAvoids(ShownCells(row), CELL_SEPARATOR, '\n');
    JoinAvoids(Rest(row), " ", '\n');
    JoinAvoids(row, " ", '\n');
    PadOneLine(FormatTableRow(row, headers), ROW_WIDTH);
  }

  /** Cutting cells without a line feed leaves none. */
  lemma {:induction false} ShownCellsOneLine(row: seq<string>)
    requires forall k | 0 <= k < |row| :: '\n' !in row[k]
    ensures forall k | 0 <= k < |ShownCells(row)| :: '\n' !in ShownCells(row)[k]
  {
    var cells := ShownCells(row);
    forall k | 0 <= k < |cells|
      ensures '\n' !in cells[k]
    {
      assert cells[k] == TruncateCell(row[k], CELL_WIDTH);
      if |row[k]| > CELL_WIDTH {
        assert cells[k] == row[k][..CELL_WIDTH - 2] + ELLIPSIS;
      }
    }
  }

  /** Padding with blanks adds no line feed. */
  lemma {:induction false} PadOneLine(text: string, n: int)
    requires '\n' !in text
    ensures '\n' !in PadEnd(text, n)
  {
    var padded := PadEnd(text, n);
    forall k | 0 <= k < |padded|
      ensures padded[k] != '\n'
    {
      if k < |text| {
        assert padded[k] == text[k];
      }
    }
  }

  /** Body lines hold no line feed when no cell does. */
  lemma {:induction false} BodyLinesOneLine(rows: seq<seq<string>>, headers: seq<string>)
    requires forall r, c | r in rows && c in r :: '\n' !in c
    ensures forall k | 0 <= k < |BodyLines(rows, headers)| :: '\n' !in BodyLines(rows, headers)[k]
  {
    if rows != [] {
      var init := rows[..|rows| - 1];
      var last := rows[|rows| - 1];
      assert forall r | r in init :: r in rows;
      BodyLinesOneLine(init, headers);
      if !IsPlaceholderRow(last) {
        assert forall k | 0 <= k < |last| :: last[k] in last;
        RowLineOneLine(last, headers);
      }
    }
  }

  /** Two lists of lines free of `c` make one when put together. */
  lemma {:induction false} LinesAvoid(a: seq<string>, b: seq<string>, c: char)
    requires forall k | 0 <= k < |a| :: c !in a[k]
    requires forall k | 0 <= k < |b| :: c !in b[k]
    ensures forall k | 0 <= k < |a + b| :: c !in (a + b)[k]
  {
    forall k | 0 <= k < |a + b|
      ensures c !in (a + b)[k]
    {
      if k < |a| {
        assert (a + b)[k] == a[k];
      } else {
        assert (a + b)[k] == b[k - |a|];
      }
    }
  }

  /**
   * The lines of a rendered table with rows, when neither title nor cells
   * hold a line feed: the icon and title, the top of the frame, one framed
   * line per kept row, and the bottom of the frame.
   */
  lemma {:induction false} TableShape(table: Table)
    requires |table.rows| > 0 && '\n' !in table.title
    requires forall r, c | r in table.rows && c in r :: '\n' !in c
    ensures TableText(table) != ""
    ensures Split(TableText(table), '\n') == TableLines(table)
    ensures |TableLines(table)| == |Kept(table.rows)| + 3
    ensures TableLines(table)[0] == TableIcon(table.title) + " " + table.title
    ensures TableLines(table)[1] == TOP && TableLines(table)[|TableLines(table)| - 1] == BOTTOM
  {
    var lines := TableLines(table);
    var head := [TableIcon(table.title) + " " + table.title, TOP];
    var body := BodyLines(table.rows, table.headers);
    BodyLinesOneLine(table.rows, table.headers);
    IconsCoverCategories();
    assert '\n' !in TableIcon(table.title);
    assert '\n' !in TOP && '\n' !in BOTTOM;
    assert lines == head + body + [BOTTOM];
    LinesAvoid(head, body, '\n');
    LinesAvoid(head + body, [BOTTOM], '\n');
    SplitJoin(lines, '\n');
    assert Join(lines, "\n") == lines[0] + "\n" + Join(lines[1..], "\n");
  }

  // ---------------------------------------------------------------------
  // formatMemoryForTelegram
  // ---------------------------------------------------------------------

  /** Some requested section occurs in the title, both lowered. */
  predicate MatchesSection(title: string, sections: seq<string>) {
    exists k | 0 <= k < |sections| :: Contains(Lower(title), Lower(sections[k]))
  }

  /** The tables whose title matches a requested section; all of them when none is requested. */
  function Selected(tables: seq<Table>, sections: seq<string>): (r: seq<Table>)
    ensures |r| <= |tables|
  {
    if |sections| == 0 || tables == [] then tables
    else
      Selected(tables[..|tables| - 1], sections)
      + (if MatchesSection(tables[|tables| - 1].title, sections) then [tables[|tables| - 1]] else [])
  }

  /** `options.limit || displayTables.length`: a limit of 0 means none was given. */
  function LimitOr(limit: int, n: nat): int {
    if limit != 0 then limit else n
  }

  /** The tables shown: the selected ones, cut at the limit. */
  function Shown(tables: seq<Table>, sections: seq<string>, limit: int): seq<Table> {
    var selected := Selected(tables, sections);
    Take(selected, LimitOr(limit, |selected|))
  }

  /** Each rendered table followed by a blank line; tables that render to nothing are skipped. */
  function Rendered(tables: seq<Table>): string {
    if tables == [] then ""
    else
      var text := TableText(tables[|tables| - 1]);
      Rendered(tables[..|tables| - 1]) + (if text != "" then text + "\n\n" else "")
  }

  /** The note added when a limit left tables out: how many, against all parsed tables. */
  function MoreNote(total: nat, limit: int): string {
    if limit != 0 && total > limit then
      "\n... and " + NatToString(total - limit) + " more sections.\n" + MORE_HINT
    else ""
  }

  /** The whole reply for a memory text's tables. */
  function TelegramText(tables: seq<Table>, sections: seq<string>, limit: int): string {
    if |tables| == 0 then NO_DATA_FOUND
    else
      var result := Rendered(Shown(tables, sections, limit)) + MoreNote(|tables|, limit);
      if Trim(result) != "" then Trim(result) else NO_DATA_TO_DISPLAY
  }

  /**
   * `formatMemoryForTelegram(memory, { sections, limit })`: a limit of 0
   * stands for a missing one, an empty `sections` for a missing filter.
   */
  method FormatMemoryForTelegram(memory: string, sections: seq<string>, limit: int) returns (text: string)
    ensures text == TelegramText(Tables(memory), sections, limit)
  {
    var tables := ParseTables(memory);
    if |tables| == 0 {
      return NO_DATA_FOUND;
    }
    var displayTables := Selected(tables, sections);
    displayTables := Take(displayTables, LimitOr(limit, |displayTables|));
    var result := RenderTables(displayTables);
    result := result + MoreNote(|tables|, limit);
    text := if Trim(result) != "" then Trim(result) else NO_DATA_TO_DISPLAY;
  }

  /** The loop of `formatMemoryForTelegram`: each table formatted in turn, followed by a blank line unless it formats to nothing. */
  method RenderTables(displayTables: seq<Table>) returns (result: string)
    ensures result == Rendered(displayTables)
  {
    result := "";
    for i := 0 to |displayTables|
      invariant result == Rendered(displayTables[..i])
    {
      var formatted := FormatTable(displayTables[i]);
      assert displayTables[..i + 1][..i] == displayTables[..i];
      if formatted != "" {
        result := result + formatted + "\n\n";
      }
    }
    assert displayTables[..|displayTables|] == displayTables;
  }

  /** The section filter keeps exactly the tables whose title matches a requested section, in order. */
  lemma {:induction false} SelectedTables(tables: seq<Table>, sections: seq<string>)
    requires |sections| > 0
    ensures forall t | t in Selected(tables, sections) :: t in tables && MatchesSection(t.title, sections)
    ensures forall t | t in tables && MatchesSection(t.title, sections) :: t in Selected(tables, sections)
  {
    if tables != [] {
      var init := tables[..|tables| - 1];
      SelectedTables(init, sections);
      assert tables == init + [tables[|tables| - 1]];
    }
  }

  /** Without a filter every table is selected. */
  lemma {:induction false} SelectedAll(tables: seq<Table>)
    ensures Selected(tables, []) == tables
  {
  }

  /** A positive limit caps the number of tables shown; no limit shows all selected. */
  lemma {:induction false} ShownBound(tables: seq<Table>, sections: seq<string>, limit: int)
    ensures limit > 0 ==> |Shown(tables, sections, limit)| <= limit
    ensures limit == 0 ==> Shown(tables, sections, limit) == Selected(tables, sections)
    ensures Shown(tables, sections, limit) <= Selected(tables, sections)
  {
  }

  /**
   * The "more sections" note appears exactly when a limit was given and the
   * text has more tables than the limit, and then names how many were left out.
   */
  lemma {:induction false} MoreNoteWhenLimited(total: nat, limit: int)
    ensures MoreNote(total, limit) != "" <==> limit != 0 && total > limit
    ensures limit != 0 && total > limit ==>
              "\n... and " + NatToString(total - limit) <= MoreNote(total, limit)
  {
    if limit != 0 && total > limit {
      var note := "\n... and " + NatToString(total - limit);
      assert MoreNote(total, limit) == note + (" more sections.\n" + MORE_HINT);
    }
  }

  /** A text without tables gets the no-data message; the reply is never empty. */
  lemma {:induction false} ReplyCases(tables: seq<Table>, sections: seq<string>, limit: int)
    ensures |tables| == 0 ==> TelegramText(tables, sections, limit) == NO_DATA_FOUND
    ensures TelegramText(tables, sections, limit) != ""
  {
  }
}
